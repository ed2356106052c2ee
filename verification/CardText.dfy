/** The stock of a data card: one text, one line per unit, blank lines ignored. */
module CardText {
  import opened GoText
  import opened DeliveryProof

  predicate IsBreak(c: char) {
    c == '\n' || c == '\r'
  }

  predicate Blank(s: string) {
    TrimSpace(s) == ""
  }

  predicate NoBreak(s: string) {
    forall k :: 0 <= k < |s| ==> !IsBreak(s[k])
  }

  /** The pieces of s[i..] between line breaks, when `cur` has been read of the first one. */
  function Cut(s: string, cur: string, i: nat): seq<string>
    requires i <= |s|
    decreases |s| - i
  {
    if i == |s| then if cur == "" then [] else [cur]
    else if IsBreak(s[i]) then [cur] + Cut(s, "", i + 1)
    else Cut(s, cur + [s[i]], i + 1)
  }

  function NonBlank(lines: seq<string>): seq<string> {
    if lines == [] then []
    else if Blank(lines[0]) then NonBlank(lines[1..])
    else [lines[0]] + NonBlank(lines[1..])
  }

  /** splitLines. */
  function Lines(s: string): seq<string> {
    NonBlank(Cut(s, "", 0))
  }

  lemma {:induction false} NonBlankSplits(a: seq<string>, b: seq<string>)
    ensures NonBlank(a + b) == NonBlank(a) + NonBlank(b)
  {
    if a == [] {
      assert a + b == b;
    } else {
      assert (a + b)[1..] == a[1..] + b;
      NonBlankSplits(a[1..], b);
    }
  }

  /** The first loop of splitLines. */
  method CutLines(s: string) returns (out: seq<string>)
    ensures out == Cut(s, "", 0)
  {
    var cur: string;
    out, cur := [], "";
    for i := 0 to |s|
      invariant out + Cut(s, cur, i) == Cut(s, "", 0)
    {
      if IsBreak(s[i]) {
        assert (out + [cur]) + Cut(s, "", i + 1) == out + ([cur] + Cut(s, "", i + 1));
        out, cur := out + [cur], "";
      } else {
        cur := cur + [s[i]];
      }
    }
    if |cur| > 0 {
      out := out + [cur];
    }
  }

  method SplitLines(s: string) returns (res: seq<string>)
    ensures res == Lines(s)
  {
    hide Blank, Cut;
    var out := CutLines(s);
    res := [];
    for k := 0 to |out|
      invariant res + NonBlank(out[k..]) == NonBlank(out)
    {
      if !Blank(out[k]) {
        res := res + [out[k]];
      }
    }
  }

  /** Lines as splitLines returns them. */
  predicate Clean(lines: seq<string>) {
    forall k :: 0 <= k < |lines| ==> !Blank(lines[k]) && NoBreak(lines[k])
  }

  lemma {:induction false} CutHasNoBreak(s: string, cur: string, i: nat)
    requires i <= |s| && NoBreak(cur)
    ensures forall k :: 0 <= k < |Cut(s, cur, i)| ==> NoBreak(Cut(s, cur, i)[k])
    decreases |s| - i
  {
    if i < |s| {
      if IsBreak(s[i]) {
        CutHasNoBreak(s, "", i + 1);
      } else {
        CutHasNoBreak(s, cur + [s[i]], i + 1);
      }
    }
  }

  lemma {:induction false} NonBlankIsClean(lines: seq<string>)
    requires forall k :: 0 <= k < |lines| ==> NoBreak(lines[k])
    ensures Clean(NonBlank(lines))
  {
    if lines != [] {
      NonBlankIsClean(lines[1..]);
    }
  }

  lemma LinesAreClean(s: string)
    ensures Clean(Lines(s))
  {
    CutHasNoBreak(s, "", 0);
    NonBlankIsClean(Cut(s, "", 0));
  }

  lemma {:induction false} CutShifts(a: string, b: string, cur: string, i: nat)
    requires i <= |b|
    ensures Cut(a + b, cur, |a| + i) == Cut(b, cur, i)
    decreases |b| - i
  {
    if i < |b| {
      if IsBreak(b[i]) {
        CutShifts(a, b, "", i + 1);
      } else {
        CutShifts(a, b, cur + [b[i]], i + 1);
      }
    }
  }

  lemma BlankEmpty()
    ensures Blank("")
  {
    TrimmedStays("");
  }

  lemma CutSplitsAtEnd(a: string, c: char, b: string, cur: string)
    requires c == '\n' || c == '\r'
    ensures NonBlank(Cut(a + [c] + b, cur, |a|)) == NonBlank(Cut(a, cur, |a|)) + Lines(b)
  {
    CutShifts(a + [c], b, "", 0);
    assert Cut(a + [c] + b, cur, |a|) == [cur] + Cut(b, "", 0);
    NonBlankSplits([cur], Cut(b, "", 0));
    BlankEmpty();
  }

  lemma PrependAssociates(h: seq<string>, x: seq<string>, y: seq<string>, rest: seq<string>)
    requires x == y + rest
    ensures h + x == (h + y) + rest
  {
  }

  lemma {:induction false} CutSplits(a: string, c: char, b: string, cur: string, i: nat)
    requires i <= |a| && (c == '\n' || c == '\r')
    ensures NonBlank(Cut(a + [c] + b, cur, i)) == NonBlank(Cut(a, cur, i)) + Lines(b)
    decreases |a| - i
  {
    if i == |a| {
      CutSplitsAtEnd(a, c, b, cur);
    } else if IsBreak(a[i]) {
      CutSplits(a, c, b, "", i + 1);
      var whole, first := Cut(a + [c] + b, "", i + 1), Cut(a, "", i + 1);
      NonBlankSplits([cur], whole);
      NonBlankSplits([cur], first);
      PrependAssociates(NonBlank([cur]), NonBlank(whole), NonBlank(first), Lines(b));
    } else {
      CutSplits(a, c, b, cur + [a[i]], i + 1);
    }
  }

  lemma LinesSplitAt(a: string, c: char, b: string)
    requires c == '\n' || c == '\r'
    ensures Lines(a + [c] + b) == Lines(a) + Lines(b)
  {
    CutSplits(a, c, b, "", 0);
  }

  lemma LinesSplit(a: string, b: string)
    ensures Lines(a + "\n" + b) == Lines(a) + Lines(b)
  {
    LinesSplitAt(a, '\n', b);
  }

  lemma {:induction false} CutOneLine(l: string, i: nat)
    requires i <= |l| && NoBreak(l) && l != ""
    ensures Cut(l, l[..i], i) == [l]
    decreases |l| - i
  {
    if i < |l| {
      assert l[..i] + [l[i]] == l[..i + 1];
      CutOneLine(l, i + 1);
    } else {
      assert l[..i] == l;
    }
  }

  lemma LineOfItself(l: string)
    requires !Blank(l) && NoBreak(l)
    ensures Lines(l) == [l]
  {
    if l == "" {
      BlankEmpty();
    }
    CutOneLine(l, 0);
    assert l[..0] == "";
    assert NonBlank([l]) == [l];
  }

  /** A line feed, a carriage return, and one behind the other end a line, and no other character does. */
  lemma BreaksAreTheseTwo(a: string, b: string, l: string)
    requires !Blank(l) && forall k :: 0 <= k < |l| ==> l[k] != '\n' && l[k] != '\r'
    ensures Lines(a + "\n" + b) == Lines(a) + Lines(b)
    ensures Lines(a + "\r" + b) == Lines(a) + Lines(b)
    ensures Lines(a + "\r\n" + b) == Lines(a) + Lines(b)
    ensures Lines(l) == [l]
  {
    hide Lines, Blank;
    LinesSplitAt(a, '\n', b);
    LinesSplitAt(a, '\r', b);
    LinesSplitAt(a, '\r', "\n" + b);
    LinesSplitAt("", '\n', b);
    NoLines();
    assert "" + "\n" + b == "\n" + b && a + "\r\n" + b == a + "\r" + ("\n" + b);
    LineOfItself(l);
  }

  lemma NoLines()
    ensures Lines("") == []
  {
  }

  lemma {:induction false} LinesOfJoin(lines: seq<string>)
    requires Clean(lines)
    ensures Lines(JoinLines(lines)) == lines
  {
    if lines == [] {
    } else if |lines| == 1 {
      LineOfItself(lines[0]);
    } else {
      LinesOfJoin(lines[1..]);
      LineOfItself(lines[0]);
      LinesSplit(lines[0], JoinLines(lines[1..]));
    }
  }

  /** What is left in stock after the first line has been taken. */
  function WithoutFirst(s: string): string {
    var lines := Lines(s);
    if lines == [] then "" else JoinLines(lines[1..])
  }

  /** What is in stock after an unsent line has been put back. */
  function PutBack(content: string, s: string): string {
    if Blank(s) then TrimSpace(content) else TrimSpace(content) + "\n" + s
  }

  /** Taking a line removes the first one and nothing else. */
  lemma TakingRemovesTheFirst(s: string)
    requires Lines(s) != []
    ensures Lines(WithoutFirst(s)) == Lines(s)[1..]
  {
    LinesAreClean(s);
    LinesOfJoin(Lines(s)[1..]);
  }

  lemma {:induction false} LeadOfSpace(s: string, i: nat)
    requires i <= |s| && forall k :: 0 <= k < |s| ==> IsSpace(s[k])
    ensures Lead(s, i) == |s|
    decreases |s| - i
  {
    if i < |s| {
      LeadOfSpace(s, i + 1);
    }
  }

  lemma SpaceIsBlank(s: string)
    requires forall k :: 0 <= k < |s| ==> IsSpace(s[k])
    ensures Blank(s)
  {
    LeadOfSpace(s, 0);
  }

  lemma BlankIsSpace(s: string)
    requires Blank(s)
    ensures forall k :: 0 <= k < |s| ==> IsSpace(s[k])
  {
    var i, j := TrimSpaceCutsEndsOnly(s);
  }

  lemma {:induction false} CutOfSpace(s: string, cur: string, i: nat)
    requires i <= |s| && forall k :: 0 <= k < |s| ==> IsSpace(s[k])
    requires forall k :: 0 <= k < |cur| ==> IsSpace(cur[k])
    ensures NonBlank(Cut(s, cur, i)) == []
    decreases |s| - i
  {
    SpaceIsBlank(cur);
    if i < |s| {
      if IsBreak(s[i]) {
        CutOfSpace(s, "", i + 1);
        NonBlankSplits([cur], Cut(s, "", i + 1));
      } else {
        CutOfSpace(s, cur + [s[i]], i + 1);
      }
    }
  }

  lemma TrimKeepsNoBreak(s: string)
    requires NoBreak(s)
    ensures NoBreak(TrimSpace(s))
  {
    var i, j := TrimSpaceCutsEndsOnly(s);
  }

  /** Putting a line back adds it, trimmed, at the front and changes nothing else. */
  lemma PuttingBackAddsInFront(content: string, s: string)
    requires !Blank(content) && NoBreak(content)
    ensures Lines(PutBack(content, s)) == [TrimSpace(content)] + Lines(s)
  {
    var t := TrimSpace(content);
    TrimmedStays(t);
    TrimKeepsNoBreak(content);
    LineOfItself(t);
    if Blank(s) {
      BlankIsSpace(s);
      CutOfSpace(s, "", 0);
    } else {
      LinesSplit(t, s);
    }
  }

  /** The lines with their ends trimmed. */
  function TrimmedLines(lines: seq<string>): seq<string> {
    seq(|lines|, k requires 0 <= k < |lines| => TrimSpace(lines[k]))
  }

  lemma SameWhenTrimmed(first: string, rest: seq<string>)
    ensures TrimmedLines([TrimSpace(first)] + rest) == TrimmedLines([first] + rest)
  {
    TrimmedStays(TrimSpace(first));
  }

  /** Taking a line and putting it back restores the stock, up to white space around lines. */
  lemma TakeThenPutBack(s: string)
    requires Lines(s) != []
    ensures TrimmedLines(Lines(PutBack(Lines(s)[0], WithoutFirst(s)))) == TrimmedLines(Lines(s))
  {
    var lines := Lines(s);
    LinesAreClean(s);
    TakingRemovesTheFirst(s);
    PuttingBackAddsInFront(lines[0], WithoutFirst(s));
    SameWhenTrimmed(lines[0], lines[1..]);
    assert lines == [lines[0]] + lines[1..];
  }

  /** How many of the lines are `line` once trimmed. */
  function Count(lines: seq<string>, line: string): nat {
    if lines == [] then 0 else (if TrimSpace(lines[0]) == line then 1 else 0) + Count(lines[1..], line)
  }
}
