/** Go's strings.TrimSpace, on texts whose characters are Unicode scalars. */
module GoText {

  /** unicode.IsSpace. */
  predicate IsSpace(c: char) {
    || '\U{9}' <= c <= '\U{D}' || c == ' ' || c == '\U{85}' || c == '\U{A0}' || c == '\U{1680}'
    || '\U{2000}' <= c <= '\U{200A}' || c == '\U{2028}' || c == '\U{2029}' || c == '\U{202F}'
    || c == '\U{205F}' || c == '\U{3000}'
  }

  /** The code points with the property White_Space of the Unicode Character Database. */
  const WHITE_SPACE: set<int> := {
    0x9, 0xA, 0xB, 0xC, 0xD, 0x20, 0x85, 0xA0, 0x1680, 0x2000, 0x2001, 0x2002, 0x2003, 0x2004, 0x2005, 0x2006,
    0x2007, 0x2008, 0x2009, 0x200A, 0x2028, 0x2029, 0x202F, 0x205F, 0x3000
  }

  lemma SpaceIsWhiteSpace(c: char)
    ensures IsSpace(c) <==> c as int in WHITE_SPACE
  {
  }

  /** No white space at either end. */
  predicate Trimmed(s: string) {
    s == "" || (!IsSpace(s[0]) && !IsSpace(s[|s| - 1]))
  }

  /** The first position from i on that holds no white space. */
  function Lead(s: string, i: nat): (r: nat)
    requires i <= |s|
    ensures i <= r <= |s|
    ensures r < |s| ==> !IsSpace(s[r])
    decreases |s| - i
  {
    if i < |s| && IsSpace(s[i]) then Lead(s, i + 1) else i
  }

  /** The position after the last one in s[i..j] that holds no white space. */
  function Tail(s: string, i: nat, j: nat): (r: nat)
    requires i <= j <= |s|
    ensures i <= r <= j
    ensures r > i ==> !IsSpace(s[r - 1])
    decreases j
  {
    if i < j && IsSpace(s[j - 1]) then Tail(s, i, j - 1) else j
  }

  function TrimSpace(s: string): (r: string)
    ensures Trimmed(r)
  {
    var i := Lead(s, 0);
    s[i..Tail(s, i, |s|)]
  }

  lemma TrimmedStays(s: string)
    requires Trimmed(s)
    ensures TrimSpace(s) == s
  {
    assert s[0..|s|] == s;
  }

  lemma {:induction false} LeadSkipsSpace(s: string, i: nat)
    requires i <= |s|
    ensures forall k :: i <= k < Lead(s, i) ==> IsSpace(s[k])
    decreases |s| - i
  {
    if i < |s| && IsSpace(s[i]) {
      LeadSkipsSpace(s, i + 1);
    }
  }

  lemma {:induction false} TailSkipsSpace(s: string, i: nat, j: nat)
    requires i <= j <= |s|
    ensures forall k :: Tail(s, i, j) <= k < j ==> IsSpace(s[k])
    decreases j
  {
    if i < j && IsSpace(s[j - 1]) {
      TailSkipsSpace(s, i, j - 1);
    }
  }

  /** TrimSpace cuts white space off both ends and nothing else. */
  lemma TrimSpaceCutsEndsOnly(s: string) returns (i: nat, j: nat)
    ensures i <= j <= |s| && TrimSpace(s) == s[i..j]
    ensures forall k :: 0 <= k < i || j <= k < |s| ==> IsSpace(s[k])
  {
    i := Lead(s, 0);
    j := Tail(s, i, |s|);
    LeadSkipsSpace(s, 0);
    TailSkipsSpace(s, i, |s|);
  }
}

/** The delivery proof of one automation run: accumulated card text and pictures. */
module DeliveryProof {
  import opened GoText

  datatype Proof = Proof(text: string, pics: seq<string>)

  const EMPTY_PROOF: Proof := Proof("", [])

  /** An empty line adds nothing; the first line stands alone. */
  function AppendLine(current: string, line: string): string {
    if line == "" then current else if current == "" then line else current + "\n" + line
  }

  /** appendTradeText. */
  function AppendTradeText(current: string, next: string): string {
    AppendLine(current, TrimSpace(next))
  }

  /** mergeShipmentDeliveryProof. */
  function Merge(current: Proof, next: Proof): Proof {
    Proof(AppendTradeText(current.text, next.text), current.pics + next.pics)
  }

  /** The loop of an action: one appendTradeText per unit that was delivered. */
  function Accumulate(current: string, units: seq<string>): string {
    if units == [] then current
    else AppendTradeText(Accumulate(current, units[..|units| - 1]), units[|units| - 1])
  }

  /** The units that leave something once trimmed. */
  function Kept(units: seq<string>): seq<string> {
    if units == [] then []
    else if TrimSpace(units[0]) == "" then Kept(units[1..])
    else [TrimSpace(units[0])] + Kept(units[1..])
  }

  function JoinLines(lines: seq<string>): string {
    if lines == [] then "" else if |lines| == 1 then lines[0] else lines[0] + "\n" + JoinLines(lines[1..])
  }

  function Flatten(groups: seq<seq<string>>): seq<string> {
    if groups == [] then [] else groups[0] + Flatten(groups[1..])
  }

  /** A run merges the text of each of its actions, in order, into what it already holds. */
  function MergeGroups(current: string, groups: seq<seq<string>>): string
    decreases |groups|
  {
    if groups == [] then current
    else MergeGroups(AppendTradeText(current, Accumulate("", groups[0])), groups[1..])
  }

  lemma AppendLineTrimmed(a: string, b: string)
    requires Trimmed(a) && Trimmed(b)
    ensures Trimmed(AppendLine(a, b))
  {
  }

  lemma AppendIsTrimmed(a: string, unit: string)
    requires Trimmed(a)
    ensures Trimmed(AppendTradeText(a, unit))
  {
    AppendLineTrimmed(a, TrimSpace(unit));
  }

  lemma {:induction false} AccumulateIsTrimmed(units: seq<string>)
    ensures Trimmed(Accumulate("", units))
  {
    if units != [] {
      AccumulateIsTrimmed(units[..|units| - 1]);
      AppendIsTrimmed(Accumulate("", units[..|units| - 1]), units[|units| - 1]);
    }
  }

  lemma AppendLineAssociates(current: string, a: string, b: string)
    ensures AppendLine(current, AppendLine(a, b)) == AppendLine(AppendLine(current, a), b)
  {
    assert (current + "\n" + a) + "\n" + b == current + "\n" + (a + "\n" + b);
  }

  lemma AppendAssociates(current: string, a: string, unit: string)
    requires Trimmed(a)
    ensures AppendTradeText(current, AppendTradeText(a, unit)) == AppendTradeText(AppendTradeText(current, a), unit)
  {
    AppendIsTrimmed(a, unit);
    TrimmedStays(a);
    TrimmedStays(AppendTradeText(a, unit));
    AppendLineAssociates(current, a, TrimSpace(unit));
  }

  lemma AppendNothing(current: string, nothing: string)
    requires nothing == ""
    ensures AppendTradeText(current, nothing) == current
  {
    TrimmedStays(nothing);
  }

  lemma MergeNothing(current: Proof, nothing: Proof)
    requires nothing.text == "" && nothing.pics == []
    ensures Merge(current, nothing) == current
  {
    AppendNothing(current.text, nothing.text);
    assert current.pics + nothing.pics == current.pics;
    assert Merge(current, nothing) == Proof(AppendTradeText(current.text, nothing.text), current.pics + nothing.pics);
  }

  /** Merging the text accumulated apart is the same as appending the units one by one. */
  lemma {:induction false} MergeIsAccumulate(current: string, units: seq<string>)
    ensures AppendTradeText(current, Accumulate("", units)) == Accumulate(current, units)
  {
    if units != [] {
      var front := units[..|units| - 1];
      MergeIsAccumulate(current, front);
      AccumulateIsTrimmed(front);
      AppendAssociates(current, Accumulate("", front), units[|units| - 1]);
    }
  }

  lemma {:induction false} AccumulateSplit(current: string, a: seq<string>, b: seq<string>)
    ensures Accumulate(current, a + b) == Accumulate(Accumulate(current, a), b)
  {
    if b == [] {
      assert a + b == a;
    } else {
      var front := b[..|b| - 1];
      assert (a + b)[..|a + b| - 1] == a + front;
      AccumulateSplit(current, a, front);
    }
  }

  /** Grouping the delivered units into actions does not change the text of the run; the
      text `current` already stored (a proof reloaded after a restart) may be any text. */
  lemma {:induction false} GroupingDoesNotMatter(current: string, groups: seq<seq<string>>)
    ensures MergeGroups(current, groups) == Accumulate(current, Flatten(groups))
    decreases |groups|
  {
    if groups != [] {
      MergeIsAccumulate(current, groups[0]);
      GroupingDoesNotMatter(Accumulate(current, groups[0]), groups[1..]);
      AccumulateSplit(current, groups[0], Flatten(groups[1..]));
    }
  }

  lemma {:induction false} KeptSplit(a: seq<string>, b: seq<string>)
    ensures Kept(a + b) == Kept(a) + Kept(b)
  {
    if a == [] {
      assert a + b == b;
    } else {
      assert (a + b)[1..] == a[1..] + b;
      KeptSplit(a[1..], b);
    }
  }

  lemma {:induction false} JoinAppend(lines: seq<string>, last: string)
    requires lines != []
    ensures JoinLines(lines + [last]) == JoinLines(lines) + "\n" + last
  {
    assert (lines + [last])[1..] == lines[1..] + [last];
    if |lines| > 1 {
      JoinAppend(lines[1..], last);
      assert lines[0] + "\n" + (JoinLines(lines[1..]) + "\n" + last)
          == lines[0] + "\n" + JoinLines(lines[1..]) + "\n" + last;
    }
  }

  lemma {:induction false} JoinIsEmptyOnlyForNoLine(units: seq<string>)
    ensures JoinLines(Kept(units)) == "" <==> Kept(units) == []
  {
    if units != [] {
      JoinIsEmptyOnlyForNoLine(units[1..]);
    }
  }

  lemma JoinOneMore(lines: seq<string>, line: string)
    requires JoinLines(lines) == "" <==> lines == []
    ensures JoinLines(if line == "" then lines else lines + [line]) == AppendLine(JoinLines(lines), line)
  {
    if line != "" && lines != [] {
      JoinAppend(lines, line);
    }
  }

  lemma KeptLast(front: seq<string>, last: string)
    ensures Kept(front + [last]) == if TrimSpace(last) == "" then Kept(front) else Kept(front) + [TrimSpace(last)]
  {
    KeptSplit(front, [last]);
    assert Kept([last]) == if TrimSpace(last) == "" then [] else [TrimSpace(last)];
  }

  lemma AccumulateLast(front: seq<string>, last: string)
    ensures Accumulate("", front + [last]) == AppendLine(Accumulate("", front), TrimSpace(last))
  {
    assert (front + [last])[..|front + [last]| - 1] == front;
  }

  lemma JoinLast(front: seq<string>, last: string)
    ensures JoinLines(Kept(front + [last])) == AppendLine(JoinLines(Kept(front)), TrimSpace(last))
  {
    JoinIsEmptyOnlyForNoLine(front);
    KeptLast(front, last);
    JoinOneMore(Kept(front), TrimSpace(last));
  }

  /** The accumulated text is the trimmed non-empty units joined by line breaks. */
  lemma {:induction false} AccumulateJoinsUnits(units: seq<string>)
    ensures Accumulate("", units) == JoinLines(Kept(units))
  {
    if units != [] {
      var front, last := units[..|units| - 1], units[|units| - 1];
      assert units == front + [last];
      AccumulateJoinsUnits(front);
      AccumulateLast(front, last);
      JoinLast(front, last);
    }
  }

  /** For every split into actions and every resumption after a stored prefix, the run's text
      is the trimmed non-empty units of all actions joined by line breaks. */
  lemma ProofTextOfRun(stored: seq<string>, groups: seq<seq<string>>)
    ensures MergeGroups(JoinLines(Kept(stored)), groups) == JoinLines(Kept(stored + Flatten(groups)))
  {
    AccumulateJoinsUnits(stored);
    GroupingDoesNotMatter(Accumulate("", stored), groups);
    AccumulateSplit("", stored, Flatten(groups));
    AccumulateJoinsUnits(stored + Flatten(groups));
  }
}
