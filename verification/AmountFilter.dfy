/**
  Which texts count as an amount: the GLOB and LIKE conditions used with SQLite, and the anchored
  regular expression used with PostgreSQL and MySQL. Both are given by general matchers.
 */
module AmountFilter {

  /** What one character of a pattern asks for. */
  datatype Test = Digit | Dot | OtherChar

  predicate Passes(t: Test, c: char) {
    match t
    case Digit => '0' <= c <= '9'
    case Dot => c == '.'
    case OtherChar => !('0' <= c <= '9') && c != '.'
  }

  // ---- GLOB and LIKE -------------------------------------------------------------------------------------------

  /** A pattern: tests for single characters, and `*` (or `%`) for any text. */
  datatype Part = One(test: Test) | Any

  predicate Globs(p: seq<Part>, s: string)
    decreases |p| + |s|
  {
    if p == [] then s == ""
    else match p[0]
      case One(t) => s != "" && Passes(t, s[0]) && Globs(p[1..], s[1..])
      case Any => Globs(p[1..], s) || (s != "" && Globs(p, s[1..]))
  }

  /** The default branch of amountExpression. */
  predicate SqliteAccepts(s: string) {
    && Globs([One(Digit), Any], s)
    && !Globs([Any, One(OtherChar), Any], s)
    && !Globs([Any, One(Dot), Any, One(Dot), Any], s)
    && !Globs([Any, One(Dot)], s)
  }

  // ---- regular expressions --------------------------------------------------------------------------------------

  datatype Regex = Char(test: Test) | Cat(first: Regex, second: Regex) | Plus(r: Regex) | Opt(r: Regex)

  predicate Matches(r: Regex, s: string)
    decreases r, |s|
  {
    match r
    case Char(t) => |s| == 1 && Passes(t, s[0])
    case Cat(a, b) => exists i :: 0 <= i <= |s| && Matches(a, s[..i]) && Matches(b, s[i..])
    case Plus(a) => Matches(a, s) || exists i :: 0 < i < |s| && Matches(a, s[..i]) && Matches(r, s[i..])
    case Opt(a) => s == "" || Matches(a, s)
  }

  /** ^[0-9]+([.][0-9]+)?$ */
  const AMOUNT := Cat(Plus(Char(Digit)), Opt(Cat(Char(Dot), Plus(Char(Digit)))))

  // ---- what they mean --------------------------------------------------------------------------------------------

  /** A text that starts with anything matches when the rest of the pattern matches some end of it. */
  lemma {:induction false} AnyMatchesSomeEnd(p: seq<Part>, s: string)
    ensures Globs([Any] + p, s) <==> exists i :: 0 <= i <= |s| && Globs(p, s[i..])
    decreases |s|
  {
    var q := [Any] + p;
    assert q[0] == Any && q[1..] == p;
    assert s[0..] == s;
    if s != "" {
      AnyMatchesSomeEnd(p, s[1..]);
      assert forall i :: 0 <= i <= |s| - 1 ==> s[1..][i..] == s[i + 1..];
      if i :| 0 <= i <= |s| && Globs(p, s[i..]) {
        assert i > 0 ==> s[1..][i - 1..] == s[i..];
      }
      if i :| 0 <= i <= |s[1..]| && Globs(p, s[1..][i..]) {
        assert s[i + 1..] == s[1..][i..];
      }
    }
  }

  lemma {:induction false} AnyMatchesAll(s: string)
    ensures Globs([Any], s)
    decreases |s|
  {
    if s != "" {
      AnyMatchesAll(s[1..]);
    }
  }

  /** The rest of a pattern behind one test. */
  lemma OneThen(t: Test, p: seq<Part>, s: string)
    ensures Globs([One(t)] + p, s) <==> s != "" && Passes(t, s[0]) && Globs(p, s[1..])
  {
    assert ([One(t)] + p)[1..] == p;
  }

  lemma ContainsMeans(t: Test, s: string)
    ensures Globs([Any, One(t), Any], s) <==> exists i :: 0 <= i < |s| && Passes(t, s[i])
  {
    AnyMatchesSomeEnd([One(t), Any], s);
    assert [Any] + [One(t), Any] == [Any, One(t), Any];
    forall i | 0 <= i <= |s|
      ensures Globs([One(t), Any], s[i..]) <==> i < |s| && Passes(t, s[i])
    {
      OneThen(t, [Any], s[i..]);
      assert [One(t)] + [Any] == [One(t), Any];
      if i < |s| {
        AnyMatchesAll(s[i..][1..]);
      }
    }
  }

  lemma EndsMeans(s: string)
    ensures Globs([Any, One(Dot)], s) <==> s != "" && s[|s| - 1] == '.'
  {
    AnyMatchesSomeEnd([One(Dot)], s);
    assert [Any] + [One(Dot)] == [Any, One(Dot)];
    forall i | 0 <= i <= |s|
      ensures Globs([One(Dot)], s[i..]) <==> i == |s| - 1 && s[i] == '.'
    {
      OneThen(Dot, [], s[i..]);
      assert [One(Dot)] + [] == [One(Dot)];
    }
    if s != "" && s[|s| - 1] == '.' {
      assert Globs([One(Dot)], s[|s| - 1..]);
    }
  }

  predicate TwoDots(s: string) {
    exists i, j :: 0 <= i < j < |s| && s[i] == '.' && s[j] == '.'
  }

  lemma TwoDotsMeans(s: string)
    ensures Globs([Any, One(Dot), Any, One(Dot), Any], s) <==> TwoDots(s)
  {
    var rest := [Any, One(Dot), Any];
    AnyMatchesSomeEnd([One(Dot)] + rest, s);
    assert [Any] + ([One(Dot)] + rest) == [Any, One(Dot), Any, One(Dot), Any];
    forall i | 0 <= i <= |s|
      ensures Globs([One(Dot)] + rest, s[i..]) <==> i < |s| && s[i] == '.' && exists j :: i < j < |s| && s[j] == '.'
    {
      OneThen(Dot, rest, s[i..]);
      if i < |s| {
        ContainsMeans(Dot, s[i..][1..]);
        assert s[i..][1..] == s[i + 1..];
        if j :| i < j < |s| && s[j] == '.' {
          assert s[i + 1..][j - i - 1] == '.';
        }
      }
    }
  }

  predicate AllDigits(s: string) {
    forall i :: 0 <= i < |s| ==> Passes(Digit, s[i])
  }

  /** Digits, or digits with one dot between them. */
  predicate IsAmount(s: string) {
    || (s != "" && AllDigits(s))
    || exists i :: 0 < i < |s| - 1 && s[i] == '.' && AllDigits(s[..i]) && AllDigits(s[i + 1..])
  }

  lemma {:induction false} DigitsMeans(s: string)
    ensures Matches(Plus(Char(Digit)), s) <==> s != "" && AllDigits(s)
    decreases |s|
  {
    var digits := Plus(Char(Digit));
    if s != "" && AllDigits(s) && |s| > 1 {
      DigitsMeans(s[1..]);
      assert Matches(Char(Digit), s[..1]) && Matches(digits, s[1..]);
    }
    if Matches(digits, s) && !Matches(Char(Digit), s) {
      var i :| 0 < i < |s| && Matches(Char(Digit), s[..i]) && Matches(digits, s[i..]);
      DigitsMeans(s[i..]);
      assert s == s[..1] + s[1..];
    }
  }

  lemma FractionMeans(s: string)
    ensures Matches(Cat(Char(Dot), Plus(Char(Digit))), s) <==> |s| > 1 && s[0] == '.' && AllDigits(s[1..])
  {
    if |s| > 1 && s[0] == '.' && AllDigits(s[1..]) {
      DigitsMeans(s[1..]);
      assert Matches(Char(Dot), s[..1]) && Matches(Plus(Char(Digit)), s[1..]);
    }
    if Matches(Cat(Char(Dot), Plus(Char(Digit))), s) {
      var i :| 0 <= i <= |s| && Matches(Char(Dot), s[..i]) && Matches(Plus(Char(Digit)), s[i..]);
      DigitsMeans(s[i..]);
    }
  }

  lemma RegexMeans(s: string)
    ensures Matches(AMOUNT, s) <==> IsAmount(s)
  {
    var fraction := Cat(Char(Dot), Plus(Char(Digit)));
    if s != "" && AllDigits(s) {
      DigitsMeans(s);
      assert s[..|s|] == s && s[|s|..] == "";
      assert Matches(Plus(Char(Digit)), s[..|s|]) && Matches(Opt(fraction), s[|s|..]);
    }
    if i :| 0 < i < |s| - 1 && s[i] == '.' && AllDigits(s[..i]) && AllDigits(s[i + 1..]) {
      DigitsMeans(s[..i]);
      FractionMeans(s[i..]);
      assert s[i..][1..] == s[i + 1..];
      assert Matches(Plus(Char(Digit)), s[..i]) && Matches(Opt(fraction), s[i..]);
    }
    if Matches(AMOUNT, s) {
      var i :| 0 <= i <= |s| && Matches(Plus(Char(Digit)), s[..i]) && Matches(Opt(fraction), s[i..]);
      DigitsMeans(s[..i]);
      FractionMeans(s[i..]);
      if s[i..] == "" {
        assert s[..i] == s;
      } else {
        assert s[i..][1..] == s[i + 1..];
      }
    }
  }

  lemma GlobMeans(s: string)
    ensures SqliteAccepts(s) <==> IsAmount(s)
  {
    OneThen(Digit, [Any], s);
    assert [One(Digit)] + [Any] == [One(Digit), Any];
    if s != "" {
      AnyMatchesAll(s[1..]);
    }
    ContainsMeans(OtherChar, s);
    TwoDotsMeans(s);
    EndsMeans(s);
    ConditionsMean(s);
  }

  /** The four conditions, spelled out, leave digits with at most one dot between them. */
  lemma ConditionsMean(s: string)
    ensures && s != "" && Passes(Digit, s[0]) && (forall i :: 0 <= i < |s| ==> !Passes(OtherChar, s[i]))
            && !TwoDots(s) && s[|s| - 1] != '.'
            <==> IsAmount(s)
  {
    if s != "" && Passes(Digit, s[0]) && (forall i :: 0 <= i < |s| ==> !Passes(OtherChar, s[i])) && !TwoDots(s)
        && s[|s| - 1] != '.' {
      if i :| 0 <= i < |s| && s[i] == '.' {
        assert forall k :: 0 <= k < |s| && k != i ==> s[k] != '.';
        assert AllDigits(s[..i]) && AllDigits(s[i + 1..]);
      }
    }
    if i :| 0 < i < |s| - 1 && s[i] == '.' && AllDigits(s[..i]) && AllDigits(s[i + 1..]) {
      assert forall k :: 0 <= k < i ==> s[k] == s[..i][k];
      assert forall k :: i < k < |s| ==> s[k] == s[i + 1..][k - i - 1];
    }
  }

  /** For every text, the conditions used with SQLite accept it exactly when the regular expression
      used with the other databases matches it. */
  lemma SameAmountsEverywhere(s: string)
    ensures SqliteAccepts(s) <==> Matches(AMOUNT, s)
  {
    GlobMeans(s);
    RegexMeans(s);
  }
}
