/**
  The two readers of money texts: the target price of an order, and the prices of a published
  batch. Both multiply in 64 bits and leave signs inside the parts to the integer parser.
 */
module Money {
  import opened GoText
  import opened Wrappers

  const TWO_TO_63 := 0x8000_0000_0000_0000
  const MAX_CENTS := 100_000_000

  /** Arithmetic on int64 keeps the low 64 bits. */
  function Wrap(x: int): int {
    (x + TWO_TO_63) % (2 * TWO_TO_63) - TWO_TO_63
  }

  predicate IsDigit(c: char) {
    '0' <= c <= '9'
  }

  predicate Digits(s: string) {
    forall k :: 0 <= k < |s| ==> IsDigit(s[k])
  }

  function Value(s: string): nat
    requires Digits(s)
  {
    if s == "" then 0 else Value(s[..|s| - 1]) * 10 + (s[|s| - 1] as int - '0' as int)
  }

  /** The number in decimal. */
  function Written(n: nat): string {
    (if n < 10 then "" else Written(n / 10)) + ["0123456789"[n % 10]]
  }

  lemma DigitIsRead(d: nat)
    requires d < 10
    ensures IsDigit("0123456789"[d]) && "0123456789"[d] as int - '0' as int == d
  {
  }

  lemma {:induction false} WrittenHasValue(n: nat)
    ensures Written(n) != "" && Digits(Written(n)) && Value(Written(n)) == n
  {
    var front := if n < 10 then "" else Written(n / 10);
    if n >= 10 {
      WrittenHasValue(n / 10);
    }
    DigitIsRead(n % 10);
    ValueOneMore(front, "0123456789"[n % 10]);
  }

  lemma ValueOneMore(front: string, c: char)
    requires Digits(front) && IsDigit(c)
    ensures Digits(front + [c]) && Value(front + [c]) == Value(front) * 10 + (c as int - '0' as int)
  {
    assert (front + [c])[..|front|] == front;
  }

  /** strconv.ParseInt(s, 10, 64). */
  function ParseInt(s: string): Option<int> {
    if s == "" then None
    else
      var body := if s[0] == '+' || s[0] == '-' then s[1..] else s;
      if body == "" || !Digits(body) then None
      else if s[0] == '-' then if Value(body) > TWO_TO_63 then None else Some(0 - Value(body))
      else if Value(body) >= TWO_TO_63 then None else Some(Value(body))
  }

  /** Every number of 63 bits is read back from its decimal text, with and without a sign, and a larger one
      is refused. */
  lemma WrittenIsRead(n: nat)
    ensures n < TWO_TO_63 ==> ParseInt(Written(n)) == Some(n) && ParseInt("+" + Written(n)) == Some(n)
    ensures n < TWO_TO_63 ==> ParseInt("-" + Written(n)) == Some(0 - n)
    ensures n >= TWO_TO_63 ==> ParseInt(Written(n)) == None
  {
    hide Written, Value;
    WrittenHasValue(n);
    var s := Written(n);
    assert ("-" + s)[1..] == s && ("+" + s)[1..] == s;
    assert IsDigit(s[0]);
  }

  /** The position of the first dot, or the length. */
  function Dot(s: string, i: nat): (r: nat)
    requires i <= |s|
    ensures i <= r <= |s| && (r < |s| ==> s[r] == '.') && forall k :: i <= k < r ==> s[k] != '.'
    decreases |s| - i
  {
    if i == |s| || s[i] == '.' then i else Dot(s, i + 1)
  }

  function Before(s: string): string {
    s[..Dot(s, 0)]
  }

  /** The text behind the first dot. */
  function Behind(s: string): string {
    if Dot(s, 0) < |s| then s[Dot(s, 0) + 1..] else ""
  }

  /** parseYuanToCents. */
  function ParseYuan(raw: string): Option<int> {
    var s := TrimSpace(raw);
    if s == "" then None
    else if Before(s) == "" || |Behind(s)| > 2 then None
    else
      var whole, fraction := ParseInt(Before(s)), FractionOf(Behind(s));
      if whole.None? || whole.value < 0 || fraction.None? then None
      else
        var cents := Wrap(Wrap(whole.value * 100) + fraction.value);
        if cents <= 0 || cents > MAX_CENTS then None else Some(cents)
  }

  /** The cents behind the dot: one digit counts tens. */
  function FractionOf(f: string): Option<int> {
    if f == "" then Some(0)
    else if ParseInt(f).None? || ParseInt(f).value < 0 then None
    else Some(if |f| == 1 then ParseInt(f).value * 10 else ParseInt(f).value)
  }

  /** parseBatchMoneyCents behind the sign. */
  function BatchUnsigned(s: string): Option<int> {
    if Dot(s, 0) < |s| && Dot(Behind(s), 0) < |Behind(s)| then None
    else
      var yuan := ParseInt(TrimSpace(Before(s)));
      if yuan.None? then None
      else if Dot(s, 0) == |s| then Some(Wrap(yuan.value * 100))
      else AddCents(Wrap(yuan.value * 100), TrimSpace(Behind(s)))
  }

  function AddCents(sum: int, fraction: string): Option<int> {
    if |fraction| > 2 then None
    else
      var cents := ParseInt(Padded(fraction));
      if cents.None? then None else Some(Wrap(sum + cents.value))
  }

  function Padded(f: string): string {
    if |f| == 0 then "00" else if |f| == 1 then f + "0" else f
  }

  function WithoutPrefix(s: string, c: char): string {
    if s != "" && s[0] == c then s[1..] else s
  }

  /** parseBatchMoneyCents. */
  function ParseBatch(raw: string): Option<int> {
    var s := TrimSpace(WithoutPrefix(WithoutPrefix(raw, '\U{A5}'), '\U{FFE5}'));
    if s == "" then Some(0) else BatchSigned(s)
  }

  function BatchSigned(s: string): Option<int>
    requires s != ""
  {
    var negative := s[0] == '-';
    var r := BatchUnsigned(if negative then s[1..] else WithoutPrefix(s, '+'));
    if r.None? then None else Some(if negative then Wrap(-r.value) else r.value)
  }

  method ParseBatchMoneyCents(raw: string) returns (r: Option<int>)
    ensures r == ParseBatch(raw)
  {
    var text := TrimSpace(WithoutPrefix(WithoutPrefix(raw, '\U{A5}'), '\U{FFE5}'));
    if text == "" {
      return Some(0);
    }
    r := ParseSigned(text);
  }

  method ParseSigned(text: string) returns (r: Option<int>)
    requires text != ""
    ensures r == BatchSigned(text)
  {
    var sign, unsigned := 1, text;
    if unsigned[0] == '-' {
      sign, unsigned := -1, unsigned[1..];
    } else {
      unsigned := WithoutPrefix(unsigned, '+');
    }
    var sum := ParseParts(unsigned);
    if sum.None? {
      return None;
    }
    r := Some(if sign == -1 then Wrap(-sum.value) else sum.value);
  }

  method ParseParts(unsigned: string) returns (r: Option<int>)
    ensures r == BatchUnsigned(unsigned)
  {
    var dot := Dot(unsigned, 0);
    var behind := Behind(unsigned);
    if dot < |unsigned| && Dot(behind, 0) < |behind| {
      return None;
    }
    var yuan := ParseInt(TrimSpace(Before(unsigned)));
    if yuan.None? {
      return None;
    }
    var sum := Wrap(yuan.value * 100);
    if dot == |unsigned| {
      return Some(sum);
    }
    r := ParseFraction(sum, TrimSpace(behind));
  }

  method ParseFraction(sum: int, fraction: string) returns (r: Option<int>)
    ensures r == AddCents(sum, fraction)
  {
    if |fraction| > 2 {
      return None;
    }
    var padded := PadFraction(fraction);
    var cents := ParseInt(padded);
    r := if cents.None? then None else Some(Wrap(sum + cents.value));
  }

  /** Zeros are added until there are two digits. */
  method PadFraction(f: string) returns (fraction: string)
    requires |f| <= 2
    ensures fraction == Padded(f)
  {
    fraction := f;
    while |fraction| < 2
      invariant |fraction| <= 2 && Padded(fraction) == Padded(f)
      decreases 2 - |fraction|
    {
      fraction := fraction + "0";
    }
  }

  // ---- agreement --------------------------------------------------------------------------------------------

  /** What the integer parser accepts: a sign at most, then digits. */
  lemma ParsedShape(s: string)
    requires ParseInt(s).Some?
    ensures s != "" && (IsDigit(s[0]) || ((s[0] == '+' || s[0] == '-') && |s| > 1))
    ensures forall k :: 0 < k < |s| ==> IsDigit(s[k])
  {
    var body := if s[0] == '+' || s[0] == '-' then s[1..] else s;
    assert forall k :: 0 < k < |s| ==> s[k] == body[if body == s then k else k - 1];
  }

  lemma ParsedIsTrimmed(s: string)
    requires ParseInt(s).Some?
    ensures TrimSpace(s) == s
  {
    ParsedShape(s);
    assert !IsSpace(s[0]) && !IsSpace(s[|s| - 1]);
    TrimmedStays(s);
  }

  /** A number in front keeps a text from starting with a currency sign. */
  lemma NoCurrency(raw: string)
    requires TrimSpace(raw) != "" && TrimSpace(raw)[0] != '\U{A5}' && TrimSpace(raw)[0] != '\U{FFE5}'
    ensures WithoutPrefix(WithoutPrefix(raw, '\U{A5}'), '\U{FFE5}') == raw
  {
    var i, j := TrimSpaceCutsEndsOnly(raw);
    assert !IsSpace(raw[0]) ==> i == 0 && raw[0] == TrimSpace(raw)[0];
  }

  lemma NoFraction()
    ensures ParseInt("00") == Some(0)
  {
    assert "00"[..1] == "0" && "0"[..0] == "";
    assert Value("0") == 0;
  }

  lemma OneDigitPadded(f: string)
    requires |f| == 1 && ParseInt(f).Some?
    ensures ParseInt(f + "0") == Some(ParseInt(f).value * 10)
  {
    ParsedShape(f);
    OneDigit(f);
    assert (f + "0")[..1] == f;
  }

  lemma FractionAgrees(f: string)
    requires |f| <= 2 && FractionOf(f).Some?
    ensures TrimSpace(f) == f
    ensures ParseInt(Padded(f)) == FractionOf(f)
    ensures Dot(f, 0) == |f|
    ensures 0 <= FractionOf(f).value < 100
  {
    hide TrimSpace, ParseInt, Value;
    if f == "" {
      TrimmedStays(f);
      NoFraction();
    } else {
      ParsedIsTrimmed(f);
      ParsedShape(f);
      TwoDigits(f);
      if |f| == 1 {
        OneDigitPadded(f);
      }
    }
  }

  lemma OneDigit(s: string)
    requires |s| == 1 && Digits(s)
    ensures Value(s) < 10
  {
    assert s[..0] == "";
  }

  lemma TwoDigits(f: string)
    requires 1 <= |f| <= 2 && ParseInt(f).Some? && ParseInt(f).value >= 0
    ensures ParseInt(f).value < if |f| == 1 then 10 else 100
  {
    if |f| == 1 {
      OneDigit(f);
    } else if Digits(f) {
      OneDigit(f[..1]);
    } else {
      OneDigit(f[1..]);
    }
  }

  /** What the price reader has found when it accepts. */
  lemma AcceptedParts(raw: string)
    requires ParseYuan(raw).Some?
    ensures var s := TrimSpace(raw);
            && s != "" && Before(s) != "" && ParseInt(Before(s)).Some? && ParseInt(Before(s)).value >= 0
            && |Behind(s)| <= 2 && FractionOf(Behind(s)).Some?
            && ParseYuan(raw).value == Wrap(Wrap(ParseInt(Before(s)).value * 100) + FractionOf(Behind(s)).value)
            && 0 < ParseYuan(raw).value <= MAX_CENTS
  {
    hide TrimSpace, ParseInt, FractionOf, Dot, Wrap;
  }

  /** Whenever the price reader accepts a text, the batch reader returns the same cents exactly when
      the text does not start with a minus sign. */
  lemma ReadersAgreeExactly(raw: string)
    requires ParseYuan(raw).Some?
    ensures TrimSpace(raw) != ""
    ensures ParseBatch(raw) == ParseYuan(raw) <==> TrimSpace(raw)[0] != '-'
  {
    hide TrimSpace, ParseYuan, ParseInt, FractionOf, Dot, Wrap, BatchUnsigned, Before, Behind;
    var s := TrimSpace(raw);
    AcceptedParts(raw);
    StartsWithNumber(s);
    NoCurrency(raw);
    if s[0] == '-' {
      UnsignedAgrees(s, s[1..]);
      NegativeDiffers(ParseYuan(raw).value);
    } else {
      UnsignedAgrees(s, WithoutPrefix(s, '+'));
    }
  }

  lemma NegativeDiffers(cents: int)
    requires 0 < cents <= MAX_CENTS
    ensures Wrap(-cents) == -cents != cents
  {
  }

  lemma StartsWithNumber(s: string)
    requires Before(s) != "" && ParseInt(Before(s)).Some?
    ensures s != "" && s[0] == Before(s)[0] && (IsDigit(s[0]) || s[0] == '+' || s[0] == '-')
  {
    ParsedShape(Before(s));
  }

  /** Behind the sign the batch reader finds the same two numbers. */
  lemma UnsignedAgrees(s: string, u: string)
    requires Before(s) != "" && ParseInt(Before(s)).Some? && ParseInt(Before(s)).value >= 0
    requires |Behind(s)| <= 2 && FractionOf(Behind(s)).Some?
    requires u == if s[0] == '-' || s[0] == '+' then s[1..] else s
    ensures BatchUnsigned(u) == Some(Wrap(Wrap(ParseInt(Before(s)).value * 100) + FractionOf(Behind(s)).value))
  {
    hide ParseInt, FractionOf, TrimSpace, Wrap, Dot;
    BodyParses(s, u);
    ParsedIsTrimmed(Before(u));
    FractionAgrees(Behind(s));
    if Dot(u, 0) == |u| {
      NothingBehind(s);
      WrapTwice(ParseInt(Before(s)).value * 100);
    }
  }

  lemma NothingBehind(s: string)
    requires Dot(s, 0) == |s|
    ensures FractionOf(Behind(s)) == Some(0)
  {
  }

  lemma WrapTwice(x: int)
    ensures Wrap(Wrap(x) + 0) == Wrap(x)
  {
  }

  lemma DotShifts(s: string, u: string, i: nat)
    requires s != "" && s[0] != '.' && u == s[1..] && i <= |u|
    ensures Dot(s, i + 1) == Dot(u, i) + 1
    decreases |u| - i
  {
    if i < |u| && u[i] != '.' {
      DotShifts(s, u, i + 1);
    }
  }

  lemma BodyParses(s: string, u: string)
    requires Before(s) != "" && ParseInt(Before(s)).Some? && ParseInt(Before(s)).value >= 0
    requires u == if s[0] == '-' || s[0] == '+' then s[1..] else s
    ensures ParseInt(Before(u)) == ParseInt(Before(s)) && Behind(u) == Behind(s)
    ensures Dot(u, 0) == |u| <==> Dot(s, 0) == |s|
  {
    hide ParseInt;
    if s[0] == '-' || s[0] == '+' {
      DotShifts(s, u, 0);
      assert Before(s)[1..] == Before(u);
      SignDropped(Before(s));
    }
  }

  lemma SignDropped(n: string)
    requires n != "" && (n[0] == '-' || n[0] == '+') && ParseInt(n).Some? && ParseInt(n).value >= 0
    ensures ParseInt(n[1..]) == ParseInt(n)
  {
    assert IsDigit(n[1..][0]);
  }

  /** The price "-0.5" is such a text: 50 cents for an order, minus 50 for a batch. */
  lemma MinusZeroDisagrees()
    ensures ParseYuan("-0.5") == Some(50) && ParseBatch("-0.5") == Some(-50)
  {
    hide TrimSpace, ParseYuan, ParseBatch, ParseInt;
    var s := "-0.5";
    TrimmedStays(s);
    MinusHalfParts(s);
    HalfParses();
    HalfIsFifty(s);
    MinusHalf(s);
  }

  lemma MinusHalfParts(s: string)
    requires s == "-0.5"
    ensures Before(s) == "-0" && Behind(s) == "5"
  {
    assert Dot(s, 0) == Dot(s, 1) == Dot(s, 2) == 2;
  }

  lemma HalfParses()
    ensures ParseInt("-0") == Some(0) && ParseInt("5") == Some(5)
  {
    assert "-0"[1..] == "0" && "0"[..0] == "" && "5"[..0] == "";
    assert Value("0") == 0 && Value("5") == 5;
  }

  lemma HalfIsFifty(s: string)
    requires TrimSpace(s) == s != "" && Before(s) == "-0" && Behind(s) == "5"
    requires ParseInt("-0") == Some(0) && ParseInt("5") == Some(5)
    ensures ParseYuan(s) == Some(50)
  {
    hide ParseInt, Value, TrimSpace, Dot, Before, Behind;
  }

  lemma MinusHalf(s: string)
    requires TrimSpace(s) == s == "-0.5" && Before(s) == "-0" && Behind(s) == "5"
    requires ParseInt("-0") == Some(0) && ParseInt("5") == Some(5)
    ensures ParseBatch(s) == Some(-50)
  {
    hide ParseInt, Value, TrimSpace, Dot, Before, Behind, BatchUnsigned;
    NoCurrency(s);
    UnsignedAgrees(s, s[1..]);
  }

  /** A currency sign in front changes nothing for the batch reader, and a minus sign turns the amount round. */
  lemma SignsInFront(s: string)
    requires s != "" && s[0] != '\U{A5}' && s[0] != '\U{FFE5}'
    ensures ParseBatch(['\U{A5}'] + s) == ParseBatch(s) == ParseBatch(['\U{FFE5}'] + s)
    ensures s[0] != '-' && s[0] != '+' ==>
              && (BatchSigned(s).None? <==> BatchSigned("-" + s).None?)
              && (BatchSigned(s).Some? ==> BatchSigned("-" + s) == Some(Wrap(-BatchSigned(s).value)))
              && BatchSigned("+" + s) == BatchSigned(s)
  {
    hide BatchUnsigned, Wrap, TrimSpace;
    assert (['\U{A5}'] + s)[1..] == s && (['\U{FFE5}'] + s)[1..] == s;
    assert ("-" + s)[1..] == s && ("+" + s)[1..] == s;
  }

  // ---- the value of an accepted price -----------------------------------------------------------------------

  /** One hundred times the decimal number, without the limits of int64. */
  function Cents(s: string): int
    requires ParseInt(Before(s)).Some? && FractionOf(Behind(s)).Some?
  {
    ParseInt(Before(s)).value * 100 + FractionOf(Behind(s)).value
  }

  lemma WrapFits(whole: int, fraction: int)
    requires 0 <= whole < TWO_TO_63 && 0 <= fraction < 100
    ensures whole <= 1_000_000 ==> Wrap(Wrap(whole * 100) + fraction) == whole * 100 + fraction
    ensures Wrap(Wrap(whole * 100) + fraction) == whole * 100 + fraction <= MAX_CENTS ==> whole <= 1_000_000
  {
  }

  lemma ParsedRange(s: string)
    requires ParseInt(s).Some? && ParseInt(s).value >= 0
    ensures ParseInt(s).value < TWO_TO_63
  {
  }

  /** An accepted price is exactly one hundred times the written number if and only if its whole part
      is at most a million; a larger one got through because the product lost its high bits. */
  lemma AcceptedPriceIsExactly(raw: string)
    requires ParseYuan(raw).Some?
    ensures var s := TrimSpace(raw);
            && ParseInt(Before(s)).Some? && FractionOf(Behind(s)).Some?
            && (ParseYuan(raw).value == Cents(s) <==> ParseInt(Before(s)).value <= 1_000_000)
  {
    hide ParseYuan, TrimSpace, ParseInt, FractionOf, Dot, Wrap, Before, Behind;
    var s := TrimSpace(raw);
    AcceptedParts(raw);
    FractionAgrees(Behind(s));
    ParsedRange(Before(s));
    WrapFits(ParseInt(Before(s)).value, FractionOf(Behind(s)).value);
  }

  /** Such a price: the whole number 184467440737095517 is taken for 84 cents. */
  lemma HugePriceIsAccepted(raw: string)
    requires var s := TrimSpace(raw);
             s != "" && Digits(s) && Before(s) == s && Value(s) == 184467440737095517
    ensures ParseYuan(raw) == Some(84)
  {
    hide TrimSpace, Value, Dot;
    var s := TrimSpace(raw);
    DigitsParse(s);
    assert Behind(s) == "";
    assert Wrap(Wrap(184467440737095517 * 100) + 0) == 84;
  }

  /** Every price from one cent to a million, written with digits and at most two decimals, is
      accepted with its exact value. */
  lemma SmallPricesAreRead(raw: string)
    requires var s := TrimSpace(raw);
             && s != "" && Before(s) != "" && Digits(Before(s)) && Value(Before(s)) <= 1_000_000
             && |Behind(s)| <= 2 && Digits(Behind(s))
             && 0 < Value(Before(s)) * 100 + (if |Behind(s)| == 1 then Value(Behind(s)) * 10
                 else Value(Behind(s))) <= MAX_CENTS
    ensures var s := TrimSpace(raw);
            ParseYuan(raw) == Some(Value(Before(s)) * 100 + if |Behind(s)| == 1 then Value(Behind(s)) * 10
                else Value(Behind(s)))
  {
    hide TrimSpace, Dot, Before, Behind, Wrap;
    var s := TrimSpace(raw);
    DigitsParse(Before(s));
    var f := Behind(s);
    if f != "" {
      SmallValue(f);
      DigitsParse(f);
    }
    WrapFits(Value(Before(s)), if |f| == 1 then Value(f) * 10 else Value(f));
  }

  lemma DigitsParse(s: string)
    requires s != "" && Digits(s) && Value(s) < TWO_TO_63
    ensures ParseInt(s) == Some(Value(s))
  {
    assert IsDigit(s[0]);
  }

  lemma SmallValue(f: string)
    requires 1 <= |f| <= 2 && Digits(f)
    ensures Value(f) < if |f| == 1 then 10 else 100
  {
    OneDigit(f[..1]);
    assert |f| == 1 ==> f[..1] == f;
  }
}
