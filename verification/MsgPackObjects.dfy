/**
  What a decoded map is as an object: which properties it has, and what they are called, without the
  functions of the decoder.
 */
module MsgPackObjects {
  import opened MsgPackText
  import opened MsgPackReader
  import opened MsgPackFormat
  import opened MsgPackRoundTrip
  import opened Wrappers

  /** The code units of an ASCII text. */
  function Units(s: string): (r: seq<CodeUnit>)
    requires forall k :: 0 <= k < |s| ==> s[k] < '\U{80}'
    ensures |r| == |s| && forall k :: 0 <= k < |r| ==> r[k] == s[k] as int
  {
    seq(|s|, k requires 0 <= k < |s| => s[k] as int)
  }

  // ---- the names of values that are no strings ----------------------------------------------------------------

  function DigitsValue(s: seq<CodeUnit>): int {
    if s == [] then 0 else 10 * DigitsValue(s[..|s| - 1]) + (s[|s| - 1] as int - 0x30)
  }

  predicate AreDigits(s: seq<CodeUnit>) {
    s != [] && (s[0] == 0x30 ==> |s| == 1) && forall k :: 0 <= k < |s| ==> 0x30 <= s[k] <= 0x39
  }

  /** The text is this number in decimal, with a sign in front of a negative one and no needless zero. */
  predicate Spells(s: seq<CodeUnit>, n: int) {
    if s != [] && s[0] == 0x2D then AreDigits(s[1..]) && n == -DigitsValue(s[1..]) < 0
    else AreDigits(s) && n == DigitsValue(s)
  }

  lemma {:induction false} DigitsReadBack(n: nat)
    ensures AreDigits(Digits(n)) && DigitsValue(Digits(n)) == n
    ensures Digits(n)[0] == 0x30 ==> n == 0
  {
    var front, last := if n < 10 then [] else Digits(n / 10), 0x30 + n % 10;
    if n >= 10 {
      DigitsReadBack(n / 10);
    }
    assert Digits(n) == front + [last] && Digits(n)[..|front|] == front;
  }

  lemma DecimalReadsBack(n: int)
    ensures Spells(Decimal(n), n)
  {
    DigitsReadBack(if n < 0 then -n else n);
    if n < 0 {
      assert Decimal(n)[1..] == Digits(-n);
    }
  }

  /** Every value that may be a key has its own spelling as the name of the property; arrays and maps have
      none, and the message is refused. */
  lemma NamesAreSpelled(v: Value)
    ensures PropertyName(v).None? <==> v.Arr? || v.Obj?
    ensures v.Num? ==> Spells(PropertyName(v).value, v.n)
    ensures v.Big? ==> Spells(PropertyName(v).value, v.n)
    ensures v.Str? ==> PropertyName(v).value == v.text
    ensures v.Bool? ==> PropertyName(v).value == if v.b then Units("true") else Units("false")
    ensures v.Null? ==> PropertyName(v).value == Units("null")
    ensures v.Undefined? ==> PropertyName(v).value == Units("undefined")
  {
    match v
    case Num(n) => DecimalReadsBack(n);
    case Big(n) => DecimalReadsBack(n);
    case _ =>
  }

  lemma NumberIsRead(td: TextDecoder, buf: seq<Byte>, pos: nat, f: Form)
    requires (f.Small? || f.Natural? || f.Integer?) && Fits(f) && At(buf, pos, Bytes(f))
    ensures Dec(td, buf, pos) == Got(Meaning(f), pos + |Bytes(f)|) && !IsShortString(buf, pos)
  {
    hide DecItems, DecFields, TextOf, TextEnd, Uint64, BigEndian;
    match f {
      case Small(n) => OneAt(buf, pos, if n < 0 then n + 256 else n);
      case Natural(n, size) =>
        NaturalIsRead(td, buf, pos, n, size);
        AtParts(buf, pos, One(204 + SizeTag(size)), BigEndian(n, size));
        OneAt(buf, pos, 204 + SizeTag(size));
      case Integer(n, size) =>
        IntegerIsRead(td, buf, pos, n, size);
        var x := if n < 0 then n + Power(size) else n;
        AtParts(buf, pos, One(208 + SizeTag(size)), BigEndian(x, size));
        OneAt(buf, pos, 208 + SizeTag(size));
    }
  }

  /** A number that is written as a key, in any form and at any place, is read as its decimal spelling. */
  lemma NumberKeyIsRead(td: TextDecoder, buf: seq<Byte>, pos: nat, f: Form)
    requires (f.Small? || f.Natural? || f.Integer?) && Fits(f) && At(buf, pos, Bytes(f))
    ensures DecKey(td, buf, pos).Got? && DecKey(td, buf, pos).next == pos + |Bytes(f)|
    ensures Spells(DecKey(td, buf, pos).value, f.n)
  {
    NumberIsRead(td, buf, pos, f);
    hide Dec, Bytes, Spells, Decimal;
    NamesAreSpelled(Meaning(f));
  }

  // ---- the fields of an object ----------------------------------------------------------------------------------

  function KeyAt(fs: Fields, i: nat): seq<Scalar>
    requires i < FieldCount(fs)
  {
    if i == 0 then fs.key else KeyAt(fs.rest, i - 1)
  }

  function ValueAt(fs: Fields, i: nat): Form
    requires i < FieldCount(fs)
  {
    if i == 0 then fs.value else ValueAt(fs.rest, i - 1)
  }

  /** The property a key sets is called like the key, but for one name that would set the prototype. */
  predicate Sets(key: seq<Scalar>, name: seq<CodeUnit>) {
    if Utf16Text(key) == Units("__proto__") then name == Units("__proto_") else name == Utf16Text(key)
  }

  /** Field i is the last one that sets the property. */
  predicate SetsLast(fs: Fields, i: nat, name: seq<CodeUnit>) {
    && i < FieldCount(fs) && Sets(KeyAt(fs, i), name)
    && forall j :: i < j < FieldCount(fs) ==> !Sets(KeyAt(fs, j), name)
  }

  lemma SafeNameIsSet(key: seq<Scalar>, name: seq<CodeUnit>)
    ensures Sets(key, name) <==> name == SafeName(Utf16Text(key))
  {
    assert PROTO_TEXT == Units("__proto__") && SAFE_PROTO_TEXT == Units("__proto_");
  }

  lemma RestSetsLast(fs: Fields, i: nat, name: seq<CodeUnit>)
    requires fs.Fields?
    ensures SetsLast(fs.rest, i, name) <==> SetsLast(fs, i + 1, name)
  {
    assert forall j :: 0 <= j < FieldCount(fs.rest) ==> KeyAt(fs, j + 1) == KeyAt(fs.rest, j);
    if SetsLast(fs.rest, i, name) {
      forall j | i + 1 < j < FieldCount(fs)
        ensures !Sets(KeyAt(fs, j), name)
      {
        assert KeyAt(fs, j) == KeyAt(fs.rest, j - 1);
      }
    }
  }

  lemma {:induction false} PutSets(m: map<seq<CodeUnit>, Value>, fs: Fields, name: seq<CodeUnit>)
    ensures name in Put(m, fs) <==> name in m || exists i: nat :: SetsLast(fs, i, name)
    ensures forall i: nat :: SetsLast(fs, i, name) ==> name in Put(m, fs) && Put(m, fs)[name] == Meaning(ValueAt(fs, i))
    ensures name in m && (forall i: nat :: !SetsLast(fs, i, name)) ==> Put(m, fs)[name] == m[name]
    decreases fs
  {
    hide Meaning, SafeName, Sets, Utf16Text;
    if fs.Fields? {
      var n := m[SafeName(Utf16Text(fs.key)) := Meaning(fs.value)];
      PutSets(n, fs.rest, name);
      SafeNameIsSet(fs.key, name);
      forall i: nat
        ensures SetsLast(fs.rest, i, name) <==> SetsLast(fs, i + 1, name)
      {
        RestSetsLast(fs, i, name);
      }
      FirstIsLast(fs, name);
      LastOf(fs.rest, name);
      LastOf(fs, name);
      forall i: nat | SetsLast(fs, i, name) && i > 0
        ensures SetsLast(fs.rest, i - 1, name)
      {
        RestSetsLast(fs, i - 1, name);
      }
    }
  }

  /** Some field sets the property. */
  predicate IsSet(fs: Fields, name: seq<CodeUnit>) {
    exists j :: 0 <= j < FieldCount(fs) && Sets(KeyAt(fs, j), name)
  }

  lemma FirstIsLast(fs: Fields, name: seq<CodeUnit>)
    requires fs.Fields?
    ensures SetsLast(fs, 0, name) <==> Sets(fs.key, name) && !IsSet(fs.rest, name)
    ensures IsSet(fs, name) <==> Sets(fs.key, name) || IsSet(fs.rest, name)
  {
    assert KeyAt(fs, 0) == fs.key;
    assert forall j :: 0 <= j < FieldCount(fs.rest) ==> KeyAt(fs, j + 1) == KeyAt(fs.rest, j);
    assert forall j :: 0 < j < FieldCount(fs) ==> KeyAt(fs, j) == KeyAt(fs.rest, j - 1);
    if IsSet(fs.rest, name) {
      var j :| 0 <= j < FieldCount(fs.rest) && Sets(KeyAt(fs.rest, j), name);
      assert Sets(KeyAt(fs, j + 1), name);
    }
  }

  /** Of the fields that set a property one is the last. */
  lemma {:induction false} LastOf(fs: Fields, name: seq<CodeUnit>)
    ensures (exists i: nat :: SetsLast(fs, i, name)) <==> IsSet(fs, name)
    decreases fs
  {
    if fs.Fields? {
      LastOf(fs.rest, name);
      FirstIsLast(fs, name);
      if i: nat :| SetsLast(fs.rest, i, name) {
        RestSetsLast(fs, i, name);
      } else if Sets(fs.key, name) {
        assert SetsLast(fs, 0, name);
      }
    }
  }

  /** A map, at whatever depth, means an object that has exactly the properties its keys set, each with the
      value of the last field that sets it. */
  lemma MapMeansObject(kind: MapKind, fs: Fields, name: seq<CodeUnit>)
    ensures var o := Meaning(Map(kind, fs));
            && o.Obj? && (name in o.fields <==> IsSet(fs, name))
            && (forall i: nat :: SetsLast(fs, i, name) ==>
                  name in o.fields && o.fields[name] == Meaning(ValueAt(fs, i)))
  {
    PutSets(map[], fs, name);
    LastOf(fs, name);
  }

  /** The message for a map is decoded to that object. */
  lemma ObjectHasItsFields(td: TextDecoder, kind: MapKind, fs: Fields, name: seq<CodeUnit>)
    requires DecodesUtf8(td) && Fits(Map(kind, fs))
    ensures var o := DecMessage(td, Bytes(Map(kind, fs)));
            && o.Got? && o.next == |Bytes(Map(kind, fs))| && o.value.Obj?
            && (name in o.value.fields <==> IsSet(fs, name))
            && (forall i: nat :: SetsLast(fs, i, name) ==>
                  name in o.value.fields && o.value.fields[name] == Meaning(ValueAt(fs, i)))
  {
    hide Dec, DecMessage, Bytes, Meaning;
    MessageIsRead(td, Map(kind, fs), []);
    MapMeansObject(kind, fs, name);
  }

  function ItemAt(fs: Forms, i: nat): Form
    requires i < FormCount(fs)
  {
    if i == 0 then fs.first else ItemAt(fs.rest, i - 1)
  }

  /** An array, at whatever depth, means its items in order. */
  lemma {:induction false} ArrayMeansItems(items: Forms, i: nat)
    requires i < FormCount(items)
    ensures Meaning(Array(items)).Arr? && |Meaning(Array(items)).items| == FormCount(items)
    ensures Meaning(Array(items)).items[i] == Meaning(ItemAt(items, i))
    decreases items
  {
    if i > 0 {
      ArrayMeansItems(items.rest, i - 1);
    } else if items.rest.Forms? {
      ArrayMeansItems(items.rest, 0);
    } else {
      assert Meanings(items.rest) == [];
    }
  }

  /** Different keys set different properties, but for the one name that gives way. */
  lemma KeysStayApart(a: seq<Scalar>, b: seq<Scalar>, name: seq<CodeUnit>)
    requires Sets(a, name) && Sets(b, name) && name != Units("__proto_")
    ensures a == b
  {
    Utf16KeepsTextsApart(a, b);
  }

  /** The message for {"a": 1, "b": 2}. */
  lemma TwoFields(td: TextDecoder)
    requires DecodesUtf8(td)
    ensures var fs := Fields.Fields([0x61], Small(1), Fields.Fields([0x62], Small(2), NoField));
            Fits(Map(FixMap, fs))
            && DecMessage(td, Bytes(Map(FixMap, fs))).Got?
            && DecMessage(td, Bytes(Map(FixMap, fs))).value == Obj(map[Units("a") := Num(1), Units("b") := Num(2)])
  {
    var fs := Fields.Fields([0x61], Small(1), Fields.Fields([0x62], Small(2), NoField));
    assert Utf8Text([0x61]) == Utf8(0x61) + Utf8Text([]) && Utf8Text([0x62]) == Utf8(0x62) + Utf8Text([]);
    assert Utf16Text([0x61]) == Units("a") && Utf16Text([0x62]) == Units("b");
    MessageIsRead(td, Map(FixMap, fs), []);
  }
}
