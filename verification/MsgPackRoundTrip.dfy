/**
  Encodings in the MessagePack format ("Formats" in the MessagePack specification) and what the
  decoder makes of them: every encoded value is read back, wherever it stands in a buffer.
 */
module MsgPackRoundTrip {
  import opened MsgPackText
  import opened MsgPackReader
  import opened MsgPackKeys
  import opened MsgPackFormat

  datatype MapKind = FixMap | Map16 | Map32

  /** A value together with the form it is written in. */
  datatype Form =
    | Nil
    | Boolean(b: bool)
    | Small(n: int)                      // positive or negative fixint
    | Natural(n: int, size: nat)         // uint 8 to 64; `size` in bytes
    | Integer(n: int, size: nat)         // int 8 to 64
    | Text(t: seq<Scalar>, short: bool)  // fixstr or str 16
    | Array(items: Forms)                // fixarray
    | Map(kind: MapKind, fields: Fields)

  datatype Forms = NoForm | Forms(first: Form, rest: Forms)

  datatype Fields = NoField | Fields(key: seq<Scalar>, value: Form, rest: Fields)

  function FormCount(fs: Forms): nat {
    if fs.NoForm? then 0 else 1 + FormCount(fs.rest)
  }

  function FieldCount(fs: Fields): nat {
    if fs.NoField? then 0 else 1 + FieldCount(fs.rest)
  }

  function Power(size: nat): nat {
    if size == 1 then 0x100 else if size == 2 then 0x1_0000 else if size == 4 then 0x1_0000_0000
        else 0x1_0000_0000_0000_0000
  }

  predicate IsSize(size: nat) {
    size == 1 || size == 2 || size == 4 || size == 8
  }

  function Limit(kind: MapKind): nat {
    match kind case FixMap => 0x10 case Map16 => 0x1_0000 case Map32 => 0x1_0000_0000
  }

  /** The form can hold the value. */
  predicate Fits(f: Form) {
    match f
    case Nil => true
    case Boolean(_) => true
    case Small(n) => -32 <= n < 128
    case Natural(n, size) => IsSize(size) && 0 <= n < Power(size)
    case Integer(n, size) => IsSize(size) && -(Power(size) / 2) <= n < Power(size) / 2
    case Text(t, short) => |Utf8Text(t)| < if short then 32 else 0x1_0000
    case Array(items) => FormCount(items) < 16 && AllFit(items)
    case Map(kind, fields) => FieldCount(fields) < Limit(kind) && FieldsFit(fields)
  }

  predicate AllFit(fs: Forms) {
    fs.NoForm? || (Fits(fs.first) && AllFit(fs.rest))
  }

  predicate FieldsFit(fs: Fields) {
    fs.NoField? || (|Utf8Text(fs.key)| <= MAX_KEY && Fits(fs.value) && FieldsFit(fs.rest))
  }

  // ---- bytes ---------------------------------------------------------------------------------------------------

  function One(n: nat): seq<Byte>
    requires n < 0x100
  {
    var b: Byte := n;
    [b]
  }

  function Two(n: nat): seq<Byte>
    requires n < 0x1_0000
  {
    One(n / 0x100) + One(n % 0x100)
  }

  function Four(n: nat): seq<Byte>
    requires n < 0x1_0000_0000
  {
    Two(n / 0x1_0000) + Two(n % 0x1_0000)
  }

  function Eight(n: nat): seq<Byte>
    requires n < 0x1_0000_0000_0000_0000
  {
    Four(n / 0x1_0000_0000) + Four(n % 0x1_0000_0000)
  }

  function BigEndian(n: nat, size: nat): seq<Byte>
    requires IsSize(size) && n < Power(size)
  {
    if size == 1 then One(n) else if size == 2 then Two(n) else if size == 4 then Four(n) else Eight(n)
  }

  /** The offset of a size among the four tags of a number form. */
  function SizeTag(size: nat): nat {
    if size == 1 then 0 else if size == 2 then 1 else if size == 4 then 2 else 3
  }

  function ShortString(t: seq<Scalar>): seq<Byte>
    requires |Utf8Text(t)| <= MAX_KEY
  {
    One(0xA0 + |Utf8Text(t)|) + Utf8Text(t)
  }

  function MapTag(kind: MapKind, count: nat): seq<Byte>
    requires count < Limit(kind)
  {
    match kind
    case FixMap => One(0x80 + count)
    case Map16 => One(222) + Two(count)
    case Map32 => One(223) + Four(count)
  }

  function Bytes(f: Form): seq<Byte>
    requires Fits(f)
  {
    match f
    case Nil => One(192)
    case Boolean(b) => One(if b then 195 else 194)
    case Small(n) => One(if n < 0 then n + 256 else n)
    case Natural(n, size) => One(204 + SizeTag(size)) + BigEndian(n, size)
    case Integer(n, size) => One(208 + SizeTag(size)) + BigEndian(if n < 0 then n + Power(size) else n, size)
    case Text(t, short) => if short then ShortString(t) else One(218) + Two(|Utf8Text(t)|) + Utf8Text(t)
    case Array(items) => One(0x90 + FormCount(items)) + AllBytes(items)
    case Map(kind, fields) => MapTag(kind, FieldCount(fields)) + FieldBytes(fields)
  }

  function AllBytes(fs: Forms): seq<Byte>
    requires AllFit(fs)
  {
    if fs.NoForm? then [] else Bytes(fs.first) + AllBytes(fs.rest)
  }

  function FieldBytes(fs: Fields): seq<Byte>
    requires FieldsFit(fs)
  {
    if fs.NoField? then [] else ShortString(fs.key) + Bytes(fs.value) + FieldBytes(fs.rest)
  }

  // ---- meaning -------------------------------------------------------------------------------------------------

  /** 64-bit numbers are read as big integers, whatever their value. */
  function Meaning(f: Form): Value {
    match f
    case Nil => Null
    case Boolean(b) => Bool(b)
    case Small(n) => Num(n)
    case Natural(n, size) => if size == 8 then Big(n) else Num(n)
    case Integer(n, size) => if size == 8 then Big(n) else Num(n)
    case Text(t, _) => Str(TextRead(t))
    case Array(items) => Arr(Meanings(items))
    case Map(_, fields) => Obj(Put(map[], fields))
  }

  function Meanings(fs: Forms): seq<Value> {
    if fs.NoForm? then [] else [Meaning(fs.first)] + Meanings(fs.rest)
  }

  /** The object after the fields have been set one by one. */
  function Put(m: map<seq<CodeUnit>, Value>, fs: Fields): map<seq<CodeUnit>, Value>
    decreases fs
  {
    if fs.NoField? then m else Put(m[SafeName(Utf16Text(fs.key)) := Meaning(fs.value)], fs.rest)
  }

  // ---- reading the bytes back -------------------------------------------------------------------------------------

  lemma OneAt(buf: seq<Byte>, pos: nat, n: nat)
    requires n < 0x100 && At(buf, pos, One(n))
    ensures pos < |buf| && buf[pos] == n == ByteAt(buf, pos)
  {
    AtByte(buf, pos, One(n), 0);
  }

  lemma TwoAt(buf: seq<Byte>, pos: nat, n: nat)
    requires n < 0x1_0000 && At(buf, pos, Two(n))
    ensures pos + 2 <= |buf| && Uint16(buf, pos) == n
  {
    AtParts(buf, pos, One(n / 0x100), One(n % 0x100));
    OneAt(buf, pos, n / 0x100);
    OneAt(buf, pos + 1, n % 0x100);
  }

  lemma FourAt(buf: seq<Byte>, pos: nat, n: nat)
    requires n < 0x1_0000_0000 && At(buf, pos, Four(n))
    ensures pos + 4 <= |buf| && Uint32(buf, pos) == n
  {
    var high, low := n / 0x1_0000, n % 0x1_0000;
    AtParts(buf, pos, Two(high), Two(low));
    TwoAt(buf, pos, high);
    TwoAt(buf, pos + 2, low);
  }

  lemma EightAt(buf: seq<Byte>, pos: nat, n: nat)
    requires n < 0x1_0000_0000_0000_0000 && At(buf, pos, Eight(n))
    ensures pos + 8 <= |buf| && Uint64(buf, pos) == n
  {
    var high, low := n / 0x1_0000_0000, n % 0x1_0000_0000;
    AtParts(buf, pos, Four(high), Four(low));
    FourAt(buf, pos, high);
    FourAt(buf, pos + 4, low);
  }

  lemma NaturalIsRead(td: TextDecoder, buf: seq<Byte>, pos: nat, n: int, size: nat)
    requires Fits(Natural(n, size)) && At(buf, pos, Bytes(Natural(n, size)))
    ensures Dec(td, buf, pos) == Got(Meaning(Natural(n, size)), pos + |Bytes(Natural(n, size))|)
  {
    hide DecItems, DecFields, DecKey, TextOf, TextEnd, Uint16, Uint32, Uint64;
    AtParts(buf, pos, One(204 + SizeTag(size)), BigEndian(n, size));
    OneAt(buf, pos, 204 + SizeTag(size));
    if size == 1 {
      OneAt(buf, pos + 1, n);
    } else if size == 2 {
      TwoAt(buf, pos + 1, n);
    } else if size == 4 {
      FourAt(buf, pos + 1, n);
    } else {
      EightAt(buf, pos + 1, n);
    }
  }

  lemma IntegerIsRead(td: TextDecoder, buf: seq<Byte>, pos: nat, n: int, size: nat)
    requires Fits(Integer(n, size)) && At(buf, pos, Bytes(Integer(n, size)))
    ensures Dec(td, buf, pos) == Got(Meaning(Integer(n, size)), pos + |Bytes(Integer(n, size))|)
  {
    var x := if n < 0 then n + Power(size) else n;
    hide DecItems, DecFields, DecKey, TextOf, TextEnd, Uint16, Uint32, Uint64;
    AtParts(buf, pos, One(208 + SizeTag(size)), BigEndian(x, size));
    OneAt(buf, pos, 208 + SizeTag(size));
    if size == 1 {
      OneAt(buf, pos + 1, x);
    } else if size == 2 {
      TwoAt(buf, pos + 1, x);
    } else if size == 4 {
      FourAt(buf, pos + 1, x);
    } else {
      EightAt(buf, pos + 1, x);
    }
  }

  lemma ShortTextIsRead(td: TextDecoder, buf: seq<Byte>, pos: nat, t: seq<Scalar>)
    requires DecodesUtf8(td) && |Utf8Text(t)| < 32 && At(buf, pos, ShortString(t))
    ensures Dec(td, buf, pos) == Got(Str(TextRead(t)), pos + |ShortString(t)|)
  {
    hide DecItems, DecFields, DecKey, TextOf, TextEnd, TextRead, Utf8Text, Uint16, Uint32, Uint64;
    AtParts(buf, pos, One(0xA0 + |Utf8Text(t)|), Utf8Text(t));
    OneAt(buf, pos, 0xA0 + |Utf8Text(t)|);
    StringIsRead(td, buf, pos + 1, t);
  }

  lemma LongTextIsRead(td: TextDecoder, buf: seq<Byte>, pos: nat, t: seq<Scalar>)
    requires DecodesUtf8(td) && |Utf8Text(t)| < 0x1_0000 && At(buf, pos, Bytes(Text(t, false)))
    ensures Dec(td, buf, pos) == Got(Str(TextRead(t)), pos + |Bytes(Text(t, false))|)
  {
    hide DecItems, DecFields, DecKey, TextOf, TextEnd, TextRead, Utf8Text, Uint16, Uint32, Uint64;
    AtParts(buf, pos, One(218) + Two(|Utf8Text(t)|), Utf8Text(t));
    AtParts(buf, pos, One(218), Two(|Utf8Text(t)|));
    OneAt(buf, pos, 218);
    TwoAt(buf, pos + 1, |Utf8Text(t)|);
    StringIsRead(td, buf, pos + 3, t);
  }

  /** A key within its bounds is read back with and without the cache. */
  lemma KeyIsRead(td: TextDecoder, buf: seq<Byte>, pos: nat, t: seq<Scalar>)
    requires |Utf8Text(t)| <= MAX_KEY && At(buf, pos, ShortString(t))
    ensures DecKey(td, buf, pos) == Got(Utf16Text(t), pos + |ShortString(t)|)
  {
    hide Dec, LoopUnits, LoopEnd, Utf8Text, Utf16Text;
    var n := |Utf8Text(t)|;
    AtParts(buf, pos, One(0xA0 + n), Utf8Text(t));
    OneAt(buf, pos, 0xA0 + n);
    LoopReadsUtf8(buf, pos + 1, pos + 1 + n, t);
  }

  lemma MapTagIsRead(buf: seq<Byte>, pos: nat, kind: MapKind, count: nat)
    requires count < Limit(kind) && At(buf, pos, MapTag(kind, count))
    ensures pos < |buf| && HeadOf(buf, pos) == MapHead(count, pos + |MapTag(kind, count)|)
  {
    match kind
    case FixMap => OneAt(buf, pos, 0x80 + count);
    case Map16 =>
      AtParts(buf, pos, One(222), Two(count));
      OneAt(buf, pos, 222);
      TwoAt(buf, pos + 1, count);
    case Map32 =>
      AtParts(buf, pos, One(223), Four(count));
      OneAt(buf, pos, 223);
      FourAt(buf, pos + 1, count);
  }

  /** Every encoded value, at any place in any buffer, is read back, and the cursor ends up exactly
      behind it. */
  lemma {:induction false} ValueIsRead(td: TextDecoder, buf: seq<Byte>, pos: nat, f: Form)
    requires DecodesUtf8(td) && Fits(f) && At(buf, pos, Bytes(f))
    ensures Dec(td, buf, pos) == Got(Meaning(f), pos + |Bytes(f)|)
    decreases f
  {
    hide DecItems, DecFields, DecKey, TextOf, TextEnd, TextRead, Uint16, Uint32, Uint64;
    hide AllBytes, FieldBytes, Meanings, Put, AllFit, FieldsFit, FormCount, FieldCount, BigEndian, Two, Utf8Text;
    match f
    case Nil => OneAt(buf, pos, 192);
    case Boolean(b) => OneAt(buf, pos, if b then 195 else 194);
    case Small(n) => OneAt(buf, pos, if n < 0 then n + 256 else n);
    case Natural(n, size) => NaturalIsRead(td, buf, pos, n, size);
    case Integer(n, size) => IntegerIsRead(td, buf, pos, n, size);
    case Text(t, short) =>
      if short {
        ShortTextIsRead(td, buf, pos, t);
      } else {
        LongTextIsRead(td, buf, pos, t);
      }
    case Array(items) => ArrayIsRead(td, buf, pos, items);
    case Map(kind, fields) => MapIsRead(td, buf, pos, kind, fields);
  }

  lemma {:induction false} ArrayIsRead(td: TextDecoder, buf: seq<Byte>, pos: nat, items: Forms)
    requires DecodesUtf8(td) && Fits(Array(items)) && At(buf, pos, Bytes(Array(items)))
    ensures Dec(td, buf, pos) == Got(Meaning(Array(items)), pos + |Bytes(Array(items))|)
    decreases items, 1
  {
    hide DecPlain, DecItems, DecFields, DecKey, AllFit, FormCount;
    AtParts(buf, pos, One(0x90 + FormCount(items)), AllBytes(items));
    OneAt(buf, pos, 0x90 + FormCount(items));
    ItemsAreRead(td, buf, pos + 1, items, []);
    assert [] + Meanings(items) == Meanings(items);
  }

  lemma {:induction false} MapIsRead(td: TextDecoder, buf: seq<Byte>, pos: nat, kind: MapKind, fields: Fields)
    requires DecodesUtf8(td) && Fits(Map(kind, fields)) && At(buf, pos, Bytes(Map(kind, fields)))
    ensures Dec(td, buf, pos) == Got(Meaning(Map(kind, fields)), pos + |Bytes(Map(kind, fields))|)
    decreases fields, 1
  {
    hide DecPlain, DecItems, DecFields, DecKey, FieldsFit, FieldCount, HeadOf, MapTag;
    var tag := MapTag(kind, FieldCount(fields));
    AtParts(buf, pos, tag, FieldBytes(fields));
    MapTagIsRead(buf, pos, kind, FieldCount(fields));
    FieldsAreRead(td, buf, pos + |tag|, fields, map[]);
  }

  lemma {:induction false} ItemsAreRead(td: TextDecoder, buf: seq<Byte>, pos: nat, fs: Forms, items: seq<Value>)
    requires DecodesUtf8(td) && AllFit(fs) && At(buf, pos, AllBytes(fs))
    ensures DecItems(td, buf, pos, FormCount(fs), items) == Got(Arr(items + Meanings(fs)), pos + |AllBytes(fs)|)
    decreases fs, 0
  {
    hide Dec, DecPlain, HeadOf, DecFields, DecKey, Bytes, Meaning, Fits;
    if fs.NoForm? {
      assert items + Meanings(fs) == items;
    } else {
      AtParts(buf, pos, Bytes(fs.first), AllBytes(fs.rest));
      ValueIsRead(td, buf, pos, fs.first);
      ItemsAreRead(td, buf, pos + |Bytes(fs.first)|, fs.rest, items + [Meaning(fs.first)]);
      assert items + [Meaning(fs.first)] + Meanings(fs.rest) == items + Meanings(fs);
    }
  }

  lemma {:induction false} FieldsAreRead(td: TextDecoder, buf: seq<Byte>, pos: nat, fs: Fields,
        m: map<seq<CodeUnit>, Value>)
    requires DecodesUtf8(td) && FieldsFit(fs) && At(buf, pos, FieldBytes(fs))
    ensures DecFields(td, buf, pos, FieldCount(fs), m) == Got(Obj(Put(m, fs)), pos + |FieldBytes(fs)|)
    decreases fs, 0
  {
    hide Dec, DecPlain, HeadOf, DecItems, DecKey, Bytes, Meaning, Fits, ShortString, Utf16Text, Utf8Text, SafeName, At;
    if fs.Fields? {
      var key, value := ShortString(fs.key), Bytes(fs.value);
      AtParts(buf, pos, key + value, FieldBytes(fs.rest));
      AtParts(buf, pos, key, value);
      KeyIsRead(td, buf, pos, fs.key);
      ValueIsRead(td, buf, pos + |key|, fs.value);
      FieldsAreRead(td, buf, pos + |key| + |value|, fs.rest, m[SafeName(Utf16Text(fs.key)) := Meaning(fs.value)]);
    }
  }

  /** A message that is one encoded value is decoded to it; with bytes behind it, it is refused. */
  lemma MessageIsRead(td: TextDecoder, f: Form, extra: seq<Byte>)
    requires DecodesUtf8(td) && Fits(f)
    ensures DecMessage(td, Bytes(f)) == Got(Meaning(f), |Bytes(f)|)
    ensures extra != [] ==> DecMessage(td, Bytes(f) + extra) == Fails
  {
    ValueIsRead(td, Bytes(f), 0, f);
    ValueIsRead(td, Bytes(f) + extra, 0, f);
  }

  // ---- messages are prefix-free ------------------------------------------------------------------------------------

  lemma {:induction false} LoopIgnoresRest(buf: seq<Byte>, rest: seq<Byte>, pos: nat, end: nat)
    requires LoopEnd(buf, pos, end) <= |buf|
    ensures LoopUnits(buf + rest, pos, end) == LoopUnits(buf, pos, end)
    ensures LoopEnd(buf + rest, pos, end) == LoopEnd(buf, pos, end)
    decreases end - pos
  {
    if pos < end {
      StepIgnoresRest(buf, rest, pos);
      LoopIgnoresRest(buf, rest, LoopStep(buf, pos).next, end);
    }
  }

  lemma StepIgnoresRest(buf: seq<Byte>, rest: seq<Byte>, pos: nat)
    requires LoopStep(buf, pos).next <= |buf|
    ensures LoopStep(buf + rest, pos) == LoopStep(buf, pos)
  {
    assert forall i :: 0 <= i < |buf| ==> ByteAt(buf + rest, i) == ByteAt(buf, i);
  }

  lemma TextIgnoresRest(td: TextDecoder, buf: seq<Byte>, rest: seq<Byte>, pos: nat, n: nat)
    requires TextEnd(buf, pos, n) <= |buf|
    ensures TextOf(td, buf + rest, pos, n) == TextOf(td, buf, pos, n)
    ensures TextEnd(buf + rest, pos, n) == TextEnd(buf, pos, n)
  {
    if n > LONG_TEXT {
      assert SubArray(buf + rest, pos, n) == SubArray(buf, pos, n);
    } else {
      LoopIgnoresRest(buf, rest, pos, pos + n);
    }
  }

  lemma BytesIgnoreRest(buf: seq<Byte>, rest: seq<Byte>, pos: nat)
    ensures pos < |buf| ==> (buf + rest)[pos] == buf[pos]
    ensures pos + 2 <= |buf| ==> Uint16(buf + rest, pos) == Uint16(buf, pos)
    ensures pos + 4 <= |buf| ==> Uint32(buf + rest, pos) == Uint32(buf, pos)
    ensures pos + 8 <= |buf| ==> Uint64(buf + rest, pos) == Uint64(buf, pos)
  {
  }

  lemma HeadIgnoresRest(buf: seq<Byte>, rest: seq<Byte>, pos: nat)
    requires pos < |buf| && !HeadOf(buf, pos).BadHead?
    ensures HeadOf(buf + rest, pos) == HeadOf(buf, pos)
  {
    BytesIgnoreRest(buf, rest, pos);
    BytesIgnoreRest(buf, rest, pos + 1);
  }

  lemma PlainIgnoresRest(td: TextDecoder, buf: seq<Byte>, rest: seq<Byte>, pos: nat)
    requires pos < |buf| && DecPlain(td, buf, pos).Got? && DecPlain(td, buf, pos).next <= |buf|
    ensures DecPlain(td, buf + rest, pos) == DecPlain(td, buf, pos)
  {
    hide Uint16, Uint32, Uint64, TextOf, TextEnd;
    BytesIgnoreRest(buf, rest, pos);
    BytesIgnoreRest(buf, rest, pos + 1);
    if 0xA0 <= buf[pos] < 0xC0 {
      TextIgnoresRest(td, buf, rest, pos + 1, buf[pos] - 0xA0);
    } else if buf[pos] == 218 {
      TextIgnoresRest(td, buf, rest, pos + 3, Uint16(buf, pos + 1));
    }
  }

  lemma ShortKeyIgnoresRest(buf: seq<Byte>, rest: seq<Byte>, pos: nat, n: nat)
    requires DecShortKey(buf, pos, n).Got? && DecShortKey(buf, pos, n).next <= |buf|
    ensures DecShortKey(buf + rest, pos, n) == DecShortKey(buf, pos, n)
  {
    LoopIgnoresRest(buf, rest, pos, pos + n);
  }

  lemma {:induction false} KeyIgnoresRest(td: TextDecoder, buf: seq<Byte>, rest: seq<Byte>, pos: nat)
    requires DecKey(td, buf, pos).Got? && DecKey(td, buf, pos).next <= |buf|
    ensures DecKey(td, buf + rest, pos) == DecKey(td, buf, pos)
    decreases Left(buf, pos), 1
  {
    hide Dec, DecShortKey;
    BytesIgnoreRest(buf, rest, pos);
    if IsShortString(buf, pos) {
      ShortKeyIgnoresRest(buf, rest, pos + 1, buf[pos] - 0xA0);
    } else {
      ValueIgnoresRest(td, buf, rest, pos);
    }
  }

  lemma {:induction false} ItemsIgnoreRest(td: TextDecoder, buf: seq<Byte>, rest: seq<Byte>, pos: nat, count: nat,
        items: seq<Value>)
    requires DecItems(td, buf, pos, count, items).Got? && DecItems(td, buf, pos, count, items).next <= |buf|
    ensures DecItems(td, buf + rest, pos, count, items) == DecItems(td, buf, pos, count, items)
    decreases Left(buf, pos), 2 + count
  {
    hide Dec;
    if count > 0 {
      var o := Dec(td, buf, pos);
      ValueIgnoresRest(td, buf, rest, pos);
      ItemsIgnoreRest(td, buf, rest, o.next, count - 1, items + [o.value]);
    }
  }

  lemma {:induction false} FieldsIgnoreRest(td: TextDecoder, buf: seq<Byte>, rest: seq<Byte>, pos: nat, count: nat,
        m: map<seq<CodeUnit>, Value>)
    requires DecFields(td, buf, pos, count, m).Got? && DecFields(td, buf, pos, count, m).next <= |buf|
    ensures DecFields(td, buf + rest, pos, count, m) == DecFields(td, buf, pos, count, m)
    decreases Left(buf, pos), 2 + count
  {
    hide Dec, DecKey, SafeName;
    if count > 0 {
      var key := DecKey(td, buf, pos);
      var o := Dec(td, buf, key.next);
      KeyIgnoresRest(td, buf, rest, pos);
      ValueIgnoresRest(td, buf, rest, key.next);
      FieldsIgnoreRest(td, buf, rest, o.next, count - 1, m[SafeName(key.value) := o.value]);
    }
  }

  /** A value that ends within the buffer is decoded without looking at anything behind it. */
  lemma {:induction false} ValueIgnoresRest(td: TextDecoder, buf: seq<Byte>, rest: seq<Byte>, pos: nat)
    requires Dec(td, buf, pos).Got? && Dec(td, buf, pos).next <= |buf|
    ensures Dec(td, buf + rest, pos) == Dec(td, buf, pos)
    decreases Left(buf, pos), 0
  {
    hide DecPlain, DecItems, DecFields, HeadOf;
    HeadIgnoresRest(buf, rest, pos);
    match HeadOf(buf, pos)
    case NoHead => PlainIgnoresRest(td, buf, rest, pos);
    case ArrayHead(count, next) => ItemsIgnoreRest(td, buf, rest, next, count, []);
    case MapHead(count, next) => FieldsIgnoreRest(td, buf, rest, next, count, map[]);
  }

  /** A whole message is exactly one value: no accepted message is a proper prefix of another, so
      bytes left over and bytes cut off are both refused. */
  lemma MessagesArePrefixFree(td: TextDecoder, message: seq<Byte>, rest: seq<Byte>)
    requires DecMessage(td, message).Got? && DecMessage(td, message + rest).Got?
    ensures rest == []
  {
    ValueIgnoresRest(td, message, rest, 0);
  }
}
