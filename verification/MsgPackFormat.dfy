/**
  MessagePack values as the decoder reads them, given as a function of the buffer and the cursor.
  Where the source leaves a form to helpers that are not in the file, or meets a key whose last
  character reaches over its end, the function is Outside and says nothing.
 */
module MsgPackFormat {
  import opened Wrappers
  import opened MsgPackText
  import opened MsgPackReader
  import opened MsgPackKeys

  datatype Value =
    | Null
    | Undefined
    | Bool(b: bool)
    | Num(n: int)
    | Big(n: int)
    | Str(text: seq<CodeUnit>)
    | Arr(items: seq<Value>)
    | Obj(fields: map<seq<CodeUnit>, Value>)

  datatype Outcome<T> = Fails | Outside | Got(value: T, next: nat)

  function Uint64(buf: seq<Byte>, i: nat): nat {
    Uint32(buf, i) * 0x1_0000_0000 + Uint32(buf, i + 4)
  }

  /** The number x, or what it means in two's complement of the given size. */
  function Signed(x: nat, size: nat, signed: bool): int {
    if signed && x >= size / 2 then x - size else x
  }

  function Num8(buf: seq<Byte>, pos: nat): Outcome<Value> {
    if pos + 2 > |buf| then Fails else Got(Num(Signed(buf[pos + 1], 0x100, true)), pos + 2)
  }

  function Num16(buf: seq<Byte>, pos: nat, signed: bool): Outcome<Value> {
    if pos + 3 > |buf| then Fails else Got(Num(Signed(Uint16(buf, pos + 1), 0x1_0000, signed)), pos + 3)
  }

  function Num32(buf: seq<Byte>, pos: nat, signed: bool): Outcome<Value> {
    if pos + 5 > |buf| then Fails else Got(Num(Signed(Uint32(buf, pos + 1), 0x1_0000_0000, signed)), pos + 5)
  }

  function Big64(buf: seq<Byte>, pos: nat, signed: bool): Outcome<Value> {
    if pos + 9 > |buf| then Fails else Got(Big(Signed(Uint64(buf, pos + 1), 0x1_0000_0000_0000_0000, signed)), pos + 9)
  }

  /** A number, constant or string whose tag is at `pos`. */
  function DecPlain(td: TextDecoder, buf: seq<Byte>, pos: nat): (o: Outcome<Value>)
    requires pos < |buf|
    ensures o.Got? ==> pos < o.next
  {
    var tag: int := buf[pos];
    if tag < 0x80 then Got(Num(tag), pos + 1)
    else if 0xA0 <= tag < 0xC0 then Got(Str(TextOf(td, buf, pos + 1, tag - 0xA0)), TextEnd(buf, pos + 1, tag - 0xA0))
    else if tag == 192 then Got(Null, pos + 1)
    else if tag == 194 then Got(Bool(false), pos + 1)
    else if tag == 195 then Got(Bool(true), pos + 1)
    else if tag == 204 then Got(if pos + 1 < |buf| then Num(buf[pos + 1]) else Undefined, pos + 2)
    else if tag == 205 then Num16(buf, pos, false)
    else if tag == 206 then Num32(buf, pos, false)
    else if tag == 207 then Big64(buf, pos, false)
    else if tag == 208 then Num8(buf, pos)
    else if tag == 209 then Num16(buf, pos, true)
    else if tag == 210 then Num32(buf, pos, true)
    else if tag == 211 then Big64(buf, pos, true)
    else if tag == 218 then
      if pos + 3 > |buf| then Fails
      else Got(Str(TextOf(td, buf, pos + 3, Uint16(buf, pos + 1))), TextEnd(buf, pos + 3, Uint16(buf, pos + 1)))
    else if tag >= 224 then Got(Num(tag - 256), pos + 1)
    else Outside
  }

  /** The head of an array or a map. */
  datatype Head = NoHead | BadHead | ArrayHead(count: nat, next: nat) | MapHead(count: nat, next: nat)

  function HeadOf(buf: seq<Byte>, pos: nat): (h: Head)
    requires pos < |buf|
    ensures h.ArrayHead? || h.MapHead? ==> pos < h.next <= |buf|
  {
    var tag := buf[pos];
    if 0x80 <= tag < 0x90 then MapHead(tag - 0x80, pos + 1)
    else if 0x90 <= tag < 0xA0 then ArrayHead(tag - 0x90, pos + 1)
    else if tag == 222 then if pos + 3 > |buf| then BadHead else MapHead(Uint16(buf, pos + 1), pos + 3)
    else if tag == 223 then if pos + 5 > |buf| then BadHead else MapHead(Uint32(buf, pos + 1), pos + 5)
    else NoHead
  }

  // ---- keys ----------------------------------------------------------------------------------------------------

  function Digits(n: nat): seq<CodeUnit> {
    var last: CodeUnit := 0x30 + n % 10;
    if n < 10 then [last] else Digits(n / 10) + [last]
  }

  function Decimal(n: int): seq<CodeUnit> {
    if n < 0 then [0x2D] + Digits(-n) else Digits(n)
  }

  const NULL_TEXT: seq<CodeUnit> := [0x6E, 0x75, 0x6C, 0x6C]
  const UNDEFINED_TEXT: seq<CodeUnit> := [0x75, 0x6E, 0x64, 0x65, 0x66, 0x69, 0x6E, 0x65, 0x64]
  const TRUE_TEXT: seq<CodeUnit> := [0x74, 0x72, 0x75, 0x65]
  const FALSE_TEXT: seq<CodeUnit> := [0x66, 0x61, 0x6C, 0x73, 0x65]
  const PROTO_TEXT: seq<CodeUnit> := [0x5F, 0x5F, 0x70, 0x72, 0x6F, 0x74, 0x6F, 0x5F, 0x5F]
  const SAFE_PROTO_TEXT: seq<CodeUnit> := [0x5F, 0x5F, 0x70, 0x72, 0x6F, 0x74, 0x6F, 0x5F]

  /** sy: a value that is no string as the name of a property. */
  function PropertyName(v: Value): Option<seq<CodeUnit>> {
    match v
    case Str(t) => Some(t)
    case Num(n) => Some(Decimal(n))
    case Big(n) => Some(Decimal(n))
    case Bool(b) => Some(if b then TRUE_TEXT else FALSE_TEXT)
    case Null => Some(NULL_TEXT)
    case Undefined => Some(UNDEFINED_TEXT)
    case Arr(_) => None
    case Obj(_) => None
  }

  function SafeName(key: seq<CodeUnit>): seq<CodeUnit> {
    if key == PROTO_TEXT then SAFE_PROTO_TEXT else key
  }

  /** Messages shorter than this look their keys up in the cache. */
  const CACHED_SIZE := 180

  predicate IsShortString(buf: seq<Byte>, pos: nat) {
    pos < |buf| && 0xA0 <= buf[pos] < 0xC0
  }

  /** A string of up to 31 bytes as a key. */
  function DecShortKey(buf: seq<Byte>, pos: nat, n: nat): Outcome<seq<CodeUnit>> {
    if |buf| >= CACHED_SIZE then Got(LoopUnits(buf, pos, pos + n), LoopEnd(buf, pos, pos + n))
    else if !Readable(buf, pos, n) then Fails
    else if !SelfContained(buf, pos, n) then Outside
    else Got(LoopUnits(buf, pos, pos + n), pos + n)
  }

  // ---- values -----------------------------------------------------------------------------------------------------

  function Left(buf: seq<Byte>, pos: nat): nat {
    if pos < |buf| then |buf| - pos else 0
  }

  function DecKey(td: TextDecoder, buf: seq<Byte>, pos: nat): (o: Outcome<seq<CodeUnit>>)
    ensures o.Got? ==> pos < o.next
    decreases Left(buf, pos), 1
  {
    if IsShortString(buf, pos) then DecShortKey(buf, pos + 1, buf[pos] - 0xA0)
    else match Dec(td, buf, pos)
      case Fails => Fails
      case Outside => Outside
      case Got(v, next) => if PropertyName(v).Some? then Got(PropertyName(v).value, next) else Fails
  }

  /** `count` more fields, added to `fields`; a key that comes again replaces its value. */
  function DecFields(td: TextDecoder, buf: seq<Byte>, pos: nat, count: nat,
        fields: map<seq<CodeUnit>, Value>): (o: Outcome<Value>)
    ensures o.Got? ==> pos <= o.next
    decreases Left(buf, pos), 2 + count
  {
    if count == 0 then Got(Obj(fields), pos)
    else match DecKey(td, buf, pos)
      case Fails => Fails
      case Outside => Outside
      case Got(key, middle) =>
        match Dec(td, buf, middle)
        case Fails => Fails
        case Outside => Outside
        case Got(v, next) => DecFields(td, buf, next, count - 1, fields[SafeName(key) := v])
  }

  /** `count` more elements behind `items`. */
  function DecItems(td: TextDecoder, buf: seq<Byte>, pos: nat, count: nat, items: seq<Value>): (o: Outcome<Value>)
    ensures o.Got? ==> pos <= o.next
    decreases Left(buf, pos), 2 + count
  {
    if count == 0 then Got(Arr(items), pos)
    else match Dec(td, buf, pos)
      case Fails => Fails
      case Outside => Outside
      case Got(v, next) => DecItems(td, buf, next, count - 1, items + [v])
  }

  /** The value that starts at `pos`. */
  function Dec(td: TextDecoder, buf: seq<Byte>, pos: nat): (o: Outcome<Value>)
    ensures o.Got? ==> pos < o.next
    decreases Left(buf, pos), 0
  {
    if pos >= |buf| then Fails
    else match HeadOf(buf, pos)
      case NoHead => DecPlain(td, buf, pos)
      case BadHead => Fails
      case ArrayHead(count, next) => DecItems(td, buf, next, count, [])
      case MapHead(count, next) => DecFields(td, buf, next, count, map[])
  }

  /** A whole message is one value up to the last byte. */
  function DecMessage(td: TextDecoder, buf: seq<Byte>): Outcome<Value> {
    var o := Dec(td, buf, 0);
    if o.Got? && o.next != |buf| then Fails else o
  }
}
