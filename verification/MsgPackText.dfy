/**
  Text in MessagePack data: UTF-8 (section 3 of RFC 3629) read into UTF-16 code units
  (section 2.1 of RFC 2781) by a hand-written loop and two readers for plain ASCII.
 */
module MsgPackText {

  type Byte = b: int | 0 <= b < 0x100
  type CodeUnit = u: int | 0 <= u < 0x1_0000

  // ---- the standards ---------------------------------------------------------------------------------

  /** Unicode characters without the surrogate range. */
  type Scalar = c: int | 0 <= c < 0xD800 || 0xE000 <= c < 0x11_0000

  const BYTE_ORDER_MARK: Scalar := 0xFEFF

  function Trail(x: nat): Byte {
    0x80 + x % 0x40
  }

  function Utf8(c: Scalar): seq<Byte> {
    var lead: Byte := if c < 0x80 then c
                      else if c < 0x800 then 0xC0 + c / 0x40
                      else if c < 0x1_0000 then 0xE0 + c / 0x1000
                      else 0xF0 + c / 0x4_0000;
    if c < 0x80 then [lead]
    else if c < 0x800 then [lead, Trail(c)]
    else if c < 0x1_0000 then [lead, Trail(c / 0x40), Trail(c)]
    else [lead, Trail(c / 0x1000), Trail(c / 0x40), Trail(c)]
  }

  /** One code unit, or a surrogate pair above U+FFFF. */
  function Utf16(c: int): seq<CodeUnit>
    requires 0 <= c < 0x20_0000
  {
    if c < 0x1_0000 then var unit: CodeUnit := c; [unit]
    else [High(c - 0x1_0000), Low(c - 0x1_0000)]
  }

  function High(x: nat): CodeUnit {
    0xD800 + x / 0x400 % 0x400
  }

  function Low(x: nat): CodeUnit {
    0xDC00 + x % 0x400
  }

  function Utf8Text(t: seq<Scalar>): seq<Byte> {
    if t == [] then [] else Utf8(t[0]) + Utf8Text(t[1..])
  }

  function Utf16Text(t: seq<Scalar>): seq<CodeUnit> {
    if t == [] then [] else Utf16(t[0]) + Utf16Text(t[1..])
  }

  // ---- reading bytes ------------------------------------------------------------------------------------

  /** eI[i] in an operator on bits or as a character code: past the end it counts as zero. */
  function ByteAt(buf: seq<Byte>, i: nat): Byte {
    if i < |buf| then buf[i] else 0
  }

  /** The masks of the loop on bytes, and shifted parts put together, are these sums. */
  lemma MasksAreRemainders(a: bv32, b: bv32, c: bv32, d: bv32)
    requires a < 0x100 && b < 0x100 && c < 0x100 && d < 0x100
    ensures 128 & a == 0 <==> a < 0x80
    ensures 224 & a == 192 <==> 0xC0 <= a < 0xE0
    ensures 240 & a == 224 <==> 0xE0 <= a < 0xF0
    ensures 248 & a == 240 <==> 0xF0 <= a < 0xF8
    ensures ((31 & a) << 6) | (63 & b) == (a % 0x20) * 0x40 + b % 0x40
    ensures ((31 & a) << 12) | ((63 & b) << 6) | (63 & c) == (a % 0x20) * 0x1000 + (b % 0x40) * 0x40 + c % 0x40
    ensures ((7 & a) << 18) | ((63 & b) << 12) | ((63 & c) << 6) | (63 & d)
            == (a % 0x8) * 0x4_0000 + (b % 0x40) * 0x1000 + (c % 0x40) * 0x40 + d % 0x40
  {
  }

  /** The surrogates are put together from bits, too. */
  lemma SurrogateBits(x: bv32)
    requires x < 0x1F_0000
    ensures ((x >> 10) & 1023) | 55296 == 0xD800 + x / 0x400 % 0x400
    ensures 56320 | (1023 & x) == 0xDC00 + x % 0x400
  {
  }

  // ---- the loop -------------------------------------------------------------------------------------------

  datatype Step = Step(units: seq<CodeUnit>, next: nat)

  /** One round of the loop: a sequence of one to four bytes; nothing is checked. */
  function LoopStep(buf: seq<Byte>, pos: nat): (s: Step)
    ensures pos < s.next
  {
    var b := ByteAt(buf, pos);
    if 0xC0 <= b < 0xE0 then Step(Utf16(b % 0x20 * 0x40 + ByteAt(buf, pos + 1) % 0x40), pos + 2)
    else if 0xE0 <= b < 0xF0 then
      Step(Utf16(b % 0x20 * 0x1000 + ByteAt(buf, pos + 1) % 0x40 * 0x40 + ByteAt(buf, pos + 2) % 0x40), pos + 3)
    else if 0xF0 <= b < 0xF8 then
      Step(Utf16(b % 8 * 0x4_0000 + ByteAt(buf, pos + 1) % 0x40 * 0x1000 + ByteAt(buf, pos + 2) % 0x40 * 0x40
          + ByteAt(buf, pos + 3) % 0x40), pos + 4)
    else Step([b], pos + 1)
  }

  /** The code units the loop makes of the bytes from `pos` to `end`. */
  function LoopUnits(buf: seq<Byte>, pos: nat, end: nat): seq<CodeUnit>
    decreases end - pos
  {
    if pos >= end then [] else LoopStep(buf, pos).units + LoopUnits(buf, LoopStep(buf, pos).next, end)
  }

  /** Where the loop stops: at `end`, or behind it when the last sequence is cut short by it. */
  function LoopEnd(buf: seq<Byte>, pos: nat, end: nat): (r: nat)
    ensures pos <= r && (end <= r || pos == r)
    decreases end - pos
  {
    if pos >= end then pos else LoopEnd(buf, LoopStep(buf, pos).next, end)
  }

  /** `part` stands at position `pos`. */
  predicate At(buf: seq<Byte>, pos: nat, part: seq<Byte>) {
    pos + |part| <= |buf| && buf[pos..pos + |part|] == part
  }

  lemma AtByte(buf: seq<Byte>, pos: nat, part: seq<Byte>, i: nat)
    requires At(buf, pos, part) && i < |part|
    ensures ByteAt(buf, pos + i) == part[i]
  {
    assert buf[pos..pos + |part|][i] == buf[pos + i];
  }

  lemma AtParts(buf: seq<Byte>, pos: nat, a: seq<Byte>, b: seq<Byte>)
    ensures At(buf, pos, a + b) <==> At(buf, pos, a) && At(buf, pos + |a|, b)
  {
    if pos + |a| + |b| <= |buf| {
      var whole := buf[pos..pos + |a + b|];
      assert whole[..|a|] == buf[pos..pos + |a|];
      assert whole[|a|..] == buf[pos + |a|..pos + |a| + |b|];
      assert whole == whole[..|a|] + whole[|a|..];
      assert (a + b)[..|a|] == a && (a + b)[|a|..] == b;
    }
  }

  lemma JoinTwo(c: nat)
    requires c < 0x800
    ensures (0xC0 + c / 0x40) % 0x20 * 0x40 + Trail(c) % 0x40 == c
  {
  }

  lemma JoinThree(c: nat)
    requires c < 0x1_0000
    ensures (0xE0 + c / 0x1000) % 0x20 * 0x1000 + Trail(c / 0x40) % 0x40 * 0x40 + Trail(c) % 0x40 == c
  {
    assert (0xE0 + c / 0x1000) % 0x20 == c / 0x1000;
    assert c / 0x40 == c / 0x1000 * 0x40 + c / 0x40 % 0x40;
  }

  lemma JoinFour(c: nat)
    requires c < 0x11_0000
    ensures (0xF0 + c / 0x4_0000) % 8 * 0x4_0000 + Trail(c / 0x1000) % 0x40 * 0x1000 + Trail(c / 0x40) % 0x40 * 0x40
        + Trail(c) % 0x40 == c
  {
    assert (0xF0 + c / 0x4_0000) % 8 == c / 0x4_0000;
    assert c / 0x1000 == c / 0x4_0000 * 0x40 + c / 0x1000 % 0x40;
    assert c / 0x40 == c / 0x1000 * 0x40 + c / 0x40 % 0x40;
  }

  /** One well-formed sequence gives the code units of its character. */
  lemma StepReadsScalar(buf: seq<Byte>, pos: nat, c: Scalar)
    requires At(buf, pos, Utf8(c))
    ensures LoopStep(buf, pos) == Step(Utf16(c), pos + |Utf8(c)|)
  {
    AtByte(buf, pos, Utf8(c), 0);
    if c < 0x80 {
    } else if c < 0x800 {
      StepReadsTwo(buf, pos, c);
    } else if c < 0x1_0000 {
      StepReadsThree(buf, pos, c);
    } else {
      StepReadsFour(buf, pos, c);
    }
  }

  lemma StepReadsTwo(buf: seq<Byte>, pos: nat, c: Scalar)
    requires 0x80 <= c < 0x800 && At(buf, pos, Utf8(c))
    ensures LoopStep(buf, pos) == Step(Utf16(c), pos + 2)
  {
    AtByte(buf, pos, Utf8(c), 0);
    AtByte(buf, pos, Utf8(c), 1);
    JoinTwo(c);
  }

  lemma StepReadsThree(buf: seq<Byte>, pos: nat, c: Scalar)
    requires 0x800 <= c < 0x1_0000 && At(buf, pos, Utf8(c))
    ensures LoopStep(buf, pos) == Step(Utf16(c), pos + 3)
  {
    AtByte(buf, pos, Utf8(c), 0);
    AtByte(buf, pos, Utf8(c), 1);
    AtByte(buf, pos, Utf8(c), 2);
    JoinThree(c);
  }

  lemma StepReadsFour(buf: seq<Byte>, pos: nat, c: Scalar)
    requires 0x1_0000 <= c && At(buf, pos, Utf8(c))
    ensures LoopStep(buf, pos) == Step(Utf16(c), pos + 4)
  {
    AtByte(buf, pos, Utf8(c), 0);
    AtByte(buf, pos, Utf8(c), 1);
    AtByte(buf, pos, Utf8(c), 2);
    AtByte(buf, pos, Utf8(c), 3);
    JoinFour(c);
  }

  lemma LoopOneRound(buf: seq<Byte>, pos: nat, end: nat, s: Step)
    requires pos < end && LoopStep(buf, pos) == s
    ensures LoopUnits(buf, pos, end) == s.units + LoopUnits(buf, s.next, end)
    ensures LoopEnd(buf, pos, end) == LoopEnd(buf, s.next, end)
  {
  }

  lemma LoopReadsFirst(buf: seq<Byte>, pos: nat, c: Scalar, end: nat)
    requires At(buf, pos, Utf8(c)) && pos + |Utf8(c)| <= end
    ensures LoopUnits(buf, pos, end) == Utf16(c) + LoopUnits(buf, pos + |Utf8(c)|, end)
    ensures LoopEnd(buf, pos, end) == LoopEnd(buf, pos + |Utf8(c)|, end)
  {
    StepReadsScalar(buf, pos, c);
    LoopOneRound(buf, pos, end, Step(Utf16(c), pos + |Utf8(c)|));
  }

  /** The bytes from `pos` to `end` are the characters. */
  predicate Holds(buf: seq<Byte>, pos: nat, end: nat, t: seq<Scalar>) {
    end == pos + |Utf8Text(t)| && At(buf, pos, Utf8Text(t))
  }

  lemma HoldsRest(buf: seq<Byte>, pos: nat, end: nat, t: seq<Scalar>)
    requires Holds(buf, pos, end, t) && t != []
    ensures At(buf, pos, Utf8(t[0])) && pos + |Utf8(t[0])| <= end
    ensures Holds(buf, pos + |Utf8(t[0])|, end, t[1..])
  {
    AtParts(buf, pos, Utf8(t[0]), Utf8Text(t[1..]));
  }

  /** On well-formed UTF-8 the loop yields exactly the UTF-16 code units, surrogate pairs included,
      and stops exactly at the end. */
  lemma {:induction false} LoopReadsUtf8(buf: seq<Byte>, pos: nat, end: nat, t: seq<Scalar>)
    requires Holds(buf, pos, end, t)
    ensures LoopUnits(buf, pos, end) == Utf16Text(t)
    ensures LoopEnd(buf, pos, end) == end
    decreases |t|
  {
    if t != [] {
      var next := pos + |Utf8(t[0])|;
      HoldsRest(buf, pos, end, t);
      LoopReadsFirst(buf, pos, t[0], end);
      LoopReadsUtf8(buf, next, end, t[1..]);
      assert Utf16Text(t) == Utf16(t[0]) + Utf16Text(t[1..]);
    }
  }

  // ---- plain ASCII -----------------------------------------------------------------------------------------

  predicate Ascii(buf: seq<Byte>, pos: nat, n: nat) {
    forall i :: pos <= i < pos + n ==> ByteAt(buf, i) < 0x80
  }

  function AsciiUnits(buf: seq<Byte>, pos: nat, n: nat): seq<CodeUnit> {
    seq<CodeUnit>(n, i requires 0 <= i < n => ByteAt(buf, pos + i) as CodeUnit)
  }

  lemma LoopCopiesByte(buf: seq<Byte>, pos: nat, end: nat)
    requires pos < end && ByteAt(buf, pos) < 0x80
    ensures LoopUnits(buf, pos, end) == [ByteAt(buf, pos)] + LoopUnits(buf, pos + 1, end)
    ensures LoopEnd(buf, pos, end) == LoopEnd(buf, pos + 1, end)
  {
  }

  /** On ASCII the loop copies the bytes. */
  lemma {:induction false} LoopReadsAscii(buf: seq<Byte>, pos: nat, end: nat)
    requires pos <= end && Ascii(buf, pos, end - pos)
    ensures LoopUnits(buf, pos, end) == AsciiUnits(buf, pos, end - pos)
    ensures LoopEnd(buf, pos, end) == end
    decreases end - pos
  {
    if pos < end {
      LoopCopiesByte(buf, pos, end);
      LoopReadsAscii(buf, pos + 1, end);
      AsciiOneMore(buf, pos, end - pos);
    }
  }

  lemma AsciiOneMore(buf: seq<Byte>, pos: nat, n: nat)
    requires n > 0
    ensures AsciiUnits(buf, pos, n) == [ByteAt(buf, pos)] + AsciiUnits(buf, pos + 1, n - 1)
  {
  }

  lemma FirstUnitsDecide(a: Scalar, b: Scalar, x: seq<CodeUnit>, y: seq<CodeUnit>)
    requires Utf16(a) + x == Utf16(b) + y
    ensures a == b && x == y
  {
    var s, t := Utf16(a) + x, Utf16(b) + y;
    assert s[0] == Utf16(a)[0] && t[0] == Utf16(b)[0];
    assert (a < 0x1_0000) == (b < 0x1_0000);
    if a >= 0x1_0000 {
      assert s[1] == Utf16(a)[1] && t[1] == Utf16(b)[1];
      assert a - 0x1_0000 == (a - 0x1_0000) / 0x400 * 0x400 + (a - 0x1_0000) % 0x400;
      assert b - 0x1_0000 == (b - 0x1_0000) / 0x400 * 0x400 + (b - 0x1_0000) % 0x400;
    }
    assert x == s[|Utf16(a)|..] && y == t[|Utf16(b)|..];
  }

  /** Different texts have different code units, so keys of a map stay apart. */
  lemma {:induction false} Utf16KeepsTextsApart(t: seq<Scalar>, u: seq<Scalar>)
    requires Utf16Text(t) == Utf16Text(u)
    ensures t == u
    decreases |t|
  {
    if t != [] && u != [] {
      FirstUnitsDecide(t[0], u[0], Utf16Text(t[1..]), Utf16Text(u[1..]));
      Utf16KeepsTextsApart(t[1..], u[1..]);
      assert t == [t[0]] + t[1..] && u == [u[0]] + u[1..];
    }
  }
}
