/** The buffer being decoded, its cursor, and the three readers of text. */
module MsgPackReader {
  import opened Wrappers
  import opened MsgPackText

  /** The text decoder of the platform, used for strings of more than 64 bytes. */
  type TextDecoder = seq<Byte> -> seq<CodeUnit>

  const LONG_TEXT := 64
  const CHUNK := 4096

  /** The bytes of buf[pos..pos + n] that exist. */
  function SubArray(buf: seq<Byte>, pos: nat, n: nat): seq<Byte> {
    if pos >= |buf| then [] else if pos + n >= |buf| then buf[pos..] else buf[pos..pos + n]
  }

  /** What the general reader returns for n bytes, and where it leaves the cursor. */
  function TextOf(td: TextDecoder, buf: seq<Byte>, pos: nat, n: nat): seq<CodeUnit> {
    if n > LONG_TEXT then td(SubArray(buf, pos, n)) else LoopUnits(buf, pos, pos + n)
  }

  function TextEnd(buf: seq<Byte>, pos: nat, n: nat): nat {
    if n > LONG_TEXT then pos + n else LoopEnd(buf, pos, pos + n)
  }

  /** What the two ASCII readers return. */
  function AsciiText(buf: seq<Byte>, pos: nat, n: nat): Option<seq<CodeUnit>> {
    if Ascii(buf, pos, n) then Some(AsciiUnits(buf, pos, n)) else None
  }

  predicate HighBit(b: Byte) {
    b >= 0x80
  }

  lemma Regroup(r: seq<CodeUnit>, units: seq<CodeUnit>, more: seq<CodeUnit>, rest: seq<CodeUnit>)
    ensures (r + units) + (more + rest) == (r + (units + more)) + rest
    ensures (r + (units + more)) + [] == r + (units + more)
  {
  }

  lemma NotAscii(buf: seq<Byte>, pos: nat, n: nat, k: nat)
    requires k < n && HighBit(ByteAt(buf, pos + k))
    ensures !Ascii(buf, pos, n)
  {
  }

  class Reader {
    const td: TextDecoder
    var buf: seq<Byte>
    var cursor: nat

    constructor (td: TextDecoder, buf: seq<Byte>)
      ensures this.td == td && this.buf == buf && cursor == 0
    {
      this.td := td;
      this.buf := buf;
      cursor := 0;
    }

    /** The next byte. */
    method Next() returns (b: Byte)
      modifies `cursor
      ensures b == ByteAt(buf, old(cursor)) && cursor == old(cursor) + 1
    {
      b := ByteAt(buf, cursor);
      cursor := cursor + 1;
    }

    /** sl: gives up, with the cursor where it was, at the first byte that is not ASCII. */
    method Sl(n: nat) returns (r: Option<seq<CodeUnit>>)
      modifies `cursor
      ensures r == AsciiText(buf, old(cursor), n)
      ensures cursor == if r.Some? then old(cursor) + n else old(cursor)
    {
      var start := cursor;
      var units: seq<CodeUnit> := [];
      for i := 0 to n
        invariant cursor == start + i && Ascii(buf, start, i)
        invariant units == AsciiUnits(buf, start, i)
      {
        var b := Next();
        if HighBit(b) {
          NotAscii(buf, start, n, i);
          cursor := start;
          return None;
        }
        units := units + [b];
      }
      r := Some(units);
    }

    /** One group of su: reads g more bytes after `first`, then looks at their high bits; if one is
        set it steps back over everything read so far. */
    method Group(g: nat, first: seq<CodeUnit>) returns (r: Option<seq<CodeUnit>>)
      requires |first| <= cursor && AsciiText(buf, cursor - |first|, |first|) == Some(first)
      modifies `cursor
      ensures r == AsciiText(buf, old(cursor) - |first|, |first| + g)
      ensures cursor == if r.Some? then old(cursor) + g else old(cursor) - |first|
    {
      ghost var start := cursor - |first|;
      var high, units := false, first;
      for i := 0 to g
        invariant cursor == old(cursor) + i && |units| == |first| + i
        invariant high <==> !Ascii(buf, start, |first| + i)
        invariant !high ==> units == AsciiUnits(buf, start, |first| + i)
      {
        var b := Next();
        high := high || HighBit(b);
        units := units + [b];
      }
      if high {
        cursor := cursor - (|first| + g);
        return None;
      }
      r := Some(units);
    }

    /** su, for fewer than 16 bytes: the unrolled reader goes in groups of four, two and one. */
    method Su(n: nat) returns (r: Option<seq<CodeUnit>>)
      requires n < 16
      modifies `cursor
      ensures r == AsciiText(buf, old(cursor), n)
      ensures cursor == if r.Some? then old(cursor) + n else old(cursor)
    {
      r := Some([]);
      assert AsciiUnits(buf, cursor, 0) == [];
      if n < 4 {
        r := SuRest(n, r.value);
        return;
      }
      r := Group(4, r.value);
      if r.None? || n == 4 {
        return;
      }
      if n < 8 {
        r := SuRest(n - 4, r.value);
        return;
      }
      r := Group(4, r.value);
      if r.None? || n == 8 {
        return;
      }
      if n < 12 {
        r := SuRest(n - 8, r.value);
        return;
      }
      r := Group(4, r.value);
      if r.Some? && n > 12 {
        r := SuRest(n - 12, r.value);
      }
    }

    /** The last one to three bytes of su. */
    method SuRest(n: nat, first: seq<CodeUnit>) returns (r: Option<seq<CodeUnit>>)
      requires n < 4 && |first| <= cursor && AsciiText(buf, cursor - |first|, |first|) == Some(first)
      modifies `cursor
      ensures r == AsciiText(buf, old(cursor) - |first|, |first| + n)
      ensures cursor == if r.Some? then old(cursor) + n else old(cursor) - |first|
    {
      if n < 2 {
        if n == 0 {
          return Some(first);
        }
        r := Group(1, first);
        return;
      }
      r := Group(2, first);
      if r.None? || n < 3 {
        return;
      }
      r := Group(1, r.value);
    }

    /** The short cut of so: the ASCII reader, unless it returns the empty text. */
    method SoFast(n: nat) returns (r: Option<seq<CodeUnit>>)
      requires n < 16
      modifies `cursor
      ensures r.Some? ==>
                && r.value == LoopUnits(buf, old(cursor), old(cursor) + n)
                && cursor == LoopEnd(buf, old(cursor), old(cursor) + n)
      ensures r.None? ==> cursor == old(cursor)
    {
      AsciiReadersAgree(buf, cursor, n);
      r := Su(n);
      if r == Some([]) {
        r := None;
      }
    }

    /** so, the general reader. */
    method So(n: nat) returns (r: seq<CodeUnit>)
      modifies `cursor
      ensures r == TextOf(td, buf, old(cursor), n)
      ensures cursor == TextEnd(buf, old(cursor), n)
    {
      if n < 16 {
        var fast := SoFast(n);
        if fast.Some? {
          return fast.value;
        }
      }
      if n > LONG_TEXT {
        r := td(SubArray(buf, cursor, n));
        cursor := cursor + n;
        return;
      }
      r := SoLoop(n);
    }

    /** The loop of so; the code units are flushed in chunks. */
    method SoLoop(n: nat) returns (r: seq<CodeUnit>)
      modifies `cursor
      ensures r == LoopUnits(buf, old(cursor), old(cursor) + n)
      ensures cursor == LoopEnd(buf, old(cursor), old(cursor) + n)
    {
      var end := cursor + n;
      ghost var all := LoopUnits(buf, cursor, end);
      ghost var stop := LoopEnd(buf, cursor, end);
      r := [];
      var units: seq<CodeUnit> := [];
      while cursor < end
        invariant all == (r + units) + LoopUnits(buf, cursor, end)
        invariant LoopEnd(buf, cursor, end) == stop
        decreases end - cursor
      {
        ghost var pos := cursor;
        var more := Sequence();
        LoopOneRound(buf, pos, end, Step(more, cursor));
        Regroup(r, units, more, LoopUnits(buf, cursor, end));
        units := units + more;
        if |units| >= CHUNK {
          r, units := r + units, [];
        }
      }
      if |units| > 0 {
        r := r + units;
      }
    }

    /** One round of the loop. */
    method Sequence() returns (units: seq<CodeUnit>)
      modifies `cursor
      ensures Step(units, cursor) == LoopStep(buf, old(cursor))
    {
      var b: int := Next();
      if b < 0x80 {
        units := [b];
      } else if 0xC0 <= b < 0xE0 {
        var b1: int := Next();
        units := Utf16(b % 0x20 * 0x40 + b1 % 0x40);
      } else if 0xE0 <= b < 0xF0 {
        var b1: int := Next();
        var b2: int := Next();
        units := Utf16(b % 0x20 * 0x1000 + b1 % 0x40 * 0x40 + b2 % 0x40);
      } else if 0xF0 <= b < 0xF8 {
        var b1: int := Next();
        var b2: int := Next();
        var b3: int := Next();
        var c := b % 8 * 0x4_0000 + b1 % 0x40 * 0x1000 + b2 % 0x40 * 0x40 + b3 % 0x40;
        if c > 0xFFFF {
          c := c - 0x1_0000;
          units := [High(c), Low(c)];
        } else {
          units := [c];
        }
      } else {
        units := [b];
      }
    }
  }

  // ---- agreement of the readers ----------------------------------------------------------------------------

  /** An ASCII reader gives up exactly at a byte that is not ASCII; otherwise it returns what the
      loop returns, and the loop stops after as many bytes. */
  lemma AsciiReadersAgree(buf: seq<Byte>, pos: nat, n: nat)
    ensures AsciiText(buf, pos, n).None? <==> exists i :: pos <= i < pos + n && ByteAt(buf, i) >= 0x80
    ensures AsciiText(buf, pos, n).Some? ==>
              AsciiText(buf, pos, n).value == LoopUnits(buf, pos, pos + n) && LoopEnd(buf, pos, pos + n) == pos + n
  {
    if Ascii(buf, pos, n) {
      LoopReadsAscii(buf, pos, pos + n);
    }
  }

  // ---- strings ----------------------------------------------------------------------------------------------

  function WithoutMark(t: seq<Scalar>): seq<Scalar> {
    if t != [] && t[0] == BYTE_ORDER_MARK then t[1..] else t
  }

  /** The platform's decoder is right about UTF-8; like every such decoder it drops a leading mark. */
  ghost predicate DecodesUtf8(td: TextDecoder) {
    forall t: seq<Scalar> :: td(Utf8Text(t)) == Utf16Text(WithoutMark(t))
  }

  function TextRead(t: seq<Scalar>): seq<CodeUnit> {
    Utf16Text(if |Utf8Text(t)| > LONG_TEXT then WithoutMark(t) else t)
  }

  /** The general reader on well-formed UTF-8 of any length, wherever it stands. */
  lemma StringIsRead(td: TextDecoder, buf: seq<Byte>, pos: nat, t: seq<Scalar>)
    requires DecodesUtf8(td) && At(buf, pos, Utf8Text(t))
    ensures TextOf(td, buf, pos, |Utf8Text(t)|) == TextRead(t)
    ensures TextEnd(buf, pos, |Utf8Text(t)|) == pos + |Utf8Text(t)|
  {
    hide LoopUnits, LoopEnd, LoopStep, Utf8Text, Utf16Text, SubArray, WithoutMark;
    if |Utf8Text(t)| > LONG_TEXT {
      LongStringIsRead(td, buf, pos, |Utf8Text(t)|, t);
    } else {
      LoopReadsUtf8(buf, pos, pos + |Utf8Text(t)|, t);
    }
  }

  lemma LongStringIsRead(td: TextDecoder, buf: seq<Byte>, pos: nat, n: nat, t: seq<Scalar>)
    requires DecodesUtf8(td) && At(buf, pos, Utf8Text(t)) && n == |Utf8Text(t)| > LONG_TEXT
    ensures TextOf(td, buf, pos, n) == Utf16Text(WithoutMark(t)) && TextEnd(buf, pos, n) == pos + n
  {
    SubArrayOf(buf, pos, Utf8Text(t));
  }

  lemma SubArrayOf(buf: seq<Byte>, pos: nat, part: seq<Byte>)
    requires At(buf, pos, part)
    ensures SubArray(buf, pos, |part|) == part
  {
  }

  /** It returns the characters themselves, unless they are long and start with the byte order mark. */
  lemma MarkIsLostExactly(t: seq<Scalar>)
    ensures TextRead(t) == Utf16Text(t) <==> !(|Utf8Text(t)| > LONG_TEXT && t[0] == BYTE_ORDER_MARK)
    ensures TextRead(t) != Utf16Text(t) ==> TextRead(t) == Utf16Text(t[1..])
  {
    if t != [] {
      assert Utf16Text(t) == Utf16(t[0]) + Utf16Text(t[1..]);
      assert |Utf16(t[0])| > 0;
    }
  }
}
