/**
  The decoder: a recursive reader over one cursor, with the key cache written in place. It is
  proved to decode every message as MsgPackFormat says, whatever messages were decoded before.
 */
module MsgPackDecoder {
  import opened Wrappers
  import opened MsgPackText
  import opened MsgPackReader
  import opened MsgPackKeys
  import opened MsgPackFormat

  /** The slot of a key of n bytes: n << 5 ^ head, cut to twelve bits. */
  function Slot(n: nat, head: nat): (s: nat)
    requires n <= MAX_KEY && head < 0x1_0000
    ensures s < SLOTS
  {
    var mixed: bv16 := (((n as bv16) << 5) ^ (head as bv16)) & 4095;
    assert mixed <= 4095;
    mixed as nat
  }

  /** What a call that may throw did, compared with what it should do. */
  ghost predicate Agrees<T>(o: Outcome<T>, r: Option<T>, cursor: nat) {
    match o
    case Fails => r.None?
    case Outside => true
    case Got(v, next) => r == Some(v) && cursor == next
  }

  /** An entry with a text was made by the key read at its origin; one without stopped at a word
      past the end. */
  predicate Sound(e: Entry, origin: map<nat, (seq<Byte>, nat)>, k: nat) {
    match e
    case Vacant => true
    case Entry(bytes, words, None) => |words| < bytes / 4
    case Entry(bytes, words, Some(_)) => k in origin && e == Made(origin[k].0, origin[k].1, bytes)
  }

  /** Messages shorter than this read their short strings as ASCII first. */
  const FAST_SIZE := 140

  /** The bytes of the number behind a tag. */
  function SizeOf(tag: int): nat {
    if tag == 208 then 1
    else if tag == 205 || tag == 209 then 2
    else if tag == 206 || tag == 210 then 4
    else if tag == 207 || tag == 211 then 8
    else 0
  }

  class Decoder {
    const reader: Reader
    const slots: array<Entry>
    /** For each slot with a text, where its key was read. */
    ghost var origin: map<nat, (seq<Byte>, nat)>

    constructor (td: TextDecoder)
      ensures Valid() && fresh(slots) && fresh(reader) && reader.td == td
    {
      reader := new Reader(td, []);
      slots := new Entry[SLOTS](_ => Vacant);
      origin := map[];
    }

    ghost predicate Valid()
      reads this, slots
    {
      slots.Length == SLOTS && forall k :: 0 <= k < SLOTS ==> Sound(slots[k], origin, k)
    }

    // ---- keys -----------------------------------------------------------------------------------------------

    /** Compares the key under the cursor with an entry; `thrown` when a word is past the end. */
    method Compare(n: nat, e: Entry) returns (hit: bool, thrown: bool)
      requires e.Entry? && e.bytes == n
      requires if e.text.Some? then |e.words| == WordCount(n) else |e.words| < n / 4
      ensures !thrown ==> (hit <==> Hits(e, reader.buf, reader.cursor, n))
      ensures hit ==> n < 4 || reader.cursor + 4 * (n / 4) <= |reader.buf|
      ensures thrown ==> !hit && n >= 4 && reader.cursor + 4 * (n / 4) > |reader.buf|
    {
      var buf, pos := reader.buf, reader.cursor;
      hit, thrown := false, false;
      for k := 0 to n / 4
        invariant k <= |e.words| && forall j :: 0 <= j < k ==> e.words[j] == WordAt(buf, pos, n, j)
        invariant k > 0 ==> pos + 4 * k <= |buf|
      {
        if pos + 4 * k + 4 > |buf| {
          thrown := true;
          return;
        }
        if k >= |e.words| || e.words[k] != WordAt(buf, pos, n, k) {
          DiffersAt(e, buf, pos, n, k);
          return;
        }
      }
      for k := n / 4 to WordCount(n)
        invariant forall j :: 0 <= j < k ==> e.words[j] == WordAt(buf, pos, n, j)
      {
        if e.words[k] != WordAt(buf, pos, n, k) {
          DiffersAt(e, buf, pos, n, k);
          return;
        }
      }
      hit := true;
      assert e.words == Words(buf, pos, n);
    }

    /** Writes the key under the cursor into a slot, word by word; a word past the end throws and
        leaves what was written. */
    method Fill(n: nat, slot: nat) returns (thrown: bool)
      requires Valid() && slot < SLOTS
      modifies slots
      ensures thrown <==> n >= 4 && reader.cursor + 4 * (n / 4) > |reader.buf|
      ensures forall k :: 0 <= k < SLOTS && k != slot ==> slots[k] == old(slots[k])
      ensures if thrown then slots[slot].Entry? && slots[slot].text.None? && |slots[slot].words| < slots[slot].bytes / 4
              else slots[slot] == Entry(n, Words(reader.buf, reader.cursor, n), None)
    {
      var buf, pos := reader.buf, reader.cursor;
      var words: seq<int> := [];
      for k := 0 to n / 4
        invariant |words| == k && forall j :: 0 <= j < k ==> words[j] == WordAt(buf, pos, n, j)
        invariant k > 0 ==> pos + 4 * k <= |buf|
      {
        if pos + 4 * k + 4 > |buf| {
          slots[slot] := Entry(n, words, None);
          return true;
        }
        words := words + [Uint32(buf, pos + 4 * k)];
      }
      for k := n / 4 to WordCount(n)
        invariant |words| == k && forall j :: 0 <= j < k ==> words[j] == WordAt(buf, pos, n, j)
      {
        words := words + [Kept(buf, pos + 4 * (n / 4) + (k - n / 4))];
      }
      assert words == Words(buf, pos, n);
      slots[slot] := Entry(n, words, None);
      thrown := false;
    }

    /** The key of n bytes under the cursor, by way of the cache. */
    method CachedKey(n: nat) returns (r: Option<seq<CodeUnit>>)
      requires Valid() && n <= MAX_KEY
      modifies this, slots, reader`cursor
      ensures Valid()
      ensures r.None? <==> !Readable(reader.buf, old(reader.cursor), n)
      ensures r.Some? ==> old(reader.cursor) <= reader.cursor
      // found or decoded, a self-contained key is what a direct decode gives
      ensures Readable(reader.buf, old(reader.cursor), n) && SelfContained(reader.buf, old(reader.cursor), n) ==>
                r == Some(LoopUnits(reader.buf, old(reader.cursor), old(reader.cursor) + n))
                    && reader.cursor == old(reader.cursor) + n
    {
      var buf, pos := reader.buf, reader.cursor;
      if n > 1 && pos + 2 > |buf| {
        return None;
      }
      var slot := Slot(n, if n > 1 then Uint16(buf, pos) else if n > 0 then ByteAt(buf, pos) else 0);
      var e := slots[slot];
      assert Sound(e, origin, slot);
      if e.Entry? && e.bytes == n {
        var hit, thrown := Compare(n, e);
        if thrown {
          return None;
        }
        if hit {
          if SelfContained(buf, pos, n) {
            CacheIsTransparent(origin[slot].0, origin[slot].1, n, buf, pos, n);
          }
          reader.cursor := pos + n;
          return e.text;
        }
      }
      r := MissedKey(n, slot);
    }

    /** The rest of sg after a miss. */
    method MissedKey(n: nat, slot: nat) returns (r: Option<seq<CodeUnit>>)
      requires Valid() && n <= MAX_KEY && slot < SLOTS
      modifies this, slots, reader`cursor
      ensures Valid()
      ensures r.None? <==> n >= 4 && old(reader.cursor) + 4 * (n / 4) > |reader.buf|
      ensures r.Some? ==> r.value == LoopUnits(reader.buf, old(reader.cursor), old(reader.cursor) + n)
                          && reader.cursor == LoopEnd(reader.buf, old(reader.cursor), old(reader.cursor) + n)
    {
      ghost var buf, pos := reader.buf, reader.cursor;
      var thrown := Fill(n, slot);
      if thrown {
        return None;
      }
      var text := ShortText(n);
      slots[slot] := slots[slot].(text := Some(text));
      NoteOrigin(slot, old(slots[..]), buf, pos, n);
      r := Some(text);
    }

    /** The slot now holds the key read at `pos`. */
    ghost method NoteOrigin(slot: nat, before: seq<Entry>, buf: seq<Byte>, pos: nat, n: nat)
      requires slot < SLOTS == slots.Length == |before| && slots[slot] == Made(buf, pos, n)
      requires forall k :: 0 <= k < SLOTS ==> Sound(before[k], origin, k)
      requires forall k :: 0 <= k < SLOTS && k != slot ==> slots[k] == before[k]
      modifies `origin
      ensures Valid()
    {
      origin := origin[slot := (buf, pos)];
      forall k | 0 <= k < SLOTS
        ensures Sound(slots[k], origin, k)
      {
        if k != slot {
          assert Sound(before[k], old(origin), k);
        }
      }
    }

    /** A string of up to 31 bytes: an ASCII reader first, the general one when it gives up. */
    method ShortText(n: nat) returns (r: seq<CodeUnit>)
      requires n <= MAX_KEY
      modifies reader`cursor
      ensures r == LoopUnits(reader.buf, old(reader.cursor), old(reader.cursor) + n)
      ensures reader.cursor == LoopEnd(reader.buf, old(reader.cursor), old(reader.cursor) + n)
    {
      AsciiReadersAgree(reader.buf, reader.cursor, n);
      var text;
      if n < 16 {
        text := reader.Su(n);
      } else {
        text := reader.Sl(n);
      }
      if text.Some? {
        return text.value;
      }
      r := reader.So(n);
    }

    /** sg: a short string by way of the cache when the message is short, any other value by name. */
    method Sg() returns (r: Option<seq<CodeUnit>>)
      requires Valid()
      modifies this, slots, reader`cursor
      ensures Valid()
      ensures r.Some? ==> old(reader.cursor) < reader.cursor
      ensures Agrees(DecKey(reader.td, reader.buf, old(reader.cursor)), r, reader.cursor)
      decreases Left(reader.buf, reader.cursor), 1
    {
      if !IsShortString(reader.buf, reader.cursor) {
        var v := A5();
        if v.None? {
          return None;
        }
        return PropertyName(v.value);
      }
      var tag := reader.Next();
      r := ShortKey(tag - 0xA0);
    }

    method ShortKey(n: nat) returns (r: Option<seq<CodeUnit>>)
      requires Valid() && n <= MAX_KEY
      modifies this, slots, reader`cursor
      ensures Valid()
      ensures r.Some? ==> old(reader.cursor) <= reader.cursor
      ensures Agrees(DecShortKey(reader.buf, old(reader.cursor), n), r, reader.cursor)
    {
      if |reader.buf| < CACHED_SIZE {
        r := CachedKey(n);
      } else {
        var text := reader.So(n);
        r := Some(text);
      }
    }

    /** The map branches of a5 and ss. */
    method Fields(count: nat) returns (r: Option<Value>)
      requires Valid()
      modifies this, slots, reader`cursor
      ensures Valid()
      ensures r.Some? ==> old(reader.cursor) <= reader.cursor
      ensures Agrees(DecFields(reader.td, reader.buf, old(reader.cursor), count, map[]), r, reader.cursor)
      decreases Left(reader.buf, reader.cursor), 2 + count
    {
      var fields: map<seq<CodeUnit>, Value> := map[];
      ghost var all := DecFields(reader.td, reader.buf, reader.cursor, count, map[]);
      for i := 0 to count
        invariant Valid() && old(reader.cursor) <= reader.cursor
        invariant all.Outside? || all == DecFields(reader.td, reader.buf, reader.cursor, count - i, fields)
      {
        var key := Sg();
        if key.None? {
          return None;
        }
        var v := A5();
        if v.None? {
          return None;
        }
        fields := fields[SafeName(key.value) := v.value];
      }
      r := Some(Obj(fields));
    }

    /** The array branch of a5. */
    method Items(count: nat) returns (r: Option<Value>)
      requires Valid()
      modifies this, slots, reader`cursor
      ensures Valid()
      ensures r.Some? ==> old(reader.cursor) <= reader.cursor
      ensures Agrees(DecItems(reader.td, reader.buf, old(reader.cursor), count, []), r, reader.cursor)
      decreases Left(reader.buf, reader.cursor), 2 + count
    {
      var items: seq<Value> := [];
      ghost var all := DecItems(reader.td, reader.buf, reader.cursor, count, []);
      for i := 0 to count
        invariant Valid() && old(reader.cursor) <= reader.cursor
        invariant all.Outside? || all == DecItems(reader.td, reader.buf, reader.cursor, count - i, items)
      {
        var v := A5();
        if v.None? {
          return None;
        }
        items := items + [v.value];
      }
      r := Some(Arr(items));
    }

    /** The branches of a5 that read no other value. */
    method Plain() returns (r: Option<Value>)
      requires reader.cursor < |reader.buf|
      modifies reader`cursor
      ensures r.Some? ==> old(reader.cursor) < reader.cursor
      ensures Agrees(DecPlain(reader.td, reader.buf, old(reader.cursor)), r, reader.cursor)
    {
      var tag: int := reader.Next();
      if tag < 0x80 {
        return Some(Num(tag));
      }
      if 0xA0 <= tag < 0xC0 {
        var text;
        if |reader.buf| < FAST_SIZE {
          text := ShortText(tag - 0xA0);
        } else {
          text := reader.So(tag - 0xA0);
        }
        return Some(Str(text));
      }
      if tag == 218 {
        if reader.cursor + 2 > |reader.buf| {
          return None;
        }
        var n := Uint16(reader.buf, reader.cursor);
        reader.cursor := reader.cursor + 2;
        var text := reader.So(n);
        return Some(Str(text));
      }
      if tag >= 224 {
        return Some(Num(tag - 256));
      }
      r := Constant(tag);
    }

    /** null, booleans and the numbers with a tag of their own. */
    method Constant(tag: int) returns (r: Option<Value>)
      requires 0 < reader.cursor <= |reader.buf| && tag == reader.buf[reader.cursor - 1] && 0x80 <= tag < 224
      requires !(0xA0 <= tag < 0xC0) && tag != 218
      modifies reader`cursor
      ensures r.Some? ==> old(reader.cursor) <= reader.cursor
      ensures Agrees(DecPlain(reader.td, reader.buf, old(reader.cursor) - 1), r, reader.cursor)
    {
      var buf, pos := reader.buf, reader.cursor;
      match tag
      case 192 => return Some(Null);
      case 194 => return Some(Bool(false));
      case 195 => return Some(Bool(true));
      case 204 =>
        reader.cursor := pos + 1;
        return Some(if pos < |buf| then Num(buf[pos]) else Undefined);
      case _ =>
        var size := SizeOf(tag);
        if size == 0 || pos + size > |buf| {
          return None;
        }
        reader.cursor := pos + size;
        r := Some(match tag
             case 205 => Num(Uint16(buf, pos))
             case 206 => Num(Uint32(buf, pos))
             case 207 => Big(Uint64(buf, pos))
             case 208 => Num(Signed(buf[pos], 0x100, true))
             case 209 => Num(Signed(Uint16(buf, pos), 0x1_0000, true))
             case 210 => Num(Signed(Uint32(buf, pos), 0x1_0000_0000, true))
             case _ => Big(Signed(Uint64(buf, pos), 0x1_0000_0000_0000_0000, true)));
    }

    /** a5. */
    method A5() returns (r: Option<Value>)
      requires Valid()
      modifies this, slots, reader`cursor
      ensures Valid()
      ensures r.Some? ==> old(reader.cursor) < reader.cursor
      ensures Agrees(Dec(reader.td, reader.buf, old(reader.cursor)), r, reader.cursor)
      decreases Left(reader.buf, reader.cursor), 0
    {
      if reader.cursor >= |reader.buf| {
        return None;
      }
      match HeadOf(reader.buf, reader.cursor)
      case BadHead => r := None;
      case NoHead => r := Plain();
      case ArrayHead(count, next) =>
        reader.cursor := next;
        r := Items(count);
      case MapHead(count, next) =>
        reader.cursor := next;
        r := Fields(count);
    }

    /** decrypt after the base64 step, with a3: one value up to the last byte. The cache keeps what
        earlier messages left in it. */
    method DecodeMessage(buf: seq<Byte>) returns (r: Option<Value>)
      requires Valid()
      modifies this, slots, reader
      ensures Valid()
      ensures match DecMessage(reader.td, buf)
              case Fails => r.None?
              case Outside => true
              case Got(v, _) => r == Some(v)
    {
      reader.buf := buf;
      reader.cursor := 0;
      r := A5();
      if r.Some? && reader.cursor != |buf| {
        r := None;
      }
    }
  }

  lemma DiffersAt(e: Entry, buf: seq<Byte>, pos: nat, n: nat, k: nat)
    requires e.Entry? && k < WordCount(n) && (k >= |e.words| || e.words[k] != WordAt(buf, pos, n, k))
    ensures !Hits(e, buf, pos, n)
  {
    assert Words(buf, pos, n)[k] == WordAt(buf, pos, n, k);
  }
}
