/**
  The cache of map keys: 4096 slots, found by a hash of length and first bytes, each compared
  with the key word by word. It lives on from one message to the next.
 */
module MsgPackKeys {
  import opened Wrappers
  import opened MsgPackText

  const SLOTS := 4096
  const MAX_KEY := 31

  /** What stands in a slot; a key whose reading failed has no text. */
  datatype Entry = Vacant | Entry(bytes: nat, words: seq<int>, text: Option<seq<CodeUnit>>)

  function Uint16(buf: seq<Byte>, i: nat): nat {
    ByteAt(buf, i) * 0x100 + ByteAt(buf, i + 1)
  }

  function Uint32(buf: seq<Byte>, i: nat): nat {
    Uint16(buf, i) * 0x1_0000 + Uint16(buf, i + 2)
  }

  const MISSING := -1

  /** eI[i] when it is kept: past the end there is no value. */
  function Kept(buf: seq<Byte>, i: nat): int {
    if i < |buf| then buf[i] else MISSING
  }

  /** The k-th element an entry keeps of a key: whole words first, then the bytes left over. */
  function WordAt(buf: seq<Byte>, pos: nat, n: nat, k: nat): int {
    if k < n / 4 then Uint32(buf, pos + 4 * k) else Kept(buf, pos + 4 * (n / 4) + (k - n / 4))
  }

  function WordCount(n: nat): nat {
    n / 4 + n % 4
  }

  function Words(buf: seq<Byte>, pos: nat, n: nat): seq<int> {
    seq(WordCount(n), k requires 0 <= k < WordCount(n) => WordAt(buf, pos, n, k))
  }

  /** No DataView read of the key goes past the end. */
  predicate Readable(buf: seq<Byte>, pos: nat, n: nat) {
    (n > 1 ==> pos + 2 <= |buf|) && (n >= 4 ==> pos + 4 * (n / 4) <= |buf|)
  }

  /** The entry left by a key that was read at `pos`. */
  function Made(buf: seq<Byte>, pos: nat, n: nat): Entry {
    Entry(n, Words(buf, pos, n), Some(LoopUnits(buf, pos, pos + n)))
  }

  /** A key with the cursor behind it. */
  datatype Key = Key(text: seq<CodeUnit>, end: nat)

  /** The key decoded without a cache. */
  function Direct(buf: seq<Byte>, pos: nat, n: nat): Key {
    Key(LoopUnits(buf, pos, pos + n), LoopEnd(buf, pos, pos + n))
  }

  predicate Hits(e: Entry, buf: seq<Byte>, pos: nat, n: nat) {
    e.Entry? && e.bytes == n && e.words == Words(buf, pos, n) && e.text.Some?
  }

  /** The key as it is found with entry e in its slot. */
  function Found(e: Entry, buf: seq<Byte>, pos: nat, n: nat): Key {
    if Hits(e, buf, pos, n) then Key(e.text.value, pos + n) else Direct(buf, pos, n)
  }

  /** The last character of the key does not reach over its end. */
  predicate SelfContained(buf: seq<Byte>, pos: nat, n: nat) {
    LoopEnd(buf, pos, pos + n) == pos + n
  }

  // ---- transparency -----------------------------------------------------------------------------------------

  /** The i-th byte of the key at `pos`. */
  function KeyByte(buf: seq<Byte>, pos: nat, i: nat): Byte {
    ByteAt(buf, pos + i)
  }

  predicate SameBytes(buf0: seq<Byte>, pos0: nat, buf: seq<Byte>, pos: nat, n: nat) {
    forall i :: 0 <= i < n ==> KeyByte(buf0, pos0, i) == KeyByte(buf, pos, i)
  }

  /** Four bytes and the number they make determine each other. */
  lemma DigitsOf(a: Byte, b: Byte, c: Byte, d: Byte, a0: Byte, b0: Byte, c0: Byte, d0: Byte)
    requires (a * 0x100 + b) * 0x1_0000 + (c * 0x100 + d) == (a0 * 0x100 + b0) * 0x1_0000 + (c0 * 0x100 + d0)
    ensures a == a0 && b == b0 && c == c0 && d == d0
  {
  }

  lemma WordGivesByte(buf0: seq<Byte>, pos0: nat, buf: seq<Byte>, pos: nat, k: nat, d: nat)
    requires Uint32(buf0, pos0 + 4 * k) == Uint32(buf, pos + 4 * k) && d < 4
    ensures KeyByte(buf0, pos0, 4 * k + d) == KeyByte(buf, pos, 4 * k + d)
  {
    var i, j := pos0 + 4 * k, pos + 4 * k;
    DigitsOf(ByteAt(buf0, i), ByteAt(buf0, i + 1), ByteAt(buf0, i + 2), ByteAt(buf0, i + 3),
             ByteAt(buf, j), ByteAt(buf, j + 1), ByteAt(buf, j + 2), ByteAt(buf, j + 3));
  }

  lemma WordsGiveBytes(buf0: seq<Byte>, pos0: nat, buf: seq<Byte>, pos: nat, n: nat)
    requires Words(buf0, pos0, n) == Words(buf, pos, n)
    ensures SameBytes(buf0, pos0, buf, pos, n)
  {
    forall i | 0 <= i < n
      ensures KeyByte(buf0, pos0, i) == KeyByte(buf, pos, i)
    {
      if i < 4 * (n / 4) {
        var k := i / 4;
        assert Words(buf0, pos0, n)[k] == Words(buf, pos, n)[k];
        WordGivesByte(buf0, pos0, buf, pos, k, i % 4);
      } else {
        var k := n / 4 + (i - 4 * (n / 4));
        assert Words(buf0, pos0, n)[k] == Words(buf, pos, n)[k];
      }
    }
  }

  lemma StepByBytes(buf0: seq<Byte>, pos0: nat, buf: seq<Byte>, pos: nat, n: nat)
    requires SameBytes(buf0, pos0, buf, pos, n) && n > 0 && LoopStep(buf, pos).next <= pos + n
    ensures LoopStep(buf0, pos0).units == LoopStep(buf, pos).units
    ensures LoopStep(buf0, pos0).next - pos0 == LoopStep(buf, pos).next - pos
  {
    var d := LoopStep(buf, pos).next - pos;
    assert KeyByte(buf0, pos0, 0) == KeyByte(buf, pos, 0);
    assert d > 1 ==> KeyByte(buf0, pos0, 1) == KeyByte(buf, pos, 1);
    assert d > 2 ==> KeyByte(buf0, pos0, 2) == KeyByte(buf, pos, 2);
    assert d > 3 ==> KeyByte(buf0, pos0, 3) == KeyByte(buf, pos, 3);
  }

  lemma SameBytesBehind(buf0: seq<Byte>, pos0: nat, buf: seq<Byte>, pos: nat, n: nat, d: nat)
    requires SameBytes(buf0, pos0, buf, pos, n) && d <= n
    ensures SameBytes(buf0, pos0 + d, buf, pos + d, n - d)
  {
    var p0, p, m := pos0 + d, pos + d, n - d;
    forall i | 0 <= i < m
      ensures KeyByte(buf0, p0, i) == KeyByte(buf, p, i)
    {
      assert KeyByte(buf0, pos0, d + i) == KeyByte(buf, pos, d + i);
    }
  }

  /** A round of a self-contained key stays within the key, and the rest is self-contained. */
  lemma SelfContainedRest(buf: seq<Byte>, pos: nat, n: nat)
    requires SelfContained(buf, pos, n) && n > 0
    ensures var next := LoopStep(buf, pos).next;
            && next <= pos + n && SelfContained(buf, next, pos + n - next)
            && LoopUnits(buf, pos, pos + n) == LoopStep(buf, pos).units + LoopUnits(buf, next, pos + n)
  {
    LoopOneRound(buf, pos, pos + n, LoopStep(buf, pos));
  }

  lemma FirstRound(buf0: seq<Byte>, pos0: nat, buf: seq<Byte>, pos: nat, n: nat) returns (units: seq<CodeUnit>, d: nat)
    requires SameBytes(buf0, pos0, buf, pos, n) && SelfContained(buf, pos, n) && n > 0
    ensures 0 < d <= n && SameBytes(buf0, pos0 + d, buf, pos + d, n - d) && SelfContained(buf, pos + d, n - d)
    ensures LoopUnits(buf, pos, pos + n) == units + LoopUnits(buf, pos + d, pos + n)
    ensures LoopUnits(buf0, pos0, pos0 + n) == units + LoopUnits(buf0, pos0 + d, pos0 + n)
  {
    hide LoopStep, LoopUnits, LoopEnd, SelfContained, SameBytes;
    units, d := LoopStep(buf, pos).units, LoopStep(buf, pos).next - pos;
    SelfContainedRest(buf, pos, n);
    StepByBytes(buf0, pos0, buf, pos, n);
    SameBytesBehind(buf0, pos0, buf, pos, n, d);
    LoopOneRound(buf0, pos0, pos0 + n, Step(units, pos0 + d));
  }

  lemma {:induction false} LoopByBytes(buf0: seq<Byte>, pos0: nat, buf: seq<Byte>, pos: nat, n: nat)
    requires SameBytes(buf0, pos0, buf, pos, n) && SelfContained(buf, pos, n)
    ensures LoopUnits(buf0, pos0, pos0 + n) == LoopUnits(buf, pos, pos + n)
    decreases n
  {
    if n > 0 {
      hide LoopStep, LoopEnd, SelfContained, SameBytes;
      var units, d := FirstRound(buf0, pos0, buf, pos, n);
      LoopByBytes(buf0, pos0 + d, buf, pos + d, n - d);
    }
  }

  /** A self-contained key is found as it is decoded, whatever key left the entry in its slot. */
  lemma CacheIsTransparent(buf0: seq<Byte>, pos0: nat, n0: nat, buf: seq<Byte>, pos: nat, n: nat)
    requires SelfContained(buf, pos, n)
    ensures Found(Made(buf0, pos0, n0), buf, pos, n) == Direct(buf, pos, n)
  {
    if Hits(Made(buf0, pos0, n0), buf, pos, n) {
      WordsGiveBytes(buf0, pos0, buf, pos, n);
      LoopByBytes(buf0, pos0, buf, pos, n);
    }
  }

  /** The cache is transparent for a key, for all entries left by earlier keys, exactly when the key
      is self-contained: any other key is found differently the second time it is read. */
  lemma TransparentExactly(buf: seq<Byte>, pos: nat, n: nat)
    ensures SelfContained(buf, pos, n)
            <==> forall buf0: seq<Byte>, pos0: nat, n0: nat ::
                   Found(Made(buf0, pos0, n0), buf, pos, n) == Direct(buf, pos, n)
  {
    if SelfContained(buf, pos, n) {
      forall buf0: seq<Byte>, pos0: nat, n0: nat
        ensures Found(Made(buf0, pos0, n0), buf, pos, n) == Direct(buf, pos, n)
      {
        CacheIsTransparent(buf0, pos0, n0, buf, pos, n);
      }
    } else {
      assert Hits(Made(buf, pos, n), buf, pos, n);
    }
  }

  /** A key that ends within a character: "a" and the first byte of a two-byte sequence, with the
      other byte behind its end. The first time the cursor ends up behind that byte, the second
      time before it. */
  lemma CutKeyIsNotTransparent(buf: seq<Byte>)
    requires |buf| >= 3 && buf[0] == 0x61 && buf[1] == 0xC3 && buf[2] == 0xA9
    ensures Direct(buf, 0, 2) == Key([0x61, 0xE9], 3)
    ensures Found(Made(buf, 0, 2), buf, 0, 2) == Key([0x61, 0xE9], 2)
  {
    LoopOneRound(buf, 0, 2, Step([0x61], 1));
    LoopOneRound(buf, 1, 2, Step([0xE9], 3));
    assert Hits(Made(buf, 0, 2), buf, 0, 2);
  }
}
