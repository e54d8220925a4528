/** CRC32C: the table-driven form of src/digest.cpp against the bit-by-bit shift register of
    section 12.1 of RFC 3720. A 32-bit word is the sequence of its bits, least significant first. */
module Crc {
  import opened Bytes

  type Word = w: seq<bool> | |w| == 32 witness Bits(0, 32)

  /** The low `n` bits of `v`. */
  function Bits(v: nat, n: nat): (b: seq<bool>)
    ensures |b| == n
    decreases n
  {
    if n == 0 then [] else [v % 2 == 1] + Bits(v / 2, n - 1)
  }

  function Pow2(n: nat): nat { if n == 0 then 1 else 2 * Pow2(n - 1) }

  function Value(b: seq<bool>): (v: nat)
    ensures v < Pow2(|b|)
  {
    if b == [] then 0 else (if b[0] then 1 else 0) + 2 * Value(b[1..])
  }

  lemma {:induction false} BitsOfValue(b: seq<bool>)
    ensures Bits(Value(b), |b|) == b
  {
    if b != [] {
      BitsOfValue(b[1..]);
      assert b == [b[0]] + b[1..];
    }
  }

  function Zeros(n: nat): (b: seq<bool>)
    ensures |b| == n && forall i :: 0 <= i < n ==> !b[i]
  {
    seq(n, _ => false)
  }

  /** Bits widened to a word. */
  function Wide(b: seq<bool>): (w: Word)
    requires |b| <= 32
  {
    b + Zeros(32 - |b|)
  }

  function Xor(a: Word, b: Word): (r: Word)
    ensures forall i :: 0 <= i < 32 ==> r[i] == (a[i] != b[i])
  {
    seq(32, i requires 0 <= i < 32 => a[i] != b[i])
  }

  function Right(w: Word, n: nat): (r: Word)
    requires n <= 32
  {
    w[n..] + Zeros(n)
  }

  const POLYNOMIAL: Word := Bits(0x82F63B78, 32)
  const ONES: Word := Bits(0xFFFF_FFFF, 32)

  /** One step of the reflected shift register. */
  function Shift(crc: Word): Word {
    if crc[0] then Xor(Right(crc, 1), POLYNOMIAL) else Right(crc, 1)
  }

  function Advance(crc: Word, n: nat): Word
    decreases n
  {
    if n == 0 then crc else Advance(Shift(crc), n - 1)
  }

  // ---- Bit by bit -----------------------------------------------------------------------

  function FeedBits(crc: Word, bits: seq<bool>): Word
    decreases |bits|
  {
    if bits == [] then crc else FeedBits(Shift(Xor(crc, Wide([bits[0]]))), bits[1..])
  }

  function FeedBytes(crc: Word, data: seq<byte>): Word
    decreases |data|
  {
    if data == [] then crc else FeedBits(FeedBytes(crc, data[..|data| - 1]), Bits(data[|data| - 1], 8))
  }

  /** The reference: preset to ones, every message bit through the register, complemented. */
  function Crc32c(data: seq<byte>): (r: nat)
    ensures r < Pow256(4)
  {
    Widths();
    assert Pow2(10) == 1024 && Pow2(20) == 0x10_0000 && Pow2(30) == 0x4000_0000;
    Value(Xor(FeedBytes(ONES, data), ONES))
  }

  // ---- Table ------------------------------------------------------------------------------

  /** Only the lowest bit decides whether the polynomial is added. */
  lemma ShiftSplits(c: Word, x: Word)
    requires !x[0]
    ensures Shift(Xor(c, x)) == Xor(Shift(c), Right(x, 1))
  {
    assert Right(Xor(c, x), 1) == Xor(Right(c, 1), Right(x, 1));
  }

  /** Bits above the ones being shifted out only move. */
  lemma {:induction false} AdvanceSplits(c: Word, x: Word, n: nat)
    requires n <= 32 && forall i :: 0 <= i < n ==> !x[i]
    ensures Advance(Xor(c, x), n) == Xor(Advance(c, n), Right(x, n))
    decreases n
  {
    if n == 0 {
      assert Right(x, 0) == x;
    } else {
      ShiftSplits(c, x);
      AdvanceSplits(Shift(c), Right(x, 1), n - 1);
      assert Right(Right(x, 1), n - 1) == Right(x, n);
    }
  }

  /** Feeding bits one at a time is placing them all in the register and advancing it. */
  lemma {:induction false} FeedIsAdvance(crc: Word, bits: seq<bool>)
    requires |bits| <= 32
    ensures FeedBits(crc, bits) == Advance(Xor(crc, Wide(bits)), |bits|)
    decreases |bits|
  {
    if bits == [] {
      assert Xor(crc, Wide(bits)) == crc;
    } else {
      var low, high := Wide([bits[0]]), Wide([false] + bits[1..]);
      assert Xor(crc, Wide(bits)) == Xor(Xor(crc, low), high);
      ShiftSplits(Xor(crc, low), high);
      assert Right(high, 1) == Wide(bits[1..]);
      FeedIsAdvance(Shift(Xor(crc, low)), bits[1..]);
    }
  }

  /** One table step consumes eight bits. */
  lemma TableStep(crc: Word, octet: seq<bool>)
    requires |octet| == 8
    ensures FeedBits(crc, octet) == Xor(Right(crc, 8), Advance(Wide(Xor(crc, Wide(octet))[..8]), 8))
  {
    hide Advance, Shift, FeedBits;
    var y := Xor(crc, Wide(octet));
    var low, high := Wide(y[..8]), Zeros(8) + y[8..];
    FeedIsAdvance(crc, octet);
    AdvanceSplits(low, high, 8);
    assert y == Xor(low, high);
    assert Right(high, 8) == Right(crc, 8);
    assert Xor(Advance(low, 8), Right(crc, 8)) == Xor(Right(crc, 8), Advance(low, 8));
  }

  /** The inner loop of `crc32c_table`. */
  method TableEntry(start: Word, n: nat) returns (crc: Word)
    ensures crc == Advance(start, n)
  {
    hide Xor, Right;
    crc := start;
    for bit := 0 to n
      invariant Advance(crc, n - bit) == Advance(start, n)
    {
      crc := if crc[0] then Xor(Right(crc, 1), POLYNOMIAL) else Right(crc, 1);
    }
  }

  /** `crc32c_table`. */
  method BuildTable() returns (table: seq<Word>)
    ensures |table| == 256
    ensures forall i: byte :: table[i] == Advance(Wide(Bits(i, 8)), 8)
  {
    hide *;
    table := [];
    for i := 0 to 256
      invariant |table| == i
      invariant forall k: byte :: k < i ==> table[k] == Advance(Wide(Bits(k, 8)), 8)
    {
      var crc := TableEntry(Wide(Bits(i, 8)), 8);
      table := table + [crc];
    }
  }

  /** `crc32c`. */
  method TableCrc32c(data: seq<byte>) returns (r: nat)
    ensures r == Crc32c(data)
  {
    hide Advance, Shift, Xor, Right, Wide;
    var table := BuildTable();
    var crc := ONES;
    for i := 0 to |data|
      invariant crc == FeedBytes(ONES, data[..i])
    {
      assert data[..i + 1][..i] == data[..i];
      var low := Xor(crc, Wide(Bits(data[i], 8)))[..8];
      TableStep(crc, Bits(data[i], 8));
      BitsOfValue(low);
      assert Pow2(8) == 256;
      var index: byte := Value(low);
      crc := Xor(Right(crc, 8), table[index]);
    }
    assert data[..|data|] == data;
    r := Value(Xor(crc, ONES));
  }
}
