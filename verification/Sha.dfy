/** The streaming hasher of src/digest.cpp: any split of a message over `update` calls followed
    by `finish` compresses the blocks of the message padded as in section 5.1.1 of FIPS 180-4.
    The block function is a parameter. */
module Sha {
  import opened Bytes
  import opened Units

  // ---- Reference ----------------------------------------------------------------------------

  /** The state after every whole block of `m`. */
  function Absorb<S>(f: (S, seq<byte>) -> S, s: S, m: seq<byte>): S
    decreases |m|
  {
    if |m| < 64 then s else Absorb(f, f(s, m[..64]), m[64..])
  }

  function Zeros(n: nat): (z: seq<byte>)
    ensures |z| == n && forall i :: 0 <= i < n ==> z[i] == 0
  {
    seq(n, _ => 0)
  }

  function Reversed(s: seq<byte>): (r: seq<byte>)
    ensures |r| == |s| && forall i :: 0 <= i < |s| ==> r[i] == s[|s| - 1 - i]
  {
    if s == [] then [] else Reversed(s[1..]) + [s[0]]
  }

  /** The number of zero bytes between the marker and the length. */
  function Gap(n: nat): nat { (119 - n % 64) % 64 }

  /** The 64-bit count of message bits. */
  function BitCount(n: nat): nat { 8 * n % 0x1_0000_0000_0000_0000 }

  /** `bit_length_ += length * 8`. */
  function AddBits(bits: nat, n: nat): nat { (bits + n * 8) % 0x1_0000_0000_0000_0000 }

  lemma BitCountAdds(a: nat, b: nat)
    ensures AddBits(BitCount(a), b) == BitCount(a + b)
  {
  }

  lemma BitCountFits(n: nat)
    requires 8 * n <= U64_MAX
    ensures BitCount(n) == 8 * n
  {
  }

  /** The bit length as a 64-bit big-endian integer. */
  function LengthField(n: nat): (r: seq<byte>)
    ensures |r| == 8
  {
    Reversed(Store(8, BitCount(n)))
  }

  /** The padded message: a one bit, zeros, and the length. */
  function Padded(m: seq<byte>): seq<byte> {
    m + [0x80] + Zeros(Gap(|m|)) + LengthField(|m|)
  }

  function Hash<S>(f: (S, seq<byte>) -> S, initial: S, m: seq<byte>): S {
    Absorb(f, initial, Padded(m))
  }

  lemma GapIsLeast(n: nat, k: nat)
    ensures (n + 1 + Gap(n) + 8) % 64 == 0
    ensures (n + 1 + k + 8) % 64 == 0 ==> Gap(n) <= k
  {
  }

  lemma GapReached(n: nat, k: nat)
    requires k <= Gap(n)
    ensures (n + 1 + k) % 64 == 56 <==> k == Gap(n)
  {
  }

  /** Padding fills whole blocks, with the fewest zeros that do. */
  lemma PaddingFillsBlocks(m: seq<byte>, k: nat)
    ensures |Padded(m)| == |m| + 1 + Gap(|m|) + 8 && |Padded(m)| % 64 == 0
    ensures (|m| + 1 + k + 8) % 64 == 0 ==> Gap(|m|) <= k
  {
    hide Gap, LengthField;
    var n := |m|;
    assert |Padded(m)| == n + 1 + Gap(n) + 8;
    GapIsLeast(n, k);
  }

  lemma LengthFieldIsInjective(a: nat, b: nat)
    requires 8 * a <= U64_MAX && 8 * b <= U64_MAX && LengthField(a) == LengthField(b)
    ensures a == b
  {
    BitCountFits(a);
    BitCountFits(b);
    Widths();
    hide BitCount;
    var la, lb := Store(8, BitCount(a)), Store(8, BitCount(b));
    forall i | 0 <= i < 8 ensures la[i] == lb[i] {
      assert Reversed(la)[7 - i] == Reversed(lb)[7 - i];
    }
    LoadOfStore(8, 8 * a);
    LoadOfStore(8, 8 * b);
    assert la == lb;
  }

  /** Padding loses nothing: messages within the 64-bit length are recovered from their padding. */
  lemma PaddingIsInjective(a: seq<byte>, b: seq<byte>)
    requires Padded(a) == Padded(b)
    requires 8 * |a| <= U64_MAX && 8 * |b| <= U64_MAX
    ensures a == b
  {
    hide Gap, LengthField;
    var p := Padded(a);
    assert p[|p| - 8..] == LengthField(|a|) && p[|p| - 8..] == LengthField(|b|);
    LengthFieldIsInjective(|a|, |b|);
    assert p[..|a|] == a && p[..|a|] == b;
  }

  // ---- How the streaming state grows -------------------------------------------------------

  lemma {:induction false} PartialBlockWaits<S>(f: (S, seq<byte>) -> S, s: S, m: seq<byte>, c: seq<byte>)
    requires |m| % 64 + |c| < 64
    ensures Absorb(f, s, m + c) == Absorb(f, s, m)
    decreases |m|
  {
    if |m| >= 64 {
      assert (m + c)[..64] == m[..64] && (m + c)[64..] == m[64..] + c;
      PartialBlockWaits(f, f(s, m[..64]), m[64..], c);
    }
  }

  lemma {:induction false} FullBlockAbsorbed<S>(f: (S, seq<byte>) -> S, s: S, m: seq<byte>, c: seq<byte>)
    requires |m| % 64 + |c| == 64
    ensures Absorb(f, s, m + c) == f(Absorb(f, s, m), m[|m| - |m| % 64..] + c)
    decreases |m|
  {
    if |m| >= 64 {
      assert (m + c)[..64] == m[..64] && (m + c)[64..] == m[64..] + c;
      FullBlockAbsorbed(f, f(s, m[..64]), m[64..], c);
    } else {
      assert (m + c)[..64] == m + c && (m + c)[64..] == [];
    }
  }

  /** Whole blocks of the message are absorbed; the rest is `held`. */
  predicate Waiting(message: seq<byte>, held: seq<byte>) {
    |held| == |message| % 64 && held == message[|message| - |held|..]
  }

  lemma HoldsMore(message: seq<byte>, held: seq<byte>, chunk: seq<byte>)
    requires Waiting(message, held) && |held| + |chunk| <= 64
    ensures Waiting(message + chunk, if |held| + |chunk| == 64 then [] else held + chunk)
    ensures |message| % 64 == |held| && message[|message| - |message| % 64..] == held
  {
  }

  lemma NothingAbsorbed<S>(f: (S, seq<byte>) -> S, s: S)
    ensures Absorb(f, s, []) == s && BitCount(0) == 0 && Waiting([], [])
  {
  }

  class Sha256<S(!new)> {
    const compress: (S, seq<byte>) -> S
    const initial: S
    const buffer: array<byte>
    var state: S
    var length: nat
    var bits: nat
    ghost var message: seq<byte>

    ghost predicate Streaming()
      reads this, buffer
    {
      && buffer.Length == 64 && length < 64
      && Waiting(message, buffer[..length])
      && state == Absorb(compress, initial, message)
    }

    ghost predicate Valid()
      reads this, buffer
    {
      Streaming() && bits == BitCount(|message|)
    }

    constructor (f: (S, seq<byte>) -> S, start: S)
      ensures Valid() && message == [] && compress == f && initial == start && fresh(buffer)
    {
      NothingAbsorbed(f, start);
      hide Absorb, BitCount, Waiting;
      compress, initial, state, length, bits, message := f, start, start, 0, 0, [];
      buffer := new byte[64];
      new;
      assert buffer[..0] == [];
    }

    method Update(data: seq<byte>)
      requires Valid()
      modifies this, buffer
      ensures Valid() && message == old(message) + data
    {
      BitCountAdds(|message|, |data|);
      hide BitCount, Absorb, Waiting, AddBits;
      bits := AddBits(bits, |data|);
      ghost var goal := bits;
      var i := 0;
      while i < |data|
        invariant 0 <= i <= |data| && bits == goal && Streaming()
        invariant message == old(message) + data[..i]
      {
        var take := if |data| - i < 64 - length then |data| - i else 64 - length;
        Fill(data, i, take);
        i := i + take;
        assert old(message) + data[..i] == message;
      }
      assert data[..i] == data;
    }

    /** `memcpy` into the block buffer. */
    method Copy(data: seq<byte>, i: nat, take: nat)
      requires i + take <= |data| && length + take <= 64 == buffer.Length
      modifies buffer
      ensures buffer[..length + take] == old(buffer[..length]) + data[i..i + take]
    {
      forall k | 0 <= k < take { buffer[length + k] := data[i + k]; }
    }

    /** One turn of the `update` loop. */
    method Fill(data: seq<byte>, i: nat, take: nat)
      requires i + take <= |data| && length + take <= 64 && Streaming()
      modifies this`state, this`length, this`message, buffer
      ensures Streaming() && message == old(message) + data[i..i + take]
    {
      hide Absorb, Waiting;
      ghost var chunk, held := data[i..i + take], buffer[..length];
      HoldsMore(message, held, chunk);
      Copy(data, i, take);
      length := length + take;
      if length == 64 {
        FullBlockAbsorbed(compress, initial, message, chunk);
        assert buffer[..] == buffer[..64];
        state, length := compress(state, buffer[..]), 0;
        assert buffer[..0] == [];
      } else {
        PartialBlockWaits(compress, initial, message, chunk);
      }
      message := message + chunk;
    }

    /** The zero loop of `finish`, which ends after exactly the gap. */
    method PadZeros(ghost n: nat)
      requires Valid() && |message| == n + 1
      modifies this, buffer
      ensures Valid() && message == old(message) + Zeros(Gap(n))
    {
      hide Absorb, Gap, BitCount;
      ghost var gap := 0;
      GapReached(n, gap);
      while length != 56
        invariant Valid() && gap <= Gap(n)
        invariant message == old(message) + Zeros(gap)
        invariant length == 56 <==> gap == Gap(n)
        decreases Gap(n) - gap
      {
        Update([0]);
        gap := gap + 1;
        assert Zeros(gap - 1) + [0] == Zeros(gap);
        GapReached(n, gap);
      }
    }

    /** `finish`: the hash of everything fed. */
    method Finish() returns (digest: S)
      requires Valid()
      modifies this, buffer
      ensures digest == Hash(compress, initial, old(message))
    {
      hide Absorb, Store, Reversed, Zeros;
      var total := bits;
      Update([0x80]);
      PadZeros(|old(message)|);
      Update(Reversed(Store(8, total)));
      digest := state;
    }
  }

  /** Any sequence of `update` calls followed by `finish` hashes the concatenation. */
  method HashChunks<S(!new)>(f: (S, seq<byte>) -> S, initial: S, chunks: seq<seq<byte>>) returns (digest: S)
    ensures digest == Hash(f, initial, Flatten(chunks))
  {
    hide Hash, Absorb;
    var hasher := new Sha256(f, initial);
    for i := 0 to |chunks|
      invariant hasher.Valid() && fresh(hasher) && fresh(hasher.buffer)
      invariant hasher.compress == f && hasher.initial == initial
      invariant hasher.message == Flatten(chunks[..i])
    {
      hasher.Update(chunks[i]);
      assert chunks[..i + 1] == chunks[..i] + [chunks[i]];
      FlattenAppends(chunks[..i], [chunks[i]]);
      assert Flatten([chunks[i]]) == chunks[i];
    }
    assert chunks[..|chunks|] == chunks;
    digest := hasher.Finish();
  }
}
