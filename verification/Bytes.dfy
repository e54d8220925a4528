/** Bytes and the little-endian integers every format of the repository is built from
    (`store_u16` .. `load_u64` in src/journal.cpp and src/service.cpp, `put_le` in src/canonical.cpp). */
module Bytes {

  type byte = b: int | 0 <= b < 256

  /** The refusals of the byte-level code. */
  datatype Refusal =
    | FrameInvalid | ProtocolVersionMismatch | PayloadTooLarge | TruncatedInput | IntegrityFailure
    | JournalTornTail | OversizedInput | StoreCorrupt | StoreTruncated | SequenceRegression
    | IncompatibleVersion | IncompatibleSemantics | UnknownIdentity | CompactionRequired | ArithmeticOverflow
    | InvalidConfiguration | MalformedInput | InvalidIdentifier | LimitExceeded | UnsupportedValue | OutOfRange | DuplicateIdentity

  /** `is_valid_token`: 1 to 64 of [a-z0-9._:-], starting with [a-z0-9]. */
  predicate ValidToken(t: seq<byte>) {
    1 <= |t| <= 64 && TokenHead(t[0]) && forall i :: 0 <= i < |t| ==> TokenHead(t[i]) || t[i] in {0x2E, 0x5F, 0x3A, 0x2D}
  }

  predicate TokenHead(c: byte) { 0x61 <= c <= 0x7A || 0x30 <= c <= 0x39 }

  datatype Checked<+T> = Pass(value: T) | Refuse(reason: Refusal)

  function Pow256(n: nat): (p: nat)
    ensures p > 0
  {
    if n == 0 then 1 else 256 * Pow256(n - 1)
  }

  /** `store_uN`: the low `n` bytes of `v`, least significant first; higher bits are cut off. */
  function Store(n: nat, v: nat): (s: seq<byte>)
    ensures |s| == n
  {
    if n == 0 then [] else [v % 256] + Store(n - 1, v / 256)
  }

  /** `load_uN`. */
  function Load(s: seq<byte>): (v: nat)
    ensures v < Pow256(|s|)
  {
    if s == [] then 0 else s[0] + 256 * Load(s[1..])
  }

  lemma {:induction false} LoadOfStore(n: nat, v: nat)
    requires v < Pow256(n)
    ensures Load(Store(n, v)) == v
  {
    if n > 0 {
      assert Store(n, v)[1..] == Store(n - 1, v / 256);
      LoadOfStore(n - 1, v / 256);
    }
  }

  lemma {:induction false} StoreOfLoad(s: seq<byte>)
    ensures Store(|s|, Load(s)) == s
  {
    if s != [] {
      StoreOfLoad(s[1..]);
      assert s == [s[0]] + s[1..];
    }
  }

  /** `store_uN` into a buffer that is filled from the left. */
  method StoreAt(out: array<byte>, at: nat, n: nat, v: nat)
    requires at + n <= out.Length
    modifies out
    ensures out[..at + n] == old(out[..at]) + Store(n, v)
  {
    var rest := v;
    ghost var done: seq<byte> := [];
    for i := 0 to n
      invariant |done| == i && out[..at + i] == old(out[..at]) + done
      invariant done + Store(n - i, rest) == Store(n, v)
    {
      done := done + [rest % 256];
      out[at + i] := rest % 256;
      rest := rest / 256;
    }
  }

  /** `memcpy` into such a buffer. */
  method CopyAt(out: array<byte>, at: nat, s: seq<byte>)
    requires at + |s| <= out.Length
    modifies out
    ensures out[..at + |s|] == old(out[..at]) + s
  {
    forall i | 0 <= i < |s| { out[at + i] := s[i]; }
  }

  lemma Widths()
    ensures Pow256(1) == 0x100 && Pow256(2) == 0x1_0000 && Pow256(4) == 0x1_0000_0000
    ensures Pow256(8) == 0x1_0000_0000_0000_0000
  {
    assert Pow256(3) == 0x100_0000;
    assert Pow256(5) == 0x100_0000_0000 && Pow256(6) == 0x1_0000_0000_0000 && Pow256(7) == 0x100_0000_0000_0000;
  }

  function Flatten<T>(parts: seq<seq<T>>): seq<T> {
    if parts == [] then [] else parts[0] + Flatten(parts[1..])
  }

  lemma {:induction false} FlattenAppends<T>(parts: seq<seq<T>>, more: seq<seq<T>>)
    ensures Flatten(parts + more) == Flatten(parts) + Flatten(more)
  {
    if parts == [] {
      assert parts + more == more;
    } else {
      assert (parts + more)[1..] == parts[1..] + more;
      FlattenAppends(parts[1..], more);
    }
  }

  // ---- Fixed layouts: consecutive little-endian fields of given widths ----------------------

  function Width(ws: seq<nat>): nat {
    if ws == [] then 0 else ws[0] + Width(ws[1..])
  }

  function Put(ws: seq<nat>, vs: seq<nat>): (s: seq<byte>)
    requires |ws| == |vs|
    ensures |s| == Width(ws)
  {
    if ws == [] then [] else Store(ws[0], vs[0]) + Put(ws[1..], vs[1..])
  }

  function Get(ws: seq<nat>, s: seq<byte>): (vs: seq<nat>)
    requires Width(ws) <= |s|
    ensures |vs| == |ws|
  {
    if ws == [] then [] else [Load(s[..ws[0]])] + Get(ws[1..], s[ws[0]..])
  }

  predicate Fits(ws: seq<nat>, vs: seq<nat>) {
    |ws| == |vs| && forall i :: 0 <= i < |ws| ==> vs[i] < Pow256(ws[i])
  }

  lemma {:induction false} GetOfPut(ws: seq<nat>, vs: seq<nat>, rest: seq<byte>)
    requires Fits(ws, vs)
    ensures Get(ws, Put(ws, vs) + rest) == vs
  {
    hide Load, Store, Pow256;
    if ws != [] {
      LoadOfStore(ws[0], vs[0]);
      GetOfPut(ws[1..], vs[1..], rest);
      var s := Put(ws, vs) + rest;
      assert s[..ws[0]] == Store(ws[0], vs[0]) && s[ws[0]..] == Put(ws[1..], vs[1..]) + rest;
    }
  }

  lemma {:induction false} PutOfGet(ws: seq<nat>, s: seq<byte>)
    requires Width(ws) <= |s|
    ensures Fits(ws, Get(ws, s)) && Put(ws, Get(ws, s)) == s[..Width(ws)]
  {
    hide Load, Store, Pow256;
    if ws != [] {
      StoreOfLoad(s[..ws[0]]);
      PutOfGet(ws[1..], s[ws[0]..]);
      assert s[..Width(ws)] == s[..ws[0]] + s[ws[0]..][..Width(ws[1..])];
    }
  }

  /** Only the first `Width(ws)` bytes matter. */
  lemma {:induction false} GetOfPrefix(ws: seq<nat>, s: seq<byte>, t: seq<byte>)
    requires Width(ws) <= |s| && Width(ws) <= |t| && s[..Width(ws)] == t[..Width(ws)]
    ensures Get(ws, s) == Get(ws, t)
  {
    if ws != [] {
      var w, n := ws[0], Width(ws);
      assert s[..n][..w] == s[..w] && t[..n][..w] == t[..w];
      assert s[..n][w..] == s[w..][..n - w] && t[..n][w..] == t[w..][..n - w];
      GetOfPrefix(ws[1..], s[w..], t[w..]);
    }
  }
}
