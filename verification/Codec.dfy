/** The canonical binary encoding of an assignment record: the primitives of src/canonical.cpp and
    `enc_assignment` / `dec_assignment` of src/wire.cpp. */
module Codec {
  import opened Bytes
  import opened Units

  /** The primitive fields. A `Class` is written in two bytes and read back from the low one. */
  datatype Kind = Num(width: nat) | Signed | Code(width: nat, known: set<nat>) | Class | Token | Text | Digest

  datatype Item = N(n: nat) | I(i: int) | S(s: seq<byte>)

  datatype Limits = Limits(maxText: nat, maxHistory: nat, maxEffects: nat, reasons: set<nat>)

  const TWO63: int := 0x8000_0000_0000_0000
  const TWO64: nat := 0x1_0000_0000_0000_0000

  /** The values a field can carry within the configured bounds. */
  predicate Fit(k: Kind, v: Item, l: Limits) {
    match k
    case Num(w) => v.N? && v.n < Pow256(w)
    case Signed => v.I? && -TWO63 <= v.i < TWO63
    case Code(w, known) => v.N? && v.n < Pow256(w) && v.n in known
    case Class => v.N? && 1 <= v.n <= 16
    case Token => v.S? && |v.s| < Pow256(4) && |v.s| <= l.maxText && (v.s == [] || ValidToken(v.s))
    case Text => v.S? && |v.s| < Pow256(4) && |v.s| <= l.maxText
    case Digest => v.S? && |v.s| == 32
  }

  function Nat(v: Item): nat { if v.N? then v.n else 0 }
  function Int(v: Item): int { if v.I? then v.i else 0 }
  function Str(v: Item): seq<byte> { if v.S? then v.s else [] }

  function EncodeItem(k: Kind, v: Item): seq<byte> {
    match k
    case Num(w) => Store(w, Nat(v))
    case Signed => Store(8, Int(v) % TWO64)
    case Code(w, _) => Store(w, Nat(v))
    case Class => Store(2, Nat(v))
    case Token => Store(4, |Str(v)|) + Str(v)
    case Text => Store(4, |Str(v)|) + Str(v)
    case Digest => Str(v)
  }

  datatype Read = Read(item: Item, rest: seq<byte>)

  /** `take`: `n` bytes and what follows. */
  function Take(d: seq<byte>, n: nat): Checked<(seq<byte>, seq<byte>)> {
    if |d| < n then Refuse(TruncatedInput) else Pass((d[..n], d[n..]))
  }

  function ReadNat(d: seq<byte>, w: nat): Checked<(nat, seq<byte>)> {
    match Take(d, w)
    case Refuse(r) => Refuse(r)
    case Pass((s, rest)) => Pass((Load(s), rest))
  }

  function ReadText(d: seq<byte>, l: Limits): Checked<(seq<byte>, seq<byte>)> {
    match ReadNat(d, 4)
    case Refuse(r) => Refuse(r)
    case Pass((n, rest)) => if n > l.maxText then Refuse(OversizedInput) else Take(rest, n)
  }

  function DecodeItem(k: Kind, d: seq<byte>, l: Limits): (r: Checked<Read>)
    ensures r.Pass? ==> |r.value.rest| <= |d|
  {
    match k
    case Num(w) =>
      (match ReadNat(d, w) case Refuse(r) => Refuse(r) case Pass((n, rest)) => Pass(Read(N(n), rest)))
    case Signed =>
      (match ReadNat(d, 8)
       case Refuse(r) => Refuse(r)
       case Pass((n, rest)) => Pass(Read(I(if n < TWO63 then n else n - TWO64), rest)))
    case Code(w, known) =>
      (match ReadNat(d, w)
       case Refuse(r) => Refuse(r)
       case Pass((n, rest)) => if n in known then Pass(Read(N(n), rest)) else Refuse(UnsupportedValue))
    case Class =>
      (match ReadNat(d, 2)
       case Refuse(r) => Refuse(r)
       case Pass((n, rest)) => if 1 <= n % 256 <= 16 then Pass(Read(N(n % 256), rest)) else Refuse(UnsupportedValue))
    case Token =>
      (match ReadText(d, l)
       case Refuse(r) => Refuse(r)
       case Pass((s, rest)) => if s == [] || ValidToken(s) then Pass(Read(S(s), rest)) else Refuse(InvalidIdentifier))
    case Text =>
      (match ReadText(d, l) case Refuse(r) => Refuse(r) case Pass((s, rest)) => Pass(Read(S(s), rest)))
    case Digest =>
      (match Take(d, 32) case Refuse(r) => Refuse(r) case Pass((s, rest)) => Pass(Read(S(s), rest)))
  }

  // ---- One field --------------------------------------------------------------------------------

  lemma TakeBack(s: seq<byte>, rest: seq<byte>)
    ensures Take(s + rest, |s|) == Pass((s, rest))
  {
    assert (s + rest)[..|s|] == s && (s + rest)[|s|..] == rest;
  }

  lemma NatBack(w: nat, n: nat, rest: seq<byte>)
    requires n < Pow256(w)
    ensures ReadNat(Store(w, n) + rest, w) == Pass((n, rest))
  {
    TakeBack(Store(w, n), rest);
    LoadOfStore(w, n);
  }

  lemma TextBack(s: seq<byte>, rest: seq<byte>, l: Limits)
    requires |s| < Pow256(4) && |s| <= l.maxText
    ensures ReadText(Store(4, |s|) + s + rest, l) == Pass((s, rest))
  {
    hide Store, Load, Pow256, Take;
    assert Store(4, |s|) + s + rest == Store(4, |s|) + (s + rest);
    NatBack(4, |s|, s + rest);
    TakeBack(s, rest);
  }

  lemma ItemBack(k: Kind, v: Item, rest: seq<byte>, l: Limits)
    requires Fit(k, v, l)
    ensures DecodeItem(k, EncodeItem(k, v) + rest, l) == Pass(Read(v, rest))
  {
    Widths();
    hide Store, Load, ValidToken, Take, Pow256;
    match k
    case Num(w) => NatBack(w, v.n, rest);
    case Signed => NatBack(8, if v.i >= 0 then v.i else v.i + TWO64, rest);
    case Code(w, _) => NatBack(w, v.n, rest);
    case Class => NatBack(2, v.n, rest);
    case Token => TextBack(v.s, rest, l);
    case Text => TextBack(v.s, rest, l);
    case Digest => TakeBack(v.s, rest);
  }

  lemma TakeExtends(d: seq<byte>, n: nat, more: seq<byte>)
    requires Take(d, n).Pass?
    ensures Take(d + more, n) == Pass((Take(d, n).value.0, Take(d, n).value.1 + more))
  {
    assert (d + more)[..n] == d[..n] && (d + more)[n..] == d[n..] + more;
  }

  lemma TextExtends(d: seq<byte>, l: Limits, more: seq<byte>)
    requires ReadText(d, l).Pass?
    ensures ReadText(d + more, l) == Pass((ReadText(d, l).value.0, ReadText(d, l).value.1 + more))
  {
    hide Take;
    TakeExtends(d, 4, more);
    var (n, rest) := ReadNat(d, 4).value;
    TakeExtends(rest, n, more);
  }

  /** A field that was read does not depend on what follows it. */
  lemma ItemExtends(k: Kind, d: seq<byte>, l: Limits, more: seq<byte>)
    requires DecodeItem(k, d, l).Pass?
    ensures DecodeItem(k, d + more, l) == Pass(Read(DecodeItem(k, d, l).value.item, DecodeItem(k, d, l).value.rest + more))
  {
    hide Take, ReadText, Load, ValidToken;
    match k
    case Num(w) => TakeExtends(d, w, more);
    case Signed => TakeExtends(d, 8, more);
    case Code(w, _) => TakeExtends(d, w, more);
    case Class => TakeExtends(d, 2, more);
    case Token => TextExtends(d, l, more);
    case Text => TextExtends(d, l, more);
    case Digest => TakeExtends(d, 32, more);
  }

  // ---- Field lists ------------------------------------------------------------------------------

  datatype Reads = Reads(items: seq<Item>, rest: seq<byte>)

  predicate FitAll(ks: seq<Kind>, vs: seq<Item>, l: Limits) {
    |ks| == |vs| && forall i :: 0 <= i < |ks| ==> Fit(ks[i], vs[i], l)
  }

  function EncodeItems(ks: seq<Kind>, vs: seq<Item>): seq<byte>
    requires |ks| == |vs|
  {
    if ks == [] then [] else EncodeItem(ks[0], vs[0]) + EncodeItems(ks[1..], vs[1..])
  }

  /** Fields in order; the first failure is the one reported. */
  function DecodeItems(ks: seq<Kind>, d: seq<byte>, l: Limits): (r: Checked<Reads>)
    ensures r.Pass? ==> |r.value.items| == |ks| && |r.value.rest| <= |d|
  {
    if ks == [] then Pass(Reads([], d))
    else
      match DecodeItem(ks[0], d, l)
      case Refuse(r) => Refuse(r)
      case Pass(Read(v, rest)) =>
        match DecodeItems(ks[1..], rest, l)
        case Refuse(r) => Refuse(r)
        case Pass(Reads(vs, last)) => Pass(Reads([v] + vs, last))
  }

  lemma {:induction false} ItemsBack(ks: seq<Kind>, vs: seq<Item>, rest: seq<byte>, l: Limits)
    requires FitAll(ks, vs, l)
    ensures DecodeItems(ks, EncodeItems(ks, vs) + rest, l) == Pass(Reads(vs, rest))
  {
    hide Fit, DecodeItem, EncodeItem;
    if ks != [] {
      var later := EncodeItems(ks[1..], vs[1..]) + rest;
      assert EncodeItems(ks, vs) + rest == EncodeItem(ks[0], vs[0]) + later;
      ItemBack(ks[0], vs[0], later, l);
      ItemsBack(ks[1..], vs[1..], rest, l);
      assert vs == [vs[0]] + vs[1..];
    } else {
      assert EncodeItems(ks, vs) + rest == rest;
    }
  }

  lemma {:induction false} ItemsExtend(ks: seq<Kind>, d: seq<byte>, l: Limits, more: seq<byte>)
    requires DecodeItems(ks, d, l).Pass?
    ensures DecodeItems(ks, d + more, l) == Pass(Reads(DecodeItems(ks, d, l).value.items, DecodeItems(ks, d, l).value.rest + more))
  {
    hide DecodeItem;
    if ks != [] {
      ItemExtends(ks[0], d, l, more);
      ItemsExtend(ks[1..], DecodeItem(ks[0], d, l).value.rest, l, more);
    }
  }

  // ---- Bounded collections ------------------------------------------------------------------------

  datatype Rows = Rows(rows: seq<seq<Item>>, rest: seq<byte>)

  predicate FitRows(ks: seq<Kind>, rows: seq<seq<Item>>, l: Limits) {
    forall i :: 0 <= i < |rows| ==> FitAll(ks, rows[i], l)
  }

  function EncodeRows(ks: seq<Kind>, rows: seq<seq<Item>>): seq<byte>
    requires forall i :: 0 <= i < |rows| ==> |rows[i]| == |ks|
  {
    if rows == [] then [] else EncodeItems(ks, rows[0]) + EncodeRows(ks, rows[1..])
  }

  function DecodeRows(ks: seq<Kind>, n: nat, d: seq<byte>, l: Limits): (r: Checked<Rows>)
    ensures r.Pass? ==> |r.value.rows| == n && forall i :: 0 <= i < n ==> |r.value.rows[i]| == |ks|
    decreases n
  {
    if n == 0 then Pass(Rows([], d))
    else
      match DecodeItems(ks, d, l)
      case Refuse(r) => Refuse(r)
      case Pass(Reads(row, rest)) =>
        match DecodeRows(ks, n - 1, rest, l)
        case Refuse(r) => Refuse(r)
        case Pass(Rows(rows, last)) => Pass(Rows([row] + rows, last))
  }

  /** `count` followed by the entries. */
  function EncodeList(ks: seq<Kind>, rows: seq<seq<Item>>): seq<byte>
    requires forall i :: 0 <= i < |rows| ==> |rows[i]| == |ks|
  {
    Store(4, |rows|) + EncodeRows(ks, rows)
  }

  function DecodeList(ks: seq<Kind>, max: nat, d: seq<byte>, l: Limits): (r: Checked<Rows>)
    ensures r.Pass? ==> |r.value.rows| <= max && forall i :: 0 <= i < |r.value.rows| ==> |r.value.rows[i]| == |ks|
  {
    match ReadNat(d, 4)
    case Refuse(r) => Refuse(r)
    case Pass((n, rest)) => if n > max then Refuse(LimitExceeded) else DecodeRows(ks, n, rest, l)
  }

  lemma {:induction false} RowsBack(ks: seq<Kind>, rows: seq<seq<Item>>, rest: seq<byte>, l: Limits)
    requires FitRows(ks, rows, l)
    ensures DecodeRows(ks, |rows|, EncodeRows(ks, rows) + rest, l) == Pass(Rows(rows, rest))
    decreases |rows|
  {
    hide Fit, DecodeItems, EncodeItems;
    if rows != [] {
      var later := EncodeRows(ks, rows[1..]) + rest;
      assert EncodeRows(ks, rows) + rest == EncodeItems(ks, rows[0]) + later;
      ItemsBack(ks, rows[0], later, l);
      RowsBack(ks, rows[1..], rest, l);
      assert rows == [rows[0]] + rows[1..];
    } else {
      assert EncodeRows(ks, rows) + rest == rest;
    }
  }

  lemma ListBack(ks: seq<Kind>, rows: seq<seq<Item>>, max: nat, rest: seq<byte>, l: Limits)
    requires FitRows(ks, rows, l) && |rows| <= max && |rows| < Pow256(4)
    ensures DecodeList(ks, max, EncodeList(ks, rows) + rest, l) == Pass(Rows(rows, rest))
  {
    hide Fit, DecodeItems, EncodeItems, Store, DecodeRows, EncodeRows;
    assert EncodeList(ks, rows) + rest == Store(4, |rows|) + (EncodeRows(ks, rows) + rest);
    NatBack(4, |rows|, EncodeRows(ks, rows) + rest);
    RowsBack(ks, rows, rest, l);
  }

  lemma {:induction false} RowsExtend(ks: seq<Kind>, n: nat, d: seq<byte>, l: Limits, more: seq<byte>)
    requires DecodeRows(ks, n, d, l).Pass?
    ensures DecodeRows(ks, n, d + more, l) == Pass(Rows(DecodeRows(ks, n, d, l).value.rows, DecodeRows(ks, n, d, l).value.rest + more))
    decreases n
  {
    hide DecodeItems;
    if n > 0 {
      ItemsExtend(ks, d, l, more);
      RowsExtend(ks, n - 1, DecodeItems(ks, d, l).value.rest, l, more);
    }
  }

  lemma ListExtends(ks: seq<Kind>, max: nat, d: seq<byte>, l: Limits, more: seq<byte>)
    requires DecodeList(ks, max, d, l).Pass?
    ensures DecodeList(ks, max, d + more, l) == Pass(Rows(DecodeList(ks, max, d, l).value.rows, DecodeList(ks, max, d, l).value.rest + more))
  {
    hide DecodeRows, Take;
    TakeExtends(d, 4, more);
    var (n, rest) := ReadNat(d, 4).value;
    RowsExtend(ks, n, rest, l, more);
  }

  // ---- Canonicity -------------------------------------------------------------------------------

  lemma TakenAdds(d: seq<byte>, n: nat)
    requires Take(d, n).Pass?
    ensures Take(d, n).value.0 + Take(d, n).value.1 == d && |Take(d, n).value.0| == n
  {
  }

  lemma NatCanonical(d: seq<byte>, w: nat)
    requires ReadNat(d, w).Pass?
    ensures ReadNat(d, w).value.0 < Pow256(w) && Store(w, ReadNat(d, w).value.0) + ReadNat(d, w).value.1 == d
  {
    TakenAdds(d, w);
    StoreOfLoad(Take(d, w).value.0);
  }

  lemma TextCanonical(d: seq<byte>, l: Limits)
    requires ReadText(d, l).Pass?
    ensures var (s, rest) := ReadText(d, l).value; Store(4, |s|) + s + rest == d && |s| < Pow256(4) && |s| <= l.maxText
  {
    hide Store, Take, Pow256;
    NatCanonical(d, 4);
    var (n, rest) := ReadNat(d, 4).value;
    TakenAdds(rest, n);
    var (s, last) := ReadText(d, l).value;
    assert Store(4, n) + s + last == Store(4, n) + (s + last);
  }

  lemma ClassCanonicalIff(d: seq<byte>)
    requires ReadNat(d, 2).Pass?
    ensures Store(2, ReadNat(d, 2).value.0 % 256) + ReadNat(d, 2).value.1 == d <==> d[1] == 0
  {
    var (n, rest) := ReadNat(d, 2).value;
    assert Load(d[..2]) == d[0] + 256 * Load(d[..2][1..]) && Load(d[..2][1..]) == d[1] + 256 * Load(d[..2][1..][1..]);
    var low: int, high: int := d[0], d[1];
    assert n == low + 256 * high && n % 256 == low;
    assert Store(2, n % 256) == [d[0]] + Store(1, 0) && Store(1, 0) == [0] + Store(0, 0);
    var e := Store(2, n % 256) + rest;
    assert e[1] == 0;
    if d[1] == 0 { assert e == d; }
  }

  /** Two spellings of a field: only the class has more than one. */
  predicate PlainItem(k: Kind, d: seq<byte>) { k.Class? ==> |d| > 1 && d[1] == 0 }

  /** What was read is within bounds, and writing it again gives the same bytes unless a class
      carried a high byte. */
  lemma ItemCanonicalIff(k: Kind, d: seq<byte>, l: Limits)
    requires DecodeItem(k, d, l).Pass?
    ensures var Read(v, rest) := DecodeItem(k, d, l).value;
      Fit(k, v, l) && |EncodeItem(k, v)| + |rest| == |d| && (EncodeItem(k, v) + rest == d <==> PlainItem(k, d))
  {
    Widths();
    hide Store, Load, ValidToken, Take, Pow256;
    match k
    case Num(w) => NatCanonical(d, w);
    case Signed => NatCanonical(d, 8);
    case Code(w, _) => NatCanonical(d, w);
    case Class => NatCanonical(d, 2); ClassCanonicalIff(d);
    case Token => TextCanonical(d, l);
    case Text => TextCanonical(d, l);
    case Digest => TakenAdds(d, 32);
  }

  predicate PlainItems(ks: seq<Kind>, d: seq<byte>, l: Limits)
    requires DecodeItems(ks, d, l).Pass?
  {
    ks != [] ==> PlainItem(ks[0], d) && PlainItems(ks[1..], DecodeItem(ks[0], d, l).value.rest, l)
  }

  lemma {:induction false} ItemsCanonicalIff(ks: seq<Kind>, d: seq<byte>, l: Limits)
    requires DecodeItems(ks, d, l).Pass?
    ensures var Reads(vs, rest) := DecodeItems(ks, d, l).value;
      FitAll(ks, vs, l) && |EncodeItems(ks, vs)| + |rest| == |d| && (EncodeItems(ks, vs) + rest == d <==> PlainItems(ks, d, l))
  {
    hide Fit, DecodeItem, EncodeItem, PlainItem;
    if ks != [] {
      var Read(v, d1) := DecodeItem(ks[0], d, l).value;
      ItemCanonicalIff(ks[0], d, l);
      ItemsCanonicalIff(ks[1..], d1, l);
      var Reads(vs, rest) := DecodeItems(ks[1..], d1, l).value;
      var e, later := EncodeItem(ks[0], v), EncodeItems(ks[1..], vs) + rest;
      assert ([v] + vs)[1..] == vs;
      assert EncodeItems(ks, [v] + vs) + rest == e + later;
      assert d1 == d[|d| - |d1|..] by { DecodeLeavesSuffix(ks[0], d, l); }
      assert e + later == d <==> e + d1 == d && later == d1 by {
        if e + later == d { assert later == d[|e|..]; }
      }
    }
  }

  lemma DecodeLeavesSuffix(k: Kind, d: seq<byte>, l: Limits)
    ensures DecodeItem(k, d, l).Pass? ==> var rest := DecodeItem(k, d, l).value.rest; rest == d[|d| - |rest|..]
  {
  }

  /** A class with a high byte is read as the plain one. */
  lemma ClassHighByteIsDropped(c: byte, high: byte, rest: seq<byte>, l: Limits)
    requires 1 <= c <= 16
    ensures DecodeItem(Class, [c, high] + rest, l) == DecodeItem(Class, [c, 0] + rest, l) == Pass(Read(N(c), rest))
  {
    forall h: byte ensures DecodeItem(Class, [c, h] + rest, l) == Pass(Read(N(c), rest)) {
      var d := [c, h] + rest;
      assert d[..2] == [c, h] && d[2..] == rest;
      assert [c, h][1..] == [h] && [h][1..] == [];
      var low: int, top: int := c, h;
      assert Load([c, h]) == low + 256 * top;
    }
  }

  lemma {:induction false} NoClassIsPlain(ks: seq<Kind>, d: seq<byte>, l: Limits)
    requires DecodeItems(ks, d, l).Pass? && Class !in ks
    ensures PlainItems(ks, d, l)
  {
    hide DecodeItem;
    if ks != [] { NoClassIsPlain(ks[1..], DecodeItem(ks[0], d, l).value.rest, l); }
  }

  lemma {:induction false} RowsCanonical(ks: seq<Kind>, n: nat, d: seq<byte>, l: Limits)
    requires DecodeRows(ks, n, d, l).Pass? && Class !in ks
    ensures var Rows(rows, rest) := DecodeRows(ks, n, d, l).value; FitRows(ks, rows, l) && EncodeRows(ks, rows) + rest == d
    decreases n
  {
    hide DecodeItems, EncodeItems, FitAll, PlainItems;
    if n > 0 {
      var Reads(row, d1) := DecodeItems(ks, d, l).value;
      ItemsCanonicalIff(ks, d, l);
      NoClassIsPlain(ks, d, l);
      RowsCanonical(ks, n - 1, d1, l);
      var Rows(rows, rest) := DecodeRows(ks, n - 1, d1, l).value;
      assert ([row] + rows)[1..] == rows;
      assert EncodeItems(ks, row) + EncodeRows(ks, rows) + rest == EncodeItems(ks, row) + (EncodeRows(ks, rows) + rest);
    } else {
      assert EncodeRows(ks, []) + d == d;
    }
  }

  lemma ListCanonical(ks: seq<Kind>, max: nat, d: seq<byte>, l: Limits)
    requires DecodeList(ks, max, d, l).Pass? && Class !in ks
    ensures var Rows(rows, rest) := DecodeList(ks, max, d, l).value;
      FitRows(ks, rows, l) && |rows| < Pow256(4) && |rows| <= max && EncodeList(ks, rows) + rest == d
  {
    hide Store, EncodeRows, DecodeRows, FitAll;
    NatCanonical(d, 4);
    var (n, d1) := ReadNat(d, 4).value;
    RowsCanonical(ks, n, d1, l);
    var Rows(rows, rest) := DecodeRows(ks, n, d1, l).value;
    assert Store(4, n) + EncodeRows(ks, rows) + rest == Store(4, n) + (EncodeRows(ks, rows) + rest);
  }
}
