/** The records of the write-ahead journal and the scan that recovers them (src/journal.cpp). */
module Journal {
  import opened Bytes
  import opened Crc
  import opened Units

  const FILE_HEADER: nat := 64
  const HEADER: nat := 20
  const TRAILER: nat := 4
  const SNAPSHOT_BASE: nat := 15

  /** Widths of payload length, type, flags, sequence and a reserved word. */
  const LAYOUT: seq<nat> := [4, 2, 2, 8, 4]

  datatype Rec = Rec(kind: nat, sequence: nat, payload: seq<byte>)

  /** `parse_record_type`. */
  predicate KnownKind(kind: nat) { 1 <= kind <= 16 }

  /** A record the format can hold and the configured bound admits. */
  predicate Storable(r: Rec, max: nat) {
    KnownKind(r.kind) && r.sequence < Pow256(8) && |r.payload| < Pow256(4) && |r.payload| <= max
  }

  function Fields(r: Rec): seq<nat> { [|r.payload|, r.kind, 0, r.sequence, 0] }

  function Body(r: Rec): (s: seq<byte>)
    ensures |s| == HEADER + |r.payload|
  {
    Layout20();
    Put(LAYOUT, Fields(r)) + r.payload
  }

  function Encode(r: Rec): (s: seq<byte>)
    ensures |s| == HEADER + |r.payload| + TRAILER
  {
    Body(r) + Store(4, Crc32c(Body(r)))
  }

  lemma Layout20()
    ensures Width(LAYOUT) == HEADER
  {
    assert LAYOUT[1..] == [2, 2, 8, 4] && LAYOUT[1..][1..] == [2, 8, 4] && LAYOUT[1..][1..][1..] == [8, 4];
  }

  function Header(d: seq<byte>): (v: seq<nat>)
    requires |d| >= HEADER
    ensures |v| == 5
  {
    Layout20();
    Get(LAYOUT, d)
  }

  // ---- Scanning ---------------------------------------------------------------------------

  /** What stands at the front of the unscanned bytes. */
  datatype Front = Partial | Bad(reason: Refusal) | Whole(rec: Rec, total: nat)

  function Look(d: seq<byte>, max: nat): (f: Front)
    ensures f.Whole? ==> 0 < HEADER + TRAILER <= f.total <= |d|
  {
    if |d| < HEADER + TRAILER then Partial
    else
      var h := Header(d);
      if h[0] > max then Bad(OversizedInput)
      else
        var total := HEADER + h[0] + TRAILER;
        if |d| < total then Partial
        else if !KnownKind(h[1]) then Bad(StoreCorrupt)
        else if Load(d[total - TRAILER..total]) != Crc32c(d[..total - TRAILER]) then Bad(StoreCorrupt)
        else Whole(Rec(h[1], h[3], d[HEADER..HEADER + h[0]]), total)
  }

  datatype Tail = Clean | Torn | Damaged(reason: Refusal)

  datatype Scanned = Scanned(records: seq<Rec>, good: nat, tail: Tail)

  /** The scan of the bytes after the file header; `prev` is the last accepted sequence. */
  function Scan(d: seq<byte>, max: nat, prev: Option<nat>): (s: Scanned)
    ensures s.good <= |d|
    decreases |d|
  {
    if d == [] then Scanned([], 0, Clean)
    else
      match Look(d, max)
      case Partial => Scanned([], 0, Torn)
      case Bad(r) => Scanned([], 0, Damaged(r))
      case Whole(rec, total) =>
        if prev.Some? && rec.sequence <= prev.value then Scanned([], 0, Damaged(SequenceRegression))
        else
          var later := Scan(d[total..], max, Some(rec.sequence));
          Scanned([rec] + later.records, total + later.good, later.tail)
  }

  datatype ScanOutcome = ScanOutcome(lastGoodOffset: nat, lastSequence: nat, records: nat, discarded: nat, tail: Tail)

  function LastSequence(records: seq<Rec>): nat {
    if records == [] then 0 else records[|records| - 1].sequence
  }

  /** The bytes after the file header. */
  function Unframed(data: seq<byte>): seq<byte> { From(data, FILE_HEADER) }

  function From(data: seq<byte>, offset: nat): seq<byte> {
    if |data| < offset then [] else data[offset..]
  }

  /** The figures `scan_records` reports. */
  function Report(data: seq<byte>, max: nat): ScanOutcome {
    var s := Scan(Unframed(data), max, None);
    ScanOutcome(FILE_HEADER + s.good, LastSequence(s.records), |s.records|, |Unframed(data)| - s.good, s.tail)
  }

  // ---- One record ---------------------------------------------------------------------------

  lemma HeaderOfEncoded(r: Rec, max: nat, rest: seq<byte>)
    requires Storable(r, max)
    ensures Header(Encode(r) + rest) == Fields(r)
  {
    Widths();
    hide Crc32c, Put, Get, Store;
    var tail := r.payload + Store(4, Crc32c(Body(r))) + rest;
    assert Encode(r) + rest == Put(LAYOUT, Fields(r)) + tail;
    GetOfPut(LAYOUT, Fields(r), tail);
  }

  /** A stored record is read back, whatever follows it. */
  lemma LookOfEncoded(r: Rec, max: nat, rest: seq<byte>)
    requires Storable(r, max)
    ensures Look(Encode(r) + rest, max) == Whole(r, |Encode(r)|)
  {
    HeaderOfEncoded(r, max, rest);
    Layout20();
    hide Crc32c, Put, Get, Store, Width;
    var d, n := Encode(r) + rest, |Encode(r)|;
    assert d[..n - TRAILER] == Body(r) && d[n - TRAILER..n] == Store(4, Crc32c(Body(r)));
    LoadOfStore(4, Crc32c(Body(r)));
    assert d[HEADER..HEADER + |r.payload|] == r.payload;
  }

  /** A proper prefix of a stored record is an interrupted write, never damage. */
  lemma LookOfCut(r: Rec, max: nat, n: nat)
    requires Storable(r, max) && n < |Encode(r)|
    ensures Look(Encode(r)[..n], max).Partial?
  {
    if n >= HEADER + TRAILER {
      HeaderOfEncoded(r, max, []);
      hide Crc32c, Put, Get, Store, Encode;
      Layout20();
      assert Encode(r) + [] == Encode(r);
      assert Encode(r)[..n][..HEADER] == Encode(r)[..HEADER];
      GetOfPrefix(LAYOUT, Encode(r)[..n], Encode(r));
    }
  }

  /** A whole record is recognised from its own bytes alone. */
  lemma LookOfPrefix(d: seq<byte>, n: nat, max: nat)
    requires Look(d, max).Whole? && Look(d, max).total <= n <= |d|
    ensures Look(d[..n], max) == Look(d, max)
  {
    Layout20();
    hide Crc32c, Put, Get, Store, Width;
    assert d[..n][..HEADER] == d[..HEADER];
    GetOfPrefix(LAYOUT, d[..n], d);
    var total := Look(d, max).total;
    assert d[..n][total - TRAILER..total] == d[total - TRAILER..total];
    assert d[..n][..total - TRAILER] == d[..total - TRAILER];
    assert d[..n][HEADER..total - TRAILER] == d[HEADER..total - TRAILER];
  }

  // ---- Whole journals -------------------------------------------------------------------------

  function Write(rs: seq<Rec>): seq<byte> {
    if rs == [] then [] else Encode(rs[0]) + Write(rs[1..])
  }

  /** Sequences strictly above `prev` and strictly increasing. */
  predicate Rising(rs: seq<Rec>, prev: Option<nat>) {
    rs != [] ==> (prev.Some? ==> prev.value < rs[0].sequence) && Rising(rs[1..], Some(rs[0].sequence))
  }

  predicate WellFormed(rs: seq<Rec>, max: nat, prev: Option<nat>) {
    Rising(rs, prev) && forall i :: 0 <= i < |rs| ==> Storable(rs[i], max)
  }

  /** How many records lie completely within the first `n` bytes. */
  function Complete(rs: seq<Rec>, n: nat): (k: nat)
    ensures k <= |rs|
  {
    if rs == [] || n < |Encode(rs[0])| then 0 else 1 + Complete(rs[1..], n - |Encode(rs[0])|)
  }

  lemma WriteHead(rs: seq<Rec>, k: nat)
    requires 0 < k <= |rs|
    ensures Write(rs[..k]) == Encode(rs[0]) + Write(rs[1..][..k - 1])
  {
    assert rs[..k][1..] == rs[1..][..k - 1];
  }

  /** `Complete` is the largest number of records that fits. */
  lemma {:induction false} CompleteIsLargest(rs: seq<Rec>, n: nat)
    ensures |Write(rs[..Complete(rs, n)])| <= n
    ensures Complete(rs, n) < |rs| ==> n < |Write(rs[..Complete(rs, n) + 1])|
    decreases |rs|
  {
    hide Encode;
    if rs != [] {
      if n < |Encode(rs[0])| {
        WriteHead(rs, 1);
      } else {
        CompleteIsLargest(rs[1..], n - |Encode(rs[0])|);
        WriteHead(rs, Complete(rs, n));
        if Complete(rs, n) < |rs| { WriteHead(rs, Complete(rs, n) + 1); }
      }
    }
  }

  /** Cut a well-formed journal at any byte: what is left scans as clean or torn, never as
      damaged, and yields exactly the records that are still complete. */
  lemma {:induction false} TruncationIsNeverDamage(rs: seq<Rec>, n: nat, max: nat, prev: Option<nat>)
    requires WellFormed(rs, max, prev) && n <= |Write(rs)|
    ensures var k := Complete(rs, n);
      Scan(Write(rs)[..n], max, prev) ==
      Scanned(rs[..k], |Write(rs[..k])|, if n == |Write(rs[..k])| then Clean else Torn)
    decreases |rs|
  {
    hide Encode, Look;
    if rs != [] && n > 0 {
      var e, later := Encode(rs[0]), Write(rs[1..]);
      if n < |e| {
        LookOfCut(rs[0], max, n);
        assert Write(rs)[..n] == e[..n];
      } else {
        assert Write(rs)[..n] == e + later[..n - |e|];
        LookOfEncoded(rs[0], max, later[..n - |e|]);
        assert (e + later[..n - |e|])[|e|..] == later[..n - |e|];
        TruncationIsNeverDamage(rs[1..], n - |e|, max, Some(rs[0].sequence));
        var k := Complete(rs, n);
        WriteHead(rs, k);
        assert [rs[0]] + rs[1..][..k - 1] == rs[..k];
      }
    }
  }

  /** Whatever the bytes: cutting at the last good offset rescans clean with the same records. */
  lemma {:induction false} CutAtGoodIsClean(d: seq<byte>, max: nat, prev: Option<nat>)
    ensures var s := Scan(d, max, prev);
      Scan(d[..s.good], max, prev) == s.(tail := Clean) && Rising(s.records, prev)
    decreases |d|
  {
    hide Look;
    var s := Scan(d, max, prev);
    if s.records != [] {
      var total := Look(d, max).total;
      CutAtGoodIsClean(d[total..], max, Some(s.records[0].sequence));
      LookOfPrefix(d, s.good, max);
      assert d[..s.good][total..] == d[total..][..s.good - total];
      assert s.records[1..] == Scan(d[total..], max, Some(s.records[0].sequence)).records;
    }
  }

  /** Appending a record with a higher sequence to a clean journal extends it by that record. */
  lemma {:induction false} ScanOfAppend(d: seq<byte>, r: Rec, max: nat, prev: Option<nat>)
    requires Scan(d, max, prev).tail.Clean? && Storable(r, max)
    requires var s := Scan(d, max, prev).records;
      if s != [] then r.sequence > LastSequence(s) else prev.Some? ==> r.sequence > prev.value
    ensures var s := Scan(d, max, prev);
      Scan(d + Encode(r), max, prev) == Scanned(s.records + [r], |d| + |Encode(r)|, Clean)
    decreases |d|
  {
    hide Look, Encode;
    if d == [] {
      assert d + Encode(r) == Encode(r) + [];
      LookOfEncoded(r, max, []);
      assert (Encode(r) + [])[|Encode(r)|..] == [];
    } else {
      var total, first := Look(d, max).total, Look(d, max).rec;
      assert (d + Encode(r))[..|d|] == d;
      LookExtends(d, Encode(r), max);
      assert (d + Encode(r))[total..] == d[total..] + Encode(r);
      ScanOfAppend(d[total..], r, max, Some(first.sequence));
    }
  }

  lemma LookExtends(d: seq<byte>, more: seq<byte>, max: nat)
    requires Look(d, max).Whole?
    ensures Look(d + more, max) == Look(d, max)
  {
    Layout20();
    hide Crc32c, Put, Get, Store, Width;
    var e, total := d + more, Look(d, max).total;
    assert e[..HEADER] == d[..HEADER];
    GetOfPrefix(LAYOUT, e, d);
    assert e[total - TRAILER..total] == d[total - TRAILER..total];
    assert e[..total - TRAILER] == d[..total - TRAILER];
    assert e[HEADER..total - TRAILER] == d[HEADER..total - TRAILER];
  }

  // ---- The scan loop ----------------------------------------------------------------------------

  function Prev(o: ScanOutcome): Option<nat> { if o.records > 0 then Some(o.lastSequence) else None }

  /** The report once the remaining `n` bytes have scanned as `s`. */
  ghost function Extend(o: ScanOutcome, s: Scanned, n: nat): ScanOutcome
    requires s.good <= n
  {
    ScanOutcome(o.lastGoodOffset + s.good, if s.records == [] then o.lastSequence else LastSequence(s.records),
                o.records + |s.records|, n - s.good, s.tail)
  }

  function Accepted(o: ScanOutcome, rec: Rec, total: nat): (r: ScanOutcome)
    ensures r.tail == o.tail && r.discarded == o.discarded && r.lastGoodOffset == o.lastGoodOffset + total
  {
    o.(lastGoodOffset := o.lastGoodOffset + total, lastSequence := rec.sequence, records := o.records + 1)
  }

  /** One turn of the loop against the scan of the remaining bytes. */
  lemma ScanStep(o: ScanOutcome, rest: seq<byte>, max: nat)
    requires rest != [] && o.tail.Clean? && o.discarded == 0
    ensures Look(rest, max).Partial? ==> Continued(o, rest, max) == o.(tail := Torn, discarded := |rest|)
    ensures Look(rest, max).Bad? ==>
      Continued(o, rest, max) == o.(tail := Damaged(Look(rest, max).reason), discarded := |rest|)
    ensures Look(rest, max).Whole? ==>
      Continued(o, rest, max) ==
      if Look(rest, max).rec.sequence <= o.lastSequence && o.records > 0
      then o.(tail := Damaged(SequenceRegression), discarded := |rest|)
      else Continued(Accepted(o, Look(rest, max).rec, Look(rest, max).total), rest[Look(rest, max).total..], max)
  {
    hide Look;
  }

  ghost function Continued(o: ScanOutcome, rest: seq<byte>, max: nat): ScanOutcome {
    Extend(o, Scan(rest, max, Prev(o)), |rest|)
  }

  lemma FromSize(data: seq<byte>, at: nat)
    ensures |From(data, at)| == if at < |data| then |data| - at else 0
    ensures at >= |data| ==> From(data, at) == []
  {
  }

  lemma FromAdvances(data: seq<byte>, at: nat, n: nat)
    requires at + n <= |data|
    ensures n <= |From(data, at)| && From(data, at)[n..] == From(data, at + n)
  {
  }

  lemma ScanEnd(o: ScanOutcome, max: nat)
    requires o.tail.Clean? && o.discarded == 0
    ensures Continued(o, [], max) == o
  {
  }

  lemma ScanBegin(data: seq<byte>, max: nat)
    ensures Report(data, max) == Continued(ScanOutcome(FILE_HEADER, 0, 0, 0, Clean), From(data, FILE_HEADER), max)
  {
    hide Scan;
  }

  /** `scan_records`: one pass with a moving offset. */
  method ScanRecords(data: seq<byte>, max: nat) returns (o: ScanOutcome)
    ensures o == Report(data, max)
  {
    hide *;
    o := ScanOutcome(FILE_HEADER, 0, 0, 0, Clean);
    ScanBegin(data, max);
    while o.lastGoodOffset < |data|
      invariant o.tail == Clean && o.discarded == 0
      invariant Report(data, max) == Continued(o, From(data, o.lastGoodOffset), max)
    {
      var rest := From(data, o.lastGoodOffset);
      FromSize(data, o.lastGoodOffset);
      ScanStep(o, rest, max);
      match Look(rest, max)
      case Partial =>
        return o.(tail := Torn, discarded := |rest|);
      case Bad(r) =>
        return o.(tail := Damaged(r), discarded := |rest|);
      case Whole(rec, total) =>
        if rec.sequence <= o.lastSequence && o.records > 0 {
          return o.(tail := Damaged(SequenceRegression), discarded := |rest|);
        }
        FromAdvances(data, o.lastGoodOffset, total);
        o := Accepted(o, rec, total);
    }
    FromSize(data, o.lastGoodOffset);
    ScanEnd(o, max);
  }
}
