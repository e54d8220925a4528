/** `JournalStore::Impl`: the store as an object over its files (src/journal.cpp). */
module JournalStore {
  import opened Bytes
  import opened Crc
  import opened Units
  import opened Journal
  import opened Disk
  import opened Storage
  import opened Compaction

  // ---- Replay -----------------------------------------------------------------------------------

  /** The pass `replay` makes: unlike the scan it checks neither the length bound nor the order of
      sequences, and an incomplete tail ends it quietly. */
  function Visit(d: seq<byte>, covered: nat): Checked<seq<Rec>>
    decreases |d|
  {
    if |d| < HEADER + TRAILER then Pass([])
    else
      var h := Header(d);
      var total := HEADER + h[0] + TRAILER;
      if |d| < total then Pass([])
      else if !KnownKind(h[1]) then Refuse(StoreCorrupt)
      else if Load(d[total - TRAILER..total]) != Crc32c(d[..total - TRAILER]) then Refuse(StoreCorrupt)
      else
        match Visit(d[total..], covered)
        case Refuse(r) => Refuse(r)
        case Pass(later) => Pass(Visible([Rec(h[1], h[3], d[HEADER..HEADER + h[0]])], covered) + later)
  }

  /** On a journal the scan accepted, replay visits exactly the visible records. */
  lemma {:induction false} ReplayAgreesWithScan(d: seq<byte>, max: nat, prev: Option<nat>, covered: nat)
    requires Scan(d, max, prev).tail.Clean?
    ensures Visit(d, covered) == Pass(Visible(Scan(d, max, prev).records, covered))
    decreases |d|
  {
    if d != [] {
      var rec, total := Look(d, max).rec, Look(d, max).total;
      ReplayAgreesWithScan(d[total..], max, Some(rec.sequence), covered);
      VisibleSplits(rec, Scan(d[total..], max, Some(rec.sequence)).records, covered);
      hide Crc32c, Get, Load;
    }
  }

  lemma VisibleSplits(rec: Rec, rs: seq<Rec>, covered: nat)
    ensures Visible([rec] + rs, covered) == Visible([rec], covered) + Visible(rs, covered)
  {
    assert ([rec] + rs)[1..] == rs && [rec][1..] == [];
  }

  class Impl {
    const options: Options
    var files: Files
    var id: seq<byte>
    var created: nat
    var lastSequence: nat
    var records: nat
    var bytes: nat
    var base: Option<Snapshot>

    function M(): Memory
      reads this
    {
      InMemory(id, created, lastSequence, records, bytes, base)
    }

    constructor (o: Options, f: Files)
      ensures options == o && files == f
    {
      options, files := o, f;
      id, created, lastSequence, records, bytes, base := [], 0, 0, 0, 0, None;
    }

    /** `open`: nothing but the tail of the journal file is changed, and only when it succeeds. */
    method Open(newId: seq<byte>, now: nat) returns (refused: Option<Refusal>)
      modifies this
      ensures match Storage.Open(old(files), options, newId, now)
        case Pass((f, m)) => refused == None && files == f && M() == m
        case Refuse(r) => refused == Some(r) && files == old(files)
    {
      hide CheckHeader, ReadBase, Report;
      if files.journal == [] {
        id := if options.expected.Some? then options.expected.value else newId;
        if |id| != 32 { return Some(InvalidConfiguration); }
        files := files.(journal := BuildHeader(id, now));
        created, lastSequence, records, bytes, base := now, 0, 0, FILE_HEADER, None;
        return None;
      }
      if |files.journal| > ReadLimit(options) { return Some(OversizedInput); }
      var header := CheckHeader(files.journal, options);
      if header.Refuse? { return Some(header.reason); }
      id, created := header.value.0, header.value.1;
      var snapshot := ReadBase(files.snapshot, options);
      if snapshot.Refuse? { return Some(snapshot.reason); }
      base := snapshot.value;
      var outcome := ScanRecords(files.journal, options.maxRecord);
      lastSequence, records, bytes := outcome.lastSequence, outcome.records, |files.journal|;
      if outcome.tail.Clean? { return None; }
      if !((outcome.tail.Torn? && options.policy.TruncateTornTail?) || options.policy.TruncateDamagedTail?) {
        return Some(TailReason(outcome.tail));
      }
      OffsetInFile(files.journal, options);
      files := files.(journal := files.journal[..outcome.lastGoodOffset]);
      bytes := outcome.lastGoodOffset;
      return None;
    }

    /** `append`: the record is built in a buffer and written after the journal. */
    method Append(kind: nat, payload: seq<byte>) returns (refused: Option<Refusal>)
      modifies this
      ensures (files, M(), refused) == Storage.Append(old(files), old(M()), options, kind, payload)
    {
      hide Encode;
      if |payload| > options.maxRecord { return Some(OversizedInput); }
      var size := HEADER + |payload| + TRAILER;
      if bytes + size > 2 * options.maxJournal { return Some(CompactionRequired); }
      if lastSequence >= U64_MAX { return Some(ArithmeticOverflow); }
      var record := BuildRecord(Rec(kind, lastSequence + 1, payload));
      files := files.(journal := files.journal + record);
      lastSequence, records, bytes := lastSequence + 1, records + 1, bytes + size;
      return None;
    }

    /** `replay`. */
    method Replay() returns (visited: Checked<seq<Rec>>)
      requires Valid(files, M(), options)
      ensures visited == Pass(Visible(Contents(files, options), Covered(base)))
    {
      var d := Unframed(files.journal);
      ReplayAgreesWithScan(d, options.maxRecord, None, Covered(base));
      hide Contents, Scan, Valid;
      visited := VisitAll(d, Covered(base));
    }

    /** `compact`: snapshot first, then a fresh journal, then the base record. */
    method Compact(payload: seq<byte>, covered: nat, generation: nat) returns (refused: Option<Refusal>)
      requires |id| == 32
      modifies this
      ensures (files, M(), refused) == Compaction.Compact(old(files), old(M()), options, Snapshot(payload, covered, generation))
    {
      hide WriteSnapshot, BuildHeader, Storage.Append, BaseRecord;
      if |payload| > options.maxSnapshot { return Some(OversizedInput); }
      if covered < Covered(base) { return Some(SequenceRegression); }
      var s := Snapshot(payload, covered, generation);
      files := files.(snapshot := Some(WriteSnapshot(s)));
      files := files.(journal := BuildHeader(id, created));
      bytes, records, lastSequence, base := FILE_HEADER, 0, covered, Some(s);
      refused := Append(SNAPSHOT_BASE, BaseRecord(s).payload);
    }
  }

  lemma OffsetInFile(d: seq<byte>, o: Options)
    requires CheckHeader(d, o).Pass?
    ensures Report(d, o.maxRecord).lastGoodOffset <= |d|
  {
  }

  method VisitAll(d: seq<byte>, covered: nat) returns (visited: Checked<seq<Rec>>)
    ensures visited == Visit(d, covered)
  {
    hide Crc32c, Load, Header, Visible;
    var offset: nat, seen: seq<Rec> := 0, [];
    assert d[0..] == d;
    JoinedLaws([], [], Visit(d, covered));
    while offset < |d|
      invariant offset <= |d|
      invariant Visit(d, covered) == Joined(seen, Visit(d[offset..], covered))
    {
      var rest := d[offset..];
      assert seen + [] == seen;
      if |rest| < HEADER + TRAILER { return Pass(seen); }
      var h := Header(rest);
      var total := HEADER + h[0] + TRAILER;
      if |rest| < total { return Pass(seen); }
      if !KnownKind(h[1]) { return Refuse(StoreCorrupt); }
      if Load(rest[total - TRAILER..total]) != Crc32c(rest[..total - TRAILER]) { return Refuse(StoreCorrupt); }
      assert rest[total..] == d[offset + total..];
      var visible := Visible([Rec(h[1], h[3], rest[HEADER..HEADER + h[0]])], covered);
      JoinedLaws(seen, visible, Visit(rest[total..], covered));
      seen, offset := seen + visible, offset + total;
    }
    assert d[offset..] == [] && seen + [] == seen;
    visited := Pass(seen);
  }

  ghost function Joined(seen: seq<Rec>, later: Checked<seq<Rec>>): Checked<seq<Rec>> {
    match later
    case Refuse(r) => Refuse(r)
    case Pass(rs) => Pass(seen + rs)
  }

  lemma JoinedLaws(a: seq<Rec>, b: seq<Rec>, later: Checked<seq<Rec>>)
    ensures Joined(a, Joined(b, later)) == Joined(a + b, later) && Joined([], later) == later
  {
    if later.Pass? { assert [] + later.value == later.value; assert a + (b + later.value) == (a + b) + later.value; }
  }

  /** The buffer `append` fills. */
  method BuildRecord(r: Rec) returns (record: seq<byte>)
    ensures record == Encode(r)
  {
    hide Store, Crc32c;
    var size := HEADER + |r.payload| + TRAILER;
    var out := new byte[size](_ => 0);
    StoreAt(out, 0, 4, |r.payload|);
    StoreAt(out, 4, 2, r.kind);
    StoreAt(out, 6, 2, 0);
    StoreAt(out, 8, 8, r.sequence);
    StoreAt(out, 16, 4, 0);
    HeaderUnfolds(r);
    CopyAt(out, HEADER, r.payload);
    assert out[..size - TRAILER] == Body(r);
    var crc := TableCrc32c(out[..size - TRAILER]);
    StoreAt(out, size - TRAILER, 4, crc);
    assert out[..] == out[..size];
    record := out[..];
  }

  lemma HeaderUnfolds(r: Rec)
    ensures Put(LAYOUT, Fields(r)) ==
      Store(4, |r.payload|) + Store(2, r.kind) + Store(2, 0) + Store(8, r.sequence) + Store(4, 0)
  {
    hide Store;
    var v := Fields(r);
    assert Put([4], [v[4]]) == Store(4, v[4]);
    assert Put([8, 4], v[3..]) == Store(8, v[3]) + Put([4], v[4..]);
    assert Put([2, 8, 4], v[2..]) == Store(2, v[2]) + Put([8, 4], v[3..]);
    assert Put([2, 2, 8, 4], v[1..]) == Store(2, v[1]) + Put([2, 8, 4], v[2..]);
  }
}
