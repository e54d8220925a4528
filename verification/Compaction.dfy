/** Compaction and its crash points (`compact` in src/journal.cpp). */
module Compaction {
  import opened Bytes
  import opened Units
  import opened Journal
  import opened Disk
  import opened Storage

  /** Where a crash may fall: before the snapshot is swapped in, between the two swaps, or after
      the journal swap with only some bytes of the base record written. */
  datatype CrashPoint = BeforeSnapshotSwap | BeforeJournalSwap | InBaseRecord(written: nat)

  function BaseRecord(s: Snapshot): Rec {
    Rec(SNAPSHOT_BASE, s.covered + 1, Store(8, s.covered) + Store(8, s.generation) + Store(8, 0))
  }

  const BASE_SIZE: nat := HEADER + 24 + TRAILER

  /** The files a crash at `p` leaves. */
  function Leftover(f: Files, m: Memory, s: Snapshot, p: CrashPoint): Files
    requires |m.id| == 32
  {
    match p
    case BeforeSnapshotSwap => f
    case BeforeJournalSwap => f.(snapshot := Some(WriteSnapshot(s)))
    case InBaseRecord(n) => Rewritten(m, s, n)
  }

  function BasePrefix(s: Snapshot, n: nat): seq<byte> {
    Encode(BaseRecord(s))[..if n < BASE_SIZE then n else BASE_SIZE]
  }

  /** Both files new, with at most `n` bytes of the base record. */
  function Rewritten(m: Memory, s: Snapshot, n: nat): Files
    requires |m.id| == 32
  {
    Files(BuildHeader(m.id, m.created) + BasePrefix(s, n), Some(WriteSnapshot(s)))
  }

  function RewrittenMemory(m: Memory, s: Snapshot, n: nat): Memory {
    if n < BASE_SIZE then InMemory(m.id, m.created, 0, 0, FILE_HEADER, Some(s))
    else InMemory(m.id, m.created, s.covered + 1, 1, FILE_HEADER + BASE_SIZE, Some(s))
  }

  function RewrittenRecords(s: Snapshot, n: nat): seq<Rec> {
    if n < BASE_SIZE then [] else [BaseRecord(s)]
  }

  /** What the caller of `compact` passes: everything up to the current sequence, numbers in range. */
  predicate Compactable(f: Files, m: Memory, o: Options, s: Snapshot) {
    Valid(f, m, o) && Encodable(s) && s.covered == m.lastSequence < U64_MAX && |s.payload| <= o.maxSnapshot
  }

  predicate Interrupted(p: CrashPoint) { p.InBaseRecord? && 0 < p.written < BASE_SIZE }

  /** `compact`: install the snapshot, install a journal that is only its header, append the base. */
  function Compact(f: Files, m: Memory, o: Options, s: Snapshot): (Files, Memory, Option<Refusal>)
    requires |m.id| == 32
  {
    if |s.payload| > o.maxSnapshot then (f, m, Some(OversizedInput))
    else if s.covered < Covered(m.base) then (f, m, Some(SequenceRegression))
    else
      Append(Files(BuildHeader(m.id, m.created), Some(WriteSnapshot(s))),
             InMemory(m.id, m.created, s.covered, 0, FILE_HEADER, Some(s)), o, SNAPSHOT_BASE, BaseRecord(s).payload)
  }

  /** Without a crash, compaction ends in the last of the crash points. */
  lemma CompactCompletes(f: Files, m: Memory, o: Options, s: Snapshot)
    requires |m.id| == 32 && |s.payload| <= o.maxSnapshot && Covered(m.base) <= s.covered < U64_MAX
    ensures Compact(f, m, o, s) == (Leftover(f, m, s, InBaseRecord(BASE_SIZE)), RewrittenMemory(m, s, BASE_SIZE), None)
  {
    hide Encode, WriteSnapshot, BuildHeader, Store;
    assert BasePrefix(s, BASE_SIZE) == Encode(BaseRecord(s));
  }

  /** The memory recovered at `p`: the old one, or one based on the new snapshot. */
  function Recovered(f: Files, m: Memory, o: Options, s: Snapshot, p: CrashPoint): Memory {
    match p
    case BeforeSnapshotSwap => m.(lastSequence := LastSequence(Contents(f, o)))
    case BeforeJournalSwap => m.(lastSequence := LastSequence(Contents(f, o)), base := Some(s))
    case InBaseRecord(n) => RewrittenMemory(m, s, n)
  }

  /** The records recovered at `p`. */
  function Kept(f: Files, o: Options, s: Snapshot, p: CrashPoint): seq<Rec> {
    match p
    case BeforeSnapshotSwap => Contents(f, o)
    case BeforeJournalSwap => Contents(f, o)
    case InBaseRecord(n) => RewrittenRecords(s, n)
  }

  lemma HeaderFacts(d: seq<byte>, o: Options)
    requires CheckHeader(d, o).Pass?
    ensures var (id, created) := CheckHeader(d, o).value;
      |id| == 32 && ValidToken(id) && created < Pow256(8) && (o.expected.Some? ==> o.expected.value == id)
  {
  }

  /** The rewritten journal scans as the records still complete in it. */
  lemma RewrittenScan(m: Memory, s: Snapshot, n: nat, o: Options)
    requires |m.id| == 32 && Encodable(s) && s.covered < U64_MAX
    ensures Scan(Unframed(Rewritten(m, s, n).journal), o.maxRecord, None) ==
      Scanned(RewrittenRecords(s, n), if n < BASE_SIZE then 0 else BASE_SIZE, if 0 < n < BASE_SIZE then Torn else Clean)
    ensures |Rewritten(m, s, n).journal| == FILE_HEADER + if n < BASE_SIZE then n else BASE_SIZE
  {
    hide Encode, BuildHeader, Look, Scan, WriteSnapshot;
    Widths();
    var b, k := BaseRecord(s), if n < BASE_SIZE then n else BASE_SIZE;
    assert Unframed(Rewritten(m, s, n).journal) == Encode(b)[..k];
    assert Write([b]) == Encode(b) by { assert Write([b]) == Encode(b) + Write([b][1..]) && [b][1..] == []; }
    assert Rising([b], None) && WellFormed([b], o.maxRecord, None);
    TruncationIsNeverDamage([b], k, o.maxRecord, None);
    assert Complete([b], k) == if n < BASE_SIZE then 0 else 1;
    assert [b][..1] == [b] && [b][..0] == [];
  }

  /** Opening `f` succeeds with this memory and these records. */
  predicate OpensAs(f: Files, o: Options, id: seq<byte>, now: nat, m: Memory, records: seq<Rec>) {
    var again := Open(f, o, id, now);
    again.Pass? && again.value.1 == m && Contents(again.value.0, o) == records
  }

  lemma OpensByScan(f: Files, o: Options, id: seq<byte>, now: nat, m: Memory, sc: Scanned)
    requires CheckHeader(f.journal, o) == Pass((m.id, m.created)) && |f.journal| <= ReadLimit(o)
    requires ReadBase(f.snapshot, o) == Pass(m.base)
    requires sc == Scan(Unframed(f.journal), o.maxRecord, None) && (sc.tail.Clean? || (sc.tail.Torn? && !o.policy.RefuseTails?))
    requires m.lastSequence == LastSequence(sc.records) && m.records == |sc.records|
    requires m.bytes == if sc.tail.Clean? then |f.journal| else FILE_HEADER + sc.good
    ensures OpensAs(f, o, id, now, m, sc.records)
  {
    hide CheckHeader, ReadBase, Scan, Valid;
    OpenIsValid(f, o, id, now);
  }

  lemma Refused(f: Files, o: Options, id: seq<byte>, now: nat)
    requires CheckHeader(f.journal, o).Pass? && |f.journal| <= ReadLimit(o)
    requires ReadBase(f.snapshot, o) == Refuse(OversizedInput)
    ensures Open(f, o, id, now) == Refuse(OversizedInput)
  {
    hide CheckHeader, ReadBase, Scan;
  }

  lemma BaseReadsBackIff(s: Snapshot, o: Options)
    requires Encodable(s)
    ensures ReadBase(Some(WriteSnapshot(s)), o) ==
      if |s.payload| + SNAPSHOT_HEADER <= o.maxSnapshot then Pass(Some(s)) else Refuse(OversizedInput)
  {
    SnapshotReadsBackIff(s, o);
    hide ReadSnapshot, WriteSnapshot;
  }

  lemma CrashBetweenSwaps(f: Files, m: Memory, o: Options, s: Snapshot, id: seq<byte>, now: nat)
    requires Compactable(f, m, o, s)
    ensures var left := f.(snapshot := Some(WriteSnapshot(s)));
      if |s.payload| + SNAPSHOT_HEADER <= o.maxSnapshot
      then OpensAs(left, o, id, now, m.(lastSequence := LastSequence(Contents(f, o)), base := Some(s)), Contents(f, o))
      else Open(left, o, id, now) == Refuse(OversizedInput)
  {
    hide CheckHeader, ReadBase, Scan, WriteSnapshot, Open, OpensAs;
    BaseReadsBackIff(s, o);
    var left := f.(snapshot := Some(WriteSnapshot(s)));
    if |s.payload| + SNAPSHOT_HEADER <= o.maxSnapshot {
      OpensByScan(left, o, id, now, m.(lastSequence := LastSequence(Contents(f, o)), base := Some(s)),
                  Scan(Unframed(f.journal), o.maxRecord, None));
    } else {
      Refused(left, o, id, now);
    }
  }

  lemma CrashAfterSwaps(m: Memory, o: Options, s: Snapshot, n: nat, id: seq<byte>, now: nat)
    requires |m.id| == 32 && ValidToken(m.id) && m.created < Pow256(8) && (o.expected.Some? ==> o.expected.value == m.id)
    requires Encodable(s) && s.covered < U64_MAX && (0 < n < BASE_SIZE ==> !o.policy.RefuseTails?)
    ensures
      if |s.payload| + SNAPSHOT_HEADER <= o.maxSnapshot
      then OpensAs(Rewritten(m, s, n), o, id, now, RewrittenMemory(m, s, n), RewrittenRecords(s, n))
      else Open(Rewritten(m, s, n), o, id, now) == Refuse(OversizedInput)
  {
    hide CheckHeader, ReadBase, Scan, WriteSnapshot, Open, OpensAs, BuildHeader, Encode, Encodable, ValidToken, Unframed, BasePrefix;
    var left := Rewritten(m, s, n);
    RewrittenScan(m, s, n, o);
    BaseReadsBackIff(s, o);
    HeaderReadsBack(m.id, m.created, BasePrefix(s, n), o);
    if |s.payload| + SNAPSHOT_HEADER <= o.maxSnapshot {
      OpensByScan(left, o, id, now, RewrittenMemory(m, s, n), Scan(Unframed(left.journal), o.maxRecord, None));
    } else {
      Refused(left, o, id, now);
    }
  }

  /** Exactly when a crash during compaction is recoverable, and as what: always before the
      snapshot swap; afterwards if and only if the snapshot file can be read back. */
  lemma CrashIsRecoverableIff(f: Files, m: Memory, o: Options, s: Snapshot, p: CrashPoint, id: seq<byte>, now: nat)
    requires Compactable(f, m, o, s) && (Interrupted(p) ==> !o.policy.RefuseTails?)
    ensures |m.id| == 32
    ensures
      if p.BeforeSnapshotSwap? || |s.payload| + SNAPSHOT_HEADER <= o.maxSnapshot
      then OpensAs(Leftover(f, m, s, p), o, id, now, Recovered(f, m, o, s, p), Kept(f, o, s, p))
      else Open(Leftover(f, m, s, p), o, id, now) == Refuse(OversizedInput)
  {
    HeaderFacts(f.journal, o);
    hide CheckHeader, ReadBase, Scan, WriteSnapshot, BuildHeader, Encode, Encodable, ValidToken;
    match p
    case BeforeSnapshotSwap =>
      ReopenForgetsOnlyTheCounter(f, m, o, id, now);
    case BeforeJournalSwap =>
      CrashBetweenSwaps(f, m, o, s, id, now);
    case InBaseRecord(n) =>
      CrashAfterSwaps(m, o, s, n, id, now);
  }

  lemma {:induction false} NothingVisible(rs: seq<Rec>, prev: Option<nat>, covered: nat)
    requires Rising(rs, prev) && LastSequence(rs) <= covered
    ensures Visible(rs, covered) == []
  {
    if rs != [] {
      RisingToLast(rs, prev);
      if |rs| > 1 { assert LastSequence(rs[1..]) == LastSequence(rs); }
      NothingVisible(rs[1..], Some(rs[0].sequence), covered);
    }
  }

  lemma {:induction false} RisingToLast(rs: seq<Rec>, prev: Option<nat>)
    requires rs != [] && Rising(rs, prev)
    ensures rs[0].sequence <= LastSequence(rs)
  {
    if |rs| > 1 {
      RisingToLast(rs[1..], Some(rs[0].sequence));
      assert LastSequence(rs[1..]) == LastSequence(rs);
    }
  }

  /** What is kept at `p` beyond the recovered base is nothing new. */
  lemma KeptIsCovered(f: Files, m: Memory, o: Options, s: Snapshot, p: CrashPoint)
    requires Compactable(f, m, o, s) && !p.BeforeSnapshotSwap?
    ensures Visible(Kept(f, o, s, p), s.covered) == []
  {
    hide Scan, CheckHeader, ReadBase, Unframed;
    CutAtGoodIsClean(Unframed(f.journal), o.maxRecord, None);
    if p.BeforeJournalSwap? { NothingVisible(Contents(f, o), None, s.covered); } else { BaseIsInvisible(s); }
  }

  /** What a crash point recovers: the old state before the snapshot swap, the snapshot after it. */
  lemma CrashRecoversOldOrSnapshot<S>(initial: S, load: seq<byte> -> S, step: (S, Rec) -> S,
                                      f: Files, m: Memory, o: Options, s: Snapshot, p: CrashPoint, id: seq<byte>, now: nat)
    requires Compactable(f, m, o, s) && (Interrupted(p) ==> !o.policy.RefuseTails?)
    requires |s.payload| + SNAPSHOT_HEADER <= o.maxSnapshot
    ensures |m.id| == 32
    ensures var again := Open(Leftover(f, m, s, p), o, id, now);
      again.Pass? && Logical(initial, load, step, again.value.0, again.value.1, o) ==
      if p.BeforeSnapshotSwap? then Logical(initial, load, step, f, m, o) else load(s.payload)
  {
    hide Open, Contents, Leftover, Compactable, Visible, Rewritten, RewrittenRecords;
    CrashIsRecoverableIff(f, m, o, s, p, id, now);
    if !p.BeforeSnapshotSwap? { KeptIsCovered(f, m, o, s, p); }
  }

  /** Compaction is crash-safe: with a snapshot of the current state that the store can read back,
      every crash point recovers that same state. */
  lemma CompactionIsCrashSafe<S>(initial: S, load: seq<byte> -> S, step: (S, Rec) -> S,
                                 f: Files, m: Memory, o: Options, s: Snapshot, p: CrashPoint, id: seq<byte>, now: nat)
    requires Compactable(f, m, o, s) && (Interrupted(p) ==> !o.policy.RefuseTails?)
    requires load(s.payload) == Logical(initial, load, step, f, m, o)
    requires |s.payload| + SNAPSHOT_HEADER <= o.maxSnapshot
    ensures |m.id| == 32
    ensures var again := Open(Leftover(f, m, s, p), o, id, now);
      again.Pass? && Logical(initial, load, step, again.value.0, again.value.1, o) == Logical(initial, load, step, f, m, o)
  {
    hide Open, Leftover, Compactable, Logical;
    CrashRecoversOldOrSnapshot(initial, load, step, f, m, o, s, p, id, now);
  }

  lemma BaseIsInvisible(s: Snapshot)
    ensures Visible([BaseRecord(s)], s.covered) == []
  {
  }

  /** After a crash in the base record the counter tells the two outcomes apart: with the whole
      record on disk the next record is visible; without it the store numbers its records from one
      again, and while the counter is behind the snapshot what it acknowledges is never replayed. */
  lemma AppendAfterCrashVisibleIff(f: Files, m: Memory, o: Options, s: Snapshot, n: nat, id: seq<byte>, now: nat,
                                   f1: Files, m1: Memory, kind: nat, payload: seq<byte>)
    requires Compactable(f, m, o, s) && |s.payload| + SNAPSHOT_HEADER <= o.maxSnapshot
    requires Interrupted(InBaseRecord(n)) ==> !o.policy.RefuseTails?
    requires KnownKind(kind) && kind != SNAPSHOT_BASE && |payload| < Pow256(4)
    requires |m.id| == 32 && Open(Rewritten(m, s, n), o, id, now) == Pass((f1, m1))
    requires Append(f1, m1, o, kind, payload).2.None?
    ensures var (f2, m2, _) := Append(f1, m1, o, kind, payload);
      Visible(Contents(f2, o), Covered(m2.base)) ==
      if n >= BASE_SIZE || s.covered == 0 then [Rec(kind, m1.lastSequence + 1, payload)] else []
  {
    hide Open, Valid, Compactable, Contents, Append, Rewritten, BaseRecord;
    RewrittenIsValid(f, m, o, s, n, id, now, f1, m1);
    BaseIsInvisible(s);
    AppendVisibleIff(f1, m1, o, kind, payload);
  }

  lemma RewrittenIsValid(f: Files, m: Memory, o: Options, s: Snapshot, n: nat, id: seq<byte>, now: nat, f1: Files, m1: Memory)
    requires Compactable(f, m, o, s) && |s.payload| + SNAPSHOT_HEADER <= o.maxSnapshot
    requires Interrupted(InBaseRecord(n)) ==> !o.policy.RefuseTails?
    requires |m.id| == 32 && Open(Rewritten(m, s, n), o, id, now) == Pass((f1, m1))
    ensures Valid(f1, m1, o) && m1 == RewrittenMemory(m, s, n) && Contents(f1, o) == RewrittenRecords(s, n)
  {
    hide Open, Valid, Compactable, Contents, BaseRecord, BuildHeader, WriteSnapshot;
    CrashIsRecoverableIff(f, m, o, s, InBaseRecord(n), id, now);
    assert Rewritten(m, s, n).journal != [];
    OpenIsValid(Rewritten(m, s, n), o, id, now);
  }
}
