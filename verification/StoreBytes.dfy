/** What the journal store accepts, over the bytes themselves: records, torn and damaged tails, headers
    and snapshots, and what `open`, `append` and `compact` then do (src/journal.cpp). */
module StoreBytes {
  import opened Bytes
  import opened Crc
  import opened Units
  import opened Journal
  import opened Disk
  import opened Storage
  import opened Compaction

  // ---- The fields of a record, by offset -------------------------------------------------------

  function U16(d: seq<byte>, at: nat): nat
    requires at + 2 <= |d|
  {
    var low: nat, high: nat := d[at], d[at + 1];
    low + 0x100 * high
  }

  function U32(d: seq<byte>, at: nat): nat
    requires at + 4 <= |d|
  {
    U16(d, at) + 0x1_0000 * U16(d, at + 2)
  }

  function U64At(d: seq<byte>, at: nat): nat
    requires at + 8 <= |d|
  {
    U32(d, at) + 0x1_0000_0000 * U32(d, at + 4)
  }

  /** Twenty header bytes, the declared payload, four checksum bytes. */
  predicate LongEnough(d: seq<byte>, max: nat) { |d| >= 24 && U32(d, 0) <= max && 24 + U32(d, 0) <= |d| }

  /** Too short to hold what it announces. */
  predicate CutShort(d: seq<byte>, max: nat) { |d| < 24 || (U32(d, 0) <= max && |d| < 24 + U32(d, 0)) }

  predicate Intact(d: seq<byte>)
    requires |d| >= 24 && 24 + U32(d, 0) <= |d|
  {
    1 <= U16(d, 4) <= 16 && U32(d, 20 + U32(d, 0)) == Crc32c(d[..20 + U32(d, 0)])
  }

  /** A record in front of the bytes: its kind, sequence and payload, under a matching checksum. */
  predicate InFront(d: seq<byte>, rec: Rec, max: nat) {
    && LongEnough(d, max) && Intact(d)
    && rec == Rec(U16(d, 4), U64At(d, 8), d[20..20 + U32(d, 0)])
  }

  lemma LoadOf2(d: seq<byte>, at: nat)
    requires at + 2 <= |d|
    ensures Load(d[at..at + 2]) == U16(d, at)
  {
    var s := d[at..at + 2];
    assert s[1..] == [d[at + 1]] && s[1..][1..] == [];
  }

  lemma LoadOf4(d: seq<byte>, at: nat)
    requires at + 4 <= |d|
    ensures Load(d[at..at + 4]) == U32(d, at)
  {
    var s := d[at..at + 4];
    LoadOf2(d, at + 2);
    assert s[1..][1..] == d[at + 2..at + 4] && s[0] == d[at] && s[1..][0] == d[at + 1];
  }

  lemma LoadOf8(d: seq<byte>, at: nat)
    requires at + 8 <= |d|
    ensures Load(d[at..at + 8]) == U64At(d, at)
  {
    var s := d[at..at + 8];
    LoadOf4(d, at + 4);
    LoadOf4(d, at);
    var head := d[at..at + 4];
    assert s[1..][1..][1..][1..] == d[at + 4..at + 8] && head[1..][1..][1..][1..] == [];
    assert Load(s[1..][1..][1..]) == Load(head[1..][1..][1..]) + 0x100 * Load(d[at + 4..at + 8]);
    assert Load(s[1..][1..]) == Load(head[1..][1..]) + 0x1_0000 * Load(d[at + 4..at + 8]);
    assert Load(s[1..]) == Load(head[1..]) + 0x100_0000 * Load(d[at + 4..at + 8]);
  }

  lemma {:induction false} WidthGrows(ws: seq<nat>, i: nat)
    requires i < |ws|
    ensures Width(ws[..i + 1]) == Width(ws[..i]) + ws[i]
  {
    if i == 0 {
      assert ws[..1] == [ws[0]] && [ws[0]][1..] == [] && ws[..0] == [];
    } else {
      WidthGrows(ws[1..], i - 1);
      assert ws[..i][1..] == ws[1..][..i - 1] && ws[..i + 1][1..] == ws[1..][..i];
    }
  }

  /** A field of a layout stands at the sum of the widths before it. */
  lemma {:induction false} FieldAt(ws: seq<nat>, s: seq<byte>, i: nat)
    requires Width(ws) <= |s| && i < |ws|
    ensures Width(ws[..i]) + ws[i] <= |s| && Get(ws, s)[i] == Load(s[Width(ws[..i])..Width(ws[..i]) + ws[i]])
  {
    hide Load;
    if i == 0 {
      assert ws[..0] == [] && s[0..ws[0]] == s[..ws[0]];
    } else {
      FieldAt(ws[1..], s[ws[0]..], i - 1);
      assert ws[..i][1..] == ws[1..][..i - 1];
      var at := Width(ws[1..][..i - 1]);
      assert s[ws[0]..][at..at + ws[i]] == s[ws[0] + at..ws[0] + at + ws[i]];
    }
  }

  lemma HeaderIs(d: seq<byte>)
    requires |d| >= 24
    ensures Header(d)[0] == U32(d, 0) && Header(d)[1] == U16(d, 4) && Header(d)[3] == U64At(d, 8)
  {
    hide Load, Get, Width;
    Layout20();
    forall i | 0 <= i < 3 { WidthGrows(LAYOUT, i); }
    forall i | 0 <= i < 4 { FieldAt(LAYOUT, d, i); }
    NoWidth(LAYOUT);
    assert Width(LAYOUT[..1]) == 4 && Width(LAYOUT[..2]) == 6 && Width(LAYOUT[..3]) == 8;
    LoadOf4(d, 0);
    LoadOf2(d, 4);
    LoadOf8(d, 8);
  }

  lemma NoWidth(ws: seq<nat>) ensures Width(ws[..0]) == 0 {}

  /** What stands at the front of arbitrary bytes. */
  lemma LookIs(d: seq<byte>, max: nat)
    ensures Look(d, max).Partial? <==> CutShort(d, max)
    ensures forall rec, total :: Look(d, max) == Whole(rec, total) <==> InFront(d, rec, max) && total == 24 + |rec.payload|
    ensures Look(d, max) == Bad(OversizedInput) <==> |d| >= 24 && U32(d, 0) > max
    ensures Look(d, max) == Bad(StoreCorrupt) <==> LongEnough(d, max) && !Intact(d)
    ensures Look(d, max).Bad? ==> Look(d, max).reason == OversizedInput || Look(d, max).reason == StoreCorrupt
  {
    hide Crc32c, Load;
    if |d| >= 24 {
      HeaderIs(d);
      hide Header, U64At;
      var n := U32(d, 0);
      if n <= max && 24 + n <= |d| { LoadOf4(d, 20 + n); }
    }
  }

  // ---- The scan ---------------------------------------------------------------------------------

  /** The bytes are exactly these records, one after the other, sequences rising. */
  ghost predicate Chain(d: seq<byte>, records: seq<Rec>, max: nat, prev: Option<nat>)
    decreases |records|
  {
    if records == [] then d == []
    else
      && InFront(d, records[0], max) && (prev.Some? ==> prev.value < records[0].sequence)
      && Chain(d[24 + |records[0].payload|..], records[1..], max, Some(records[0].sequence))
  }

  function LastOf(records: seq<Rec>, prev: Option<nat>): Option<nat> {
    if records == [] then prev else Some(records[|records| - 1].sequence)
  }

  /** How the bytes after the last good record are classified. */
  ghost predicate Classified(rest: seq<byte>, max: nat, prev: Option<nat>, tail: Tail) {
    && (tail.Clean? <==> rest == [])
    && (tail.Torn? <==> rest != [] && CutShort(rest, max))
    && (tail == Damaged(OversizedInput) <==> |rest| >= 24 && U32(rest, 0) > max)
    && (tail == Damaged(StoreCorrupt) <==> LongEnough(rest, max) && !Intact(rest))
    && (tail == Damaged(SequenceRegression) <==>
          LongEnough(rest, max) && Intact(rest) && prev.Some? && U64At(rest, 8) <= prev.value)
    && (tail.Damaged? ==> tail.reason in {OversizedInput, StoreCorrupt, SequenceRegression})
  }

  /** Whatever the bytes: the scan takes the intact records with rising sequences in front, and what
      follows the last of them is clean, torn or damaged by its own bytes alone. */
  lemma {:induction false} ScanClassifies(d: seq<byte>, max: nat, prev: Option<nat>)
    ensures
      var s := Scan(d, max, prev);
      Chain(d[..s.good], s.records, max, prev) && Classified(d[s.good..], max, LastOf(s.records, prev), s.tail)
    decreases |d|
  {
    hide Look, InFront, CutShort, LongEnough, Intact, U64At, U32;
    var s := Scan(d, max, prev);
    assert d[..0] == [] && d[0..] == d;
    FrontExcludes(d, max);
    if d != [] {
      LookIs(d, max);
      match Look(d, max)
      case Whole(rec, total) =>
        InFrontFields(d, rec, max);
        if !(prev.Some? && rec.sequence <= prev.value) {
          var later := Scan(d[total..], max, Some(rec.sequence));
          ScanClassifies(d[total..], max, Some(rec.sequence));
          assert d[..s.good][total..] == d[total..][..later.good] && d[s.good..] == d[total..][later.good..];
          InFrontOfPrefix(d, s.good, rec, max);
          assert s.records[1..] == later.records && LastOf(s.records, prev) == LastOf(later.records, Some(rec.sequence));
        }
      case _ =>
    }
  }

  lemma FrontExcludes(d: seq<byte>, max: nat)
    ensures !(CutShort(d, max) && LongEnough(d, max)) && (|d| >= 24 && U32(d, 0) > max ==> !CutShort(d, max) && !LongEnough(d, max))
    ensures CutShort(d, max) || LongEnough(d, max) || (|d| >= 24 && U32(d, 0) > max)
    ensures LongEnough(d, max) ==> |d| >= 24 && 24 + U32(d, 0) <= |d|
  {
  }

  lemma InFrontFields(d: seq<byte>, rec: Rec, max: nat)
    requires InFront(d, rec, max)
    ensures LongEnough(d, max) && |d| >= 24 && Intact(d) && U64At(d, 8) == rec.sequence && 24 + |rec.payload| <= |d|
  {
  }

  lemma InFrontOfPrefix(d: seq<byte>, n: nat, rec: Rec, max: nat)
    requires InFront(d, rec, max) && 24 + |rec.payload| <= n <= |d|
    ensures InFront(d[..n], rec, max)
  {
    hide Crc32c;
    var p := d[..n];
    assert p[..20 + U32(d, 0)] == d[..20 + U32(d, 0)] && p[20..20 + U32(d, 0)] == d[20..20 + U32(d, 0)];
  }

  // ---- Opening ------------------------------------------------------------------------------------

  /** Header, snapshot and size are in order, so that the tail decides. */
  predicate Openable(f: Files, o: Disk.Options) {
    f.journal != [] && |f.journal| <= ReadLimit(o) && CheckHeader(f.journal, o).Pass? && ReadBase(f.snapshot, o).Pass?
  }

  /** `open` keeps a clean journal, cuts a torn tail only where the policy allows, and cuts damage only
      under TruncateDamagedTail; otherwise it refuses with the reason of the tail. */
  lemma OpenJudgesTail(f: Files, o: Disk.Options, id: seq<byte>, now: nat)
    requires Openable(f, o)
    ensures
      var s := Scan(Unframed(f.journal), o.maxRecord, None);
      var result := Storage.Open(f, o, id, now);
      match s.tail
      case Clean => result.Pass? && result.value.0 == f
      case Torn =>
        if o.policy.RefuseTails? then result == Refuse(JournalTornTail)
        else result.Pass? && result.value.0 == f.(journal := f.journal[..64 + s.good])
      case Damaged(reason) =>
        if o.policy.TruncateDamagedTail? then result.Pass? && result.value.0 == f.(journal := f.journal[..64 + s.good])
        else result == Refuse(reason)
  {
    hide CheckHeader, ReadBase, Scan;
  }

  /** A complete record whose checksum, kind or sequence is wrong is never mistaken for an interrupted
      write: unless damage may be cut away, the store is refused. */
  lemma DamageIsRefused(f: Files, o: Disk.Options, id: seq<byte>, now: nat)
    requires Openable(f, o) && !o.policy.TruncateDamagedTail?
    requires
      var s := Scan(Unframed(f.journal), o.maxRecord, None);
      var rest := Unframed(f.journal)[s.good..];
      LongEnough(rest, o.maxRecord)
    ensures
      var s := Scan(Unframed(f.journal), o.maxRecord, None);
      var rest := Unframed(f.journal)[s.good..];
      Storage.Open(f, o, id, now) == Refuse(if Intact(rest) then SequenceRegression else StoreCorrupt)
  {
    hide Scan, Openable, Storage.Open, U32, U64At, Intact, CutShort;
    var s := Scan(Unframed(f.journal), o.maxRecord, None);
    var rest := Unframed(f.journal)[s.good..];
    ScanClassifies(Unframed(f.journal), o.maxRecord, None);
    FrontExcludes(rest, o.maxRecord);
    OpenJudgesTail(f, o, id, now);
  }

  // ---- Headers and snapshots, byte by byte ------------------------------------------------------------

  /** "NOFJ", format 1, canonical version 1, header size 64, a checksum over the first 56 bytes, a store
      identity that is a token and, if one is expected, that one. */
  predicate GoodHeader(d: seq<byte>, o: Disk.Options) {
    && |d| >= 64 && U32(d, 0) == 0x4A464F4E && U16(d, 4) == 1 && U16(d, 6) == 1 && U32(d, 8) == 64
    && U32(d, 56) == Crc32c(d[..56]) && ValidToken(d[16..48]) && (o.expected.Some? ==> d[16..48] == o.expected.value)
  }

  lemma HeadIs(d: seq<byte>)
    requires |d| >= 64
    ensures Width(HEAD) <= |d|
    ensures Get(HEAD, d)[0] == U32(d, 0) && Get(HEAD, d)[1] == U16(d, 4) && Get(HEAD, d)[2] == U16(d, 6) && Get(HEAD, d)[3] == U32(d, 8)
  {
    hide Load, Get, Width;
    Head16();
    HeadOffsets();
    forall i | 0 <= i < 4 { FieldAt(HEAD, d, i); }
    LoadOf4(d, 0);
    LoadOf2(d, 4);
    LoadOf2(d, 6);
    LoadOf4(d, 8);
  }

  lemma HeadOffsets()
    ensures Width(HEAD[..0]) == 0 && Width(HEAD[..1]) == 4 && Width(HEAD[..2]) == 6 && Width(HEAD[..3]) == 8
  {
    NoWidth(HEAD);
    forall i | 0 <= i < 3 { WidthGrows(HEAD, i); }
  }

  lemma GoodHeaderIs(d: seq<byte>, o: Disk.Options)
    ensures CheckHeader(d, o).Pass? <==> GoodHeader(d, o)
    ensures GoodHeader(d, o) ==> CheckHeader(d, o).value == (d[16..48], U64At(d, 48))
  {
    hide Load, Get, Crc32c, ValidToken, U16, Width;
    if |d| >= 64 {
      HeadIs(d);
      LoadOf4(d, 56);
      LoadOf8(d, 48);
    }
  }

  /** "NOFS", format 1, canonical version 1, the payload's length and checksum, a checksum over the first
      32 bytes, and the file ends with the payload and is within the bound. */
  predicate GoodSnapshot(d: seq<byte>, o: Disk.Options) {
    && 36 <= |d| <= o.maxSnapshot && U32(d, 0) == 0x53464F4E && U16(d, 4) == 1 && U16(d, 6) == 1
    && |d| == 36 + U32(d, 8) && U32(d, 12) == Crc32c(d[36..]) && U32(d, 32) == Crc32c(d[..32])
  }

  lemma SnapIs(d: seq<byte>)
    requires |d| >= 36
    ensures Width(SNAP) <= |d|
    ensures Get(SNAP, d)[0] == U32(d, 0) && Get(SNAP, d)[1] == U16(d, 4) && Get(SNAP, d)[2] == U16(d, 6) && Get(SNAP, d)[3] == U32(d, 8)
    ensures Get(SNAP, d)[4] == U32(d, 12) && Get(SNAP, d)[5] == U64At(d, 16) && Get(SNAP, d)[6] == U64At(d, 24)
  {
    hide Load, Get, Width;
    Snap32();
    SnapOffsets();
    forall i | 0 <= i < 7 { FieldAt(SNAP, d, i); }
    LoadOf4(d, 0);
    LoadOf2(d, 4);
    LoadOf2(d, 6);
    LoadOf4(d, 8);
    LoadOf4(d, 12);
    LoadOf8(d, 16);
    LoadOf8(d, 24);
    hide U16, U32, U64At;
  }

  lemma SnapOffsets()
    ensures Width(SNAP[..0]) == 0 && Width(SNAP[..1]) == 4 && Width(SNAP[..2]) == 6 && Width(SNAP[..3]) == 8 && Width(SNAP[..4]) == 12
    ensures Width(SNAP[..5]) == 16 && Width(SNAP[..6]) == 24
  {
    NoWidth(SNAP);
    forall i | 0 <= i < 6 { WidthGrows(SNAP, i); }
  }

  lemma GoodSnapshotIs(d: seq<byte>, o: Disk.Options)
    ensures ReadSnapshot(d, o).Pass? <==> GoodSnapshot(d, o)
    ensures GoodSnapshot(d, o) ==> ReadSnapshot(d, o).value == Snapshot(d[36..], U64At(d, 16), U64At(d, 24))
  {
    hide Load, Get, Crc32c, U16, Width;
    if |d| >= 36 {
      SnapIs(d);
      LoadOf4(d, 32);
    }
  }

  /** Which tails a policy lets pass. */
  predicate Tolerated(tail: Tail, policy: RecoveryPolicy) {
    tail.Clean? || policy.TruncateDamagedTail? || (tail.Torn? && policy.TruncateTornTail?)
  }

  /** A store opens exactly when its header is good, its snapshot, if any, is good, the file is not beyond
      the read limit, and the policy tolerates the tail; an empty file opens when it is given a 32-byte
      identity. */
  lemma OpensIff(f: Files, o: Disk.Options, id: seq<byte>, now: nat)
    ensures Storage.Open(f, o, id, now).Pass? <==>
      if f.journal == [] then (if o.expected.Some? then |o.expected.value| else |id|) == 32
      else
        && |f.journal| <= 2 * o.maxJournal + 4 * o.maxRecord && GoodHeader(f.journal, o)
        && (f.snapshot.Some? ==> GoodSnapshot(f.snapshot.value, o))
        && Tolerated(Scan(Unframed(f.journal), o.maxRecord, None).tail, o.policy)
  {
    hide CheckHeader, ReadSnapshot, Scan, GoodHeader, GoodSnapshot;
    GoodHeaderIs(f.journal, o);
    if f.snapshot.Some? { GoodSnapshotIs(f.snapshot.value, o); }
  }

  /** A record is appended exactly when its payload is within the record bound, the file stays within
      twice the journal bound, and the sequence counter is not exhausted; otherwise nothing changes. */
  lemma AppendedIff(f: Files, m: Memory, o: Disk.Options, kind: nat, payload: seq<byte>)
    ensures
      var (f', m', refused) := Append(f, m, o, kind, payload);
      && (refused.None? <==> |payload| <= o.maxRecord && m.bytes + 24 + |payload| <= 2 * o.maxJournal && m.lastSequence < U64_MAX)
      && (refused.Some? ==> f' == f && m' == m)
  {
    hide Encode;
  }

  /** Compaction goes through exactly when the snapshot is within its bound, does not cover less than the
      one in place, and leaves room for the base record's sequence. */
  lemma CompactedIff(f: Files, m: Memory, o: Disk.Options, s: Snapshot)
    requires |m.id| == 32
    ensures
      var (f', m', refused) := Compact(f, m, o, s);
      && (refused.None? <==> |s.payload| <= o.maxSnapshot && Covered(m.base) <= s.covered && s.covered < U64_MAX)
      && (|s.payload| > o.maxSnapshot || s.covered < Covered(m.base) ==> f' == f && m' == m)
  {
    hide Encode, WriteSnapshot, BuildHeader;
    AppendedIff(Files(BuildHeader(m.id, m.created), Some(WriteSnapshot(s))),
                InMemory(m.id, m.created, s.covered, 0, FILE_HEADER, Some(s)), o, SNAPSHOT_BASE, BaseRecord(s).payload);
  }
}
