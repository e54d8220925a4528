/** The journal store on its two files: `open`, `append`, `replay` and `compact` of
    src/journal.cpp, and what a crash between any two file operations leaves behind. */
module Disk {
  import opened Bytes
  import opened Crc
  import opened Units
  import opened Journal

  const JOURNAL_MAGIC: nat := 0x4A464F4E
  const SNAPSHOT_MAGIC: nat := 0x53464F4E
  const FORMAT: nat := 1
  const CANONICAL: nat := 1
  const SNAPSHOT_HEADER: nat := 36

  datatype RecoveryPolicy = RefuseTails | TruncateTornTail | TruncateDamagedTail

  datatype OptionsRaw = Options(maxRecord: nat, maxJournal: nat, maxSnapshot: nat, policy: RecoveryPolicy, expected: Option<seq<byte>>)

  /** The bounds `open` accepts. */
  type Options = o: OptionsRaw | 256 <= o.maxRecord <= o.maxJournal && o.maxRecord <= o.maxSnapshot
    witness Options(256, 256, 256, RefuseTails, None)

  /** The journal file and the snapshot file. */
  datatype Files = Files(journal: seq<byte>, snapshot: Option<seq<byte>>)

  datatype Snapshot = Snapshot(payload: seq<byte>, covered: nat, generation: nat)

  /** What an open store holds in memory. */
  datatype Memory = InMemory(id: seq<byte>, created: nat, lastSequence: nat, records: nat, bytes: nat, base: Option<Snapshot>)

  function Covered(base: Option<Snapshot>): nat { if base.None? then 0 else base.value.covered }

  // ---- The journal header --------------------------------------------------------------------

  /** Magic, format, canonical version, header size and flags; the identity; the creation time. */
  const HEAD: seq<nat> := [4, 2, 2, 4, 4]

  function HeadFields(): seq<nat> { [JOURNAL_MAGIC, FORMAT, CANONICAL, FILE_HEADER, 0] }

  lemma Head16()
    ensures Width(HEAD) == 16
  {
    assert HEAD[1..] == [2, 2, 4, 4] && HEAD[1..][1..] == [2, 4, 4] && HEAD[1..][1..][1..] == [4, 4];
  }

  function HeaderBody(id: seq<byte>, created: nat): (s: seq<byte>)
    requires |id| == 32
    ensures |s| == 56
  {
    Head16();
    Put(HEAD, HeadFields()) + id + Store(8, created)
  }

  function BuildHeader(id: seq<byte>, created: nat): (s: seq<byte>)
    requires |id| == 32
    ensures |s| == FILE_HEADER
  {
    HeaderBody(id, created) + Store(4, Crc32c(HeaderBody(id, created))) + Store(4, 0)
  }

  /** The header checks of `open`. */
  function CheckHeader(d: seq<byte>, o: Options): (r: Checked<(seq<byte>, nat)>)
    ensures r.Pass? ==> |d| >= FILE_HEADER && |r.value.0| == 32
  {
    if |d| < FILE_HEADER then Refuse(StoreCorrupt)
    else
      Head16();
      var h := Get(HEAD, d);
      if h[0] != JOURNAL_MAGIC then Refuse(StoreCorrupt)
      else if h[1] != FORMAT then Refuse(IncompatibleVersion)
      else if h[2] != CANONICAL then Refuse(IncompatibleSemantics)
      else if h[3] != FILE_HEADER then Refuse(StoreCorrupt)
      else if Load(d[56..60]) != Crc32c(d[..56]) then Refuse(StoreCorrupt)
      else if !ValidToken(d[16..48]) then Refuse(InvalidIdentifier)
      else if o.expected.Some? && o.expected.value != d[16..48] then Refuse(UnknownIdentity)
      else Pass((d[16..48], Load(d[48..56])))
  }

  /** A header this store wrote is accepted, whatever follows it. */
  lemma HeaderReadsBack(id: seq<byte>, created: nat, rest: seq<byte>, o: Options)
    requires |id| == 32 && ValidToken(id) && created < Pow256(8) && (o.expected.Some? ==> o.expected.value == id)
    ensures CheckHeader(BuildHeader(id, created) + rest, o) == Pass((id, created))
  {
    Head16();
    Widths();
    hide Crc32c, Put, Get, Store, Width, ValidToken;
    var b := HeaderBody(id, created);
    var d := BuildHeader(id, created) + rest;
    var tail := id + Store(8, created) + Store(4, Crc32c(b)) + Store(4, 0) + rest;
    assert d == Put(HEAD, HeadFields()) + tail;
    GetOfPut(HEAD, HeadFields(), tail);
    assert d[..56] == b && d[56..60] == Store(4, Crc32c(b));
    LoadOfStore(4, Crc32c(b));
    assert d[16..48] == id && d[48..56] == Store(8, created);
    LoadOfStore(8, created);
  }

  // ---- The snapshot file -----------------------------------------------------------------------

  /** Magic, format, canonical version, payload length, payload CRC, covered sequence, generation. */
  const SNAP: seq<nat> := [4, 2, 2, 4, 4, 8, 8]

  lemma Snap32()
    ensures Width(SNAP) == 32
  {
    assert SNAP[1..] == [2, 2, 4, 4, 8, 8] && SNAP[1..][1..] == [2, 4, 4, 8, 8] && SNAP[1..][1..][1..] == [4, 4, 8, 8];
    assert SNAP[1..][1..][1..][1..] == [4, 8, 8] && SNAP[1..][1..][1..][1..][1..] == [8, 8];
  }

  function SnapFields(s: Snapshot): seq<nat> {
    [SNAPSHOT_MAGIC, FORMAT, CANONICAL, |s.payload|, Crc32c(s.payload), s.covered, s.generation]
  }

  function WriteSnapshot(s: Snapshot): (d: seq<byte>)
    ensures |d| == SNAPSHOT_HEADER + |s.payload|
  {
    Snap32();
    var head := Put(SNAP, SnapFields(s));
    head + Store(4, Crc32c(head)) + s.payload
  }

  function ReadSnapshot(d: seq<byte>, o: Options): Checked<Snapshot> {
    if |d| > o.maxSnapshot then Refuse(OversizedInput)
    else if |d| < SNAPSHOT_HEADER then Refuse(StoreCorrupt)
    else
      Snap32();
      var h := Get(SNAP, d);
      if h[0] != SNAPSHOT_MAGIC then Refuse(StoreCorrupt)
      else if h[1] != FORMAT || h[2] != CANONICAL then Refuse(IncompatibleVersion)
      else if h[3] > o.maxSnapshot then Refuse(OversizedInput)
      else if Load(d[32..36]) != Crc32c(d[..32]) then Refuse(StoreCorrupt)
      else if |d| != SNAPSHOT_HEADER + h[3] then Refuse(StoreCorrupt)
      else if h[4] != Crc32c(d[SNAPSHOT_HEADER..]) then Refuse(StoreCorrupt)
      else Pass(Snapshot(d[SNAPSHOT_HEADER..], h[5], h[6]))
  }

  predicate Encodable(s: Snapshot) {
    |s.payload| < Pow256(4) && s.covered < Pow256(8) && s.generation < Pow256(8)
  }

  /** A snapshot reads back exactly when its file, header included, is within the bound: the
      writer compares the payload alone, the reader the whole file. */
  lemma SnapshotReadsBackIff(s: Snapshot, o: Options)
    requires Encodable(s)
    ensures ReadSnapshot(WriteSnapshot(s), o) ==
      if |s.payload| + SNAPSHOT_HEADER <= o.maxSnapshot then Pass(s) else Refuse(OversizedInput)
  {
    Snap32();
    Widths();
    hide Crc32c, Put, Get, Store, Width;
    var head, d := Put(SNAP, SnapFields(s)), WriteSnapshot(s);
    var tail := Store(4, Crc32c(head)) + s.payload;
    assert d == head + tail;
    GetOfPut(SNAP, SnapFields(s), tail);
    assert d[..32] == head && d[32..36] == Store(4, Crc32c(head)) && d[SNAPSHOT_HEADER..] == s.payload;
    LoadOfStore(4, Crc32c(head));
  }
}
