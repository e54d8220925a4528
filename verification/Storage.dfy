/** Opening, appending, replaying and compacting a journal store (src/journal.cpp), and what is
    recovered after a crash. */
module Storage {
  import opened Bytes
  import opened Units
  import opened Journal
  import opened Disk

  function ReadLimit(o: Options): nat { 2 * o.maxJournal + 4 * o.maxRecord }

  function ReadBase(snapshot: Option<seq<byte>>, o: Options): Checked<Option<Snapshot>> {
    match snapshot
    case None => Pass(None)
    case Some(d) =>
      match ReadSnapshot(d, o)
      case Refuse(r) => Refuse(r)
      case Pass(s) => Pass(Some(s))
  }

  function TailReason(t: Tail): Refusal
    requires !t.Clean?
  {
    if t.Torn? then JournalTornTail else t.reason
  }

  /** `open`; `id` and `now` are used for a file that is still empty. */
  function Open(f: Files, o: Options, id: seq<byte>, now: nat): Checked<(Files, Memory)> {
    if f.journal == [] then
      var chosen := if o.expected.Some? then o.expected.value else id;
      if |chosen| != 32 then Refuse(InvalidConfiguration)
      else Pass((f.(journal := BuildHeader(chosen, now)), InMemory(chosen, now, 0, 0, FILE_HEADER, None)))
    else if |f.journal| > ReadLimit(o) then Refuse(OversizedInput)
    else
      match CheckHeader(f.journal, o)
      case Refuse(r) => Refuse(r)
      case Pass((id, created)) =>
        match ReadBase(f.snapshot, o)
        case Refuse(r) => Refuse(r)
        case Pass(base) =>
          var s := Report(f.journal, o.maxRecord);
          var m := InMemory(id, created, s.lastSequence, s.records, |f.journal|, base);
          if s.tail.Clean? then Pass((f, m))
          else if (s.tail.Torn? && o.policy.TruncateTornTail?) || o.policy.TruncateDamagedTail?
          then Pass((f.(journal := f.journal[..s.lastGoodOffset]), m.(bytes := s.lastGoodOffset)))
          else Refuse(TailReason(s.tail))
  }

  /** The records a journal file holds. */
  function Contents(f: Files, o: Options): seq<Rec> { Scan(Unframed(f.journal), o.maxRecord, None).records }

  /** An open store agrees with its files. Its sequence counter may run ahead of the records. */
  predicate Valid(f: Files, m: Memory, o: Options) {
    && CheckHeader(f.journal, o) == Pass((m.id, m.created))
    && ReadBase(f.snapshot, o) == Pass(m.base)
    && m.bytes == |f.journal| <= ReadLimit(o)
    && Scan(Unframed(f.journal), o.maxRecord, None).tail.Clean?
    && m.records == |Contents(f, o)| && LastSequence(Contents(f, o)) <= m.lastSequence < Pow256(8)
  }

  /** `append`. */
  function Append(f: Files, m: Memory, o: Options, kind: nat, payload: seq<byte>): (Files, Memory, Option<Refusal>) {
    var size := HEADER + |payload| + TRAILER;
    if |payload| > o.maxRecord then (f, m, Some(OversizedInput))
    else if m.bytes + size > 2 * o.maxJournal then (f, m, Some(CompactionRequired))
    else if m.lastSequence >= U64_MAX then (f, m, Some(ArithmeticOverflow))
    else
      (f.(journal := f.journal + Encode(Rec(kind, m.lastSequence + 1, payload))),
       m.(lastSequence := m.lastSequence + 1, records := m.records + 1, bytes := m.bytes + size), None)
  }

  /** What `replay` hands to its visitor. */
  function Visible(rs: seq<Rec>, covered: nat): seq<Rec> {
    if rs == [] then []
    else (if rs[0].kind != SNAPSHOT_BASE && rs[0].sequence > covered then [rs[0]] else []) + Visible(rs[1..], covered)
  }

  /** The state a reopened store stands for: the snapshot, then the visible records. */
  function Fold<S>(step: (S, Rec) -> S, s: S, rs: seq<Rec>): S {
    if rs == [] then s else Fold(step, step(s, rs[0]), rs[1..])
  }

  function Logical<S>(initial: S, load: seq<byte> -> S, step: (S, Rec) -> S, f: Files, m: Memory, o: Options): S {
    Fold(step, if m.base.None? then initial else load(m.base.value.payload), Visible(Contents(f, o), Covered(m.base)))
  }

  // ---- Opening --------------------------------------------------------------------------------

  lemma CheckHeaderReadsPrefix(d: seq<byte>, e: seq<byte>, o: Options)
    requires |d| >= FILE_HEADER && |e| >= FILE_HEADER && d[..FILE_HEADER] == e[..FILE_HEADER]
    ensures CheckHeader(d, o) == CheckHeader(e, o)
  {
    Head16();
    hide Get, Put, Store, ValidToken, Width;
    var p := d[..FILE_HEADER];
    assert d[..16] == p[..16] == e[..16] && d[..56] == p[..56] == e[..56] && d[56..60] == p[56..60] == e[56..60];
    assert d[16..48] == p[16..48] == e[16..48] && d[48..56] == p[48..56] == e[48..56];
    GetOfPrefix(HEAD, d, e);
  }

  /** Opening repairs a store without changing the records it holds. */
  lemma OpenIsValid(f: Files, o: Options, id: seq<byte>, now: nat)
    requires f.journal != [] && Open(f, o, id, now).Pass?
    ensures var (f', m) := Open(f, o, id, now).value;
      Valid(f', m, o) && Contents(f', o) == Contents(f, o) && f'.snapshot == f.snapshot &&
      m.lastSequence == LastSequence(Contents(f, o))
  {
    hide CheckHeader, ReadBase, Look;
    var (f', m) := Open(f, o, id, now).value;
    var body := Unframed(f.journal);
    var s := Scan(body, o.maxRecord, None);
    CutAtGoodIsClean(body, o.maxRecord, None);
    assert f'.journal[..FILE_HEADER] == f.journal[..FILE_HEADER];
    CheckHeaderReadsPrefix(f'.journal, f.journal, o);
    CleanIsAll(body, o.maxRecord, None);
    assert Unframed(f'.journal) == body[..s.good];
    SequencesFit(body, o.maxRecord, None);
  }

  lemma {:induction false} CleanIsAll(d: seq<byte>, max: nat, prev: Option<nat>)
    ensures Scan(d, max, prev).tail.Clean? ==> Scan(d, max, prev).good == |d|
    decreases |d|
  {
    hide Look;
    if d != [] && Look(d, max).Whole? { CleanIsAll(d[Look(d, max).total..], max, Some(Look(d, max).rec.sequence)); }
  }

  lemma {:induction false} SequencesFit(d: seq<byte>, max: nat, prev: Option<nat>)
    ensures LastSequence(Scan(d, max, prev).records) < Pow256(8)
    decreases |d|
  {
    hide Look;
    if d != [] && Look(d, max).Whole? {
      SequencesFit(d[Look(d, max).total..], max, Some(Look(d, max).rec.sequence));
      LookFits(d, max);
    }
  }

  lemma LookFits(d: seq<byte>, max: nat)
    requires Look(d, max).Whole?
    ensures Look(d, max).rec.sequence < Pow256(8)
  {
    Layout20();
    PutOfGet(LAYOUT, d);
    assert Get(LAYOUT, d)[3] < Pow256(LAYOUT[3]);
  }

  /** Closing and reopening a store gives back its files and its memory, except that the
      sequence counter is taken from the records alone. */
  lemma ReopenForgetsOnlyTheCounter(f: Files, m: Memory, o: Options, id: seq<byte>, now: nat)
    requires Valid(f, m, o)
    ensures Open(f, o, id, now) == Pass((f, m.(lastSequence := LastSequence(Contents(f, o)))))
  {
    hide CheckHeader, ReadBase, Scan;
  }

  // ---- Appending ------------------------------------------------------------------------------

  lemma AppendExtends(f: Files, m: Memory, o: Options, kind: nat, payload: seq<byte>)
    requires Valid(f, m, o) && KnownKind(kind) && |payload| < Pow256(4) && Append(f, m, o, kind, payload).2.None?
    ensures var (f', m', _) := Append(f, m, o, kind, payload);
      Valid(f', m', o) && Contents(f', o) == Contents(f, o) + [Rec(kind, m.lastSequence + 1, payload)] &&
      m'.base == m.base && f'.snapshot == f.snapshot
  {
    hide CheckHeader, ReadBase, Look, Encode;
    Widths();
    var (f', m', _) := Append(f, m, o, kind, payload);
    var r := Rec(kind, m.lastSequence + 1, payload);
    assert f'.journal[..FILE_HEADER] == f.journal[..FILE_HEADER];
    CheckHeaderReadsPrefix(f'.journal, f.journal, o);
    assert Unframed(f'.journal) == Unframed(f.journal) + Encode(r);
    ScanOfAppend(Unframed(f.journal), r, o.maxRecord, None);
  }

  lemma {:induction false} VisibleAppends(rs: seq<Rec>, r: Rec, covered: nat)
    ensures Visible(rs + [r], covered) == Visible(rs, covered) + Visible([r], covered)
  {
    if rs == [] {
      assert rs + [r] == [r];
    } else {
      assert (rs + [r])[1..] == rs[1..] + [r];
      VisibleAppends(rs[1..], r, covered);
    }
  }

  /** An acknowledged record is seen by the next replay exactly when the counter had not fallen
      behind the snapshot; otherwise it is silently skipped. */
  lemma AppendVisibleIff(f: Files, m: Memory, o: Options, kind: nat, payload: seq<byte>)
    requires Valid(f, m, o) && KnownKind(kind) && kind != SNAPSHOT_BASE && |payload| < Pow256(4)
    requires Append(f, m, o, kind, payload).2.None?
    ensures var (f', m', _) := Append(f, m, o, kind, payload);
      Visible(Contents(f', o), Covered(m'.base)) ==
      Visible(Contents(f, o), Covered(m.base)) +
      (if m.lastSequence >= Covered(m.base) then [Rec(kind, m.lastSequence + 1, payload)] else [])
  {
    AppendExtends(f, m, o, kind, payload);
    hide Valid, Contents, Append;
    VisibleAppends(Contents(f, o), Rec(kind, m.lastSequence + 1, payload), Covered(m.base));
  }
}
