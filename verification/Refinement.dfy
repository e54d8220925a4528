/** Replaying the journal refines the live state: after every operation, complete or cut
    short, and across any number of crashes and restarts (src/fabric.cpp). */
module Refinement {
  import opened Units
  import opened Types
  import opened Ordered
  import opened Decisions
  import opened Claims
  import opened Idempotency
  import opened Machine
  import opened Steps
  import opened Traces
  import opened Runs

  // ---- The durable part of the state ------------------------------------------------------

  /** Per source: equal sequence, digest and presence; restart floors are not journaled. */
  predicate MarksAgree(s: map<SourceKey, SourceState>, t: map<SourceKey, SourceState>) {
    s.Keys == t.Keys && forall k :: k in s ==> s[k].(restartFloor := 0) == t[k].(restartFloor := 0)
  }

  /** Functions, topology, capabilities, policy, grants, assignments, epoch, and per-source
      sequence and digest agree. */
  predicate SameCore(s: State, t: State) {
    && s.epoch == t.epoch && s.assignments == t.assignments && GrantsAgree(s.grants, t.grants)
    && s.ev.functions == t.ev.functions && s.ev.capabilities == t.ev.capabilities
    && s.ev.topology == t.ev.topology && s.ev.policy == t.ev.policy && MarksAgree(s.ev.sources, t.ev.sources)
  }

  /** The core agrees and both tables give the same answers in the same eviction order. */
  predicate SameDurable(s: State, t: State) { SameCore(s, t) && AnswersAlike(s.table, t.table) }

  lemma SameDurableTransitive(s: State, t: State, u: State)
    requires SameDurable(s, t) && SameDurable(t, u)
    ensures SameDurable(s, u)
  {
  }

  lemma ApplyGrantsRespects(g: map<Id, Grant>, h: map<Id, Grant>, r: Record)
    requires GrantsAgree(g, h)
    ensures GrantsAgree(ApplyGrants(g, r), ApplyGrants(h, r))
  {
  }

  lemma MarkRespects(s: map<SourceKey, SourceState>, t: map<SourceKey, SourceState>, p: Provenance, domain: Domain, digest: EvidenceDigest)
    requires MarksAgree(s, t)
    ensures MarksAgree(Mark(s, p, domain, digest), Mark(t, p, domain, digest))
  {
  }

  lemma ApplyEvidenceRespects(e: Evidence, f: Evidence, r: Record)
    requires e.functions == f.functions && e.capabilities == f.capabilities && e.topology == f.topology
    requires e.policy == f.policy && MarksAgree(e.sources, f.sources)
    ensures
      var e', f' := ApplyEvidence(e, r), ApplyEvidence(f, r);
      && e'.functions == f'.functions && e'.capabilities == f'.capabilities && e'.topology == f'.topology
      && e'.policy == f'.policy && MarksAgree(e'.sources, f'.sources)
  {
    hide Mark, MarksAgree, WithCapabilities, WithObservations;
    match r
    case TopologyIngested(t) => MarkRespects(e.sources, f.sources, t.provenance, TopologyEvidence, OfTopology(t));
    case CapabilityIngested(c) => MarkRespects(e.sources, f.sources, c.provenance, CapabilityEvidence, OfCapabilities(c));
    case PolicyIngested(p) => MarkRespects(e.sources, f.sources, p.provenance, PolicyEvidence, OfPolicy(p));
    case ObservationsIngested(o) => MarkRespects(e.sources, f.sources, o.provenance, ObservationEvidence, OfObservations(o));
    case AuthorityGranted(g) => MarkRespects(e.sources, f.sources, g.provenance, AuthorityEvidence, OfGrant(g));
    case _ =>
  }

  lemma InsertRespects(s: State, t: State, a: Assignment)
    requires SameCore(s, t)
    ensures SameCore(Insert(s, a), Insert(t, a))
  {
    hide Reindex;
    InsertFrame(s, a);
    InsertFrame(t, a);
  }

  lemma AnswerRespects(b: Bounds, s: State, t: State, id: Id, fp: Fingerprint, response: Response, at: int)
    requires SameCore(s, t)
    ensures SameCore(Answer(b, s, id, fp, response, at), Answer(b, t, id, fp, response, at))
  {
    hide Remember, GrantsAgree, MarksAgree;
  }

  lemma EvidenceRespects(s: State, t: State, r: Record)
    requires SameCore(s, t)
    ensures SameCore(s.(ev := ApplyEvidence(s.ev, r), grants := ApplyGrants(s.grants, r)),
                     t.(ev := ApplyEvidence(t.ev, r), grants := ApplyGrants(t.grants, r)))
  {
    hide ApplyEvidence, ApplyGrants, GrantsAgree, MarksAgree;
    ApplyEvidenceRespects(s.ev, t.ev, r);
    ApplyGrantsRespects(s.grants, t.grants, r);
  }

  /** Replay of a record depends only on the durable part, and determines it. */
  lemma ApplyRecordRespectsCore(b: Bounds, s: State, t: State, r: Record)
    requires SameCore(s, t)
    ensures SameCore(ApplyRecord(b, s, r), ApplyRecord(b, t, r))
  {
    hide Answer, Insert, ApplyEvidence, ApplyGrants, GrantsAgree, MarksAgree;
    match r
    case AssignmentStored(a, id, fp) =>
      InsertRespects(s, t, a);
      AnswerRespects(b, Insert(s, a), Insert(t, a), id, fp, Recorded(a), a.updatedAt);
    case EffectRecorded(report, a, fp) =>
      InsertRespects(s, t, a);
      AnswerRespects(b, Insert(s, a), Insert(t, a), report.requestId, fp, Recorded(a), report.observedAt);
    case RequestRecorded(id, fp, code, at) => AnswerRespects(b, s, t, id, fp, Refused(code), at);
    case EpochStarted(_, _) =>
    case ReassignmentRecorded(_, _, _) =>
    case StoreSealed(_) =>
    case _ => EvidenceRespects(s, t, r);
  }

  lemma ApplyRecordRespects(b: Bounds, s: State, t: State, r: Record)
    requires SameDurable(s, t)
    ensures SameDurable(ApplyRecord(b, s, r), ApplyRecord(b, t, r))
  {
    hide Remember, Reindex, ApplyEvidence, ApplyGrants, AnswersAlike;
    ApplyRecordRespectsCore(b, s, t, r);
    match r
    case AssignmentStored(a, id, fp) =>
      var e := IdempotencyEntry(fp, Recorded(a), a.updatedAt);
      RememberAlike(b.maxIdempotency, s.table, t.table, id, e, e);
    case EffectRecorded(report, a, fp) =>
      var e := IdempotencyEntry(fp, Recorded(a), report.observedAt);
      RememberAlike(b.maxIdempotency, s.table, t.table, report.requestId, e, e);
    case RequestRecorded(id, fp, code, at) =>
      var e := IdempotencyEntry(fp, Refused(code), at);
      RememberAlike(b.maxIdempotency, s.table, t.table, id, e, e);
    case _ =>
  }

  // ---- Snapshots ------------------------------------------------------------------------------

  /** `decode_state` of `encode_state`: the claims are not encoded, and the idempotency table
      comes back in key order. */
  function SnapshotOf(st: State): State {
    st.(index := EMPTY_INDEX, table := Table(st.table.entries, Sorted(st.table.entries.Keys)))
  }

  lemma ReplayJoins(b: Bounds, st: State, log: seq<Record>, r: Record)
    ensures Replay(b, st, log + [r]) == ApplyRecord(b, Replay(b, st, log), r)
  {
    assert (log + [r])[..|log|] == log;
  }

  lemma {:induction false} ReplayRespectsCore(b: Bounds, s: State, t: State, tail: seq<Record>)
    requires SameCore(s, t)
    ensures SameCore(Replay(b, s, tail), Replay(b, t, tail))
  {
    hide ApplyRecord, SameCore;
    if tail != [] {
      ReplayRespectsCore(b, s, t, tail[..|tail| - 1]);
      ApplyRecordRespectsCore(b, Replay(b, s, tail[..|tail| - 1]), Replay(b, t, tail[..|tail| - 1]), tail[|tail| - 1]);
    }
  }

  lemma {:induction false} ReplayConcat(b: Bounds, st: State, prefix: seq<Record>, tail: seq<Record>)
    ensures Replay(b, st, prefix + tail) == Replay(b, Replay(b, st, prefix), tail)
  {
    hide ApplyRecord;
    if tail == [] {
      assert prefix + tail == prefix;
    } else {
      var last := |tail| - 1;
      ReplayConcat(b, st, prefix, tail[..last]);
      assert prefix + tail == (prefix + tail[..last]) + [tail[last]];
      ReplayJoins(b, st, prefix + tail[..last], tail[last]);
    }
  }

  /** A snapshot of the live state followed by the tail recovers what the full log does. */
  lemma SnapshotThenTail(b: Bounds, live: State, prefix: seq<Record>, tail: seq<Record>)
    requires SameCore(live, Replay(b, EMPTY_STATE, prefix))
    ensures SameCore(Replay(b, SnapshotOf(live), tail), Replay(b, EMPTY_STATE, prefix + tail))
  {
    ReplayRespectsCore(b, SnapshotOf(live), Replay(b, EMPTY_STATE, prefix), tail);
    ReplayConcat(b, EMPTY_STATE, prefix, tail);
  }

  /** The eviction order survives a snapshot exactly when it already was the key order. */
  lemma SnapshotKeepsOrderIffAscending(t: Table)
    requires WellFormed(t)
    ensures Sorted(t.entries.Keys) == t.order <==> Ascending(t.order)
  {
    if Ascending(t.order) {
      SortedIsUnique(t.order, t.entries.Keys);
    }
  }

  /** Otherwise the next recording can evict a younger entry than the live table would. */
  lemma SnapshotCanEvictTheYounger(e: IdempotencyEntry)
    ensures
      var live := Table(map[2 := e, 1 := e], [2, 1]);
      var snapshot := Table(live.entries, Sorted(live.entries.Keys));
      && WellFormed(live)
      && 2 !in Remember(2, live, 3, e).entries && 1 in Remember(2, live, 3, e).entries
      && 1 !in Remember(2, snapshot, 3, e).entries && 2 in Remember(2, snapshot, 3, e).entries
  {
    hide Remember, Sorted;
    var live := Table(map[2 := e, 1 := e], [2, 1]);
    assert live.entries.Keys == {1, 2};
    assert |live.entries| == |live.entries.Keys| == 2;
    SortedIsUnique([1, 2], live.entries.Keys);
    var snapshot := Table(live.entries, [1, 2]);
    RememberIsFifo(2, live, 3, e);
    RememberIsFifo(2, snapshot, 3, e);
  }

  // ---- Every step, every run -----------------------------------------------------------------

  predicate Refines(b: Bounds, w: World) { SameDurable(w.st, Replay(b, EMPTY_STATE, w.log)) }

  /** The record a micro-step commits, if any. */
  function Committed(b: Bounds, w: World, m: Micro): Option<Record>
    requires Legal(b, w, m)
  {
    match m
    case Faulted => None
    case Counted(_) => None
    case Noted(_, _, _) => None
    case Learned(r) => Some(r)
    case Placed(a, _, id, fp, _) => Some(AssignmentStored(a, id, fp))
    case Left(target, to, reason, id, fp, at) =>
      Some(AssignmentStored(Moved(b, w.st.assignments[target], to, reason, at), id, fp))
    case Reentered(target, to, authority, id, fp, at) =>
      Some(AssignmentStored(Rebound(b, w.st, w.st.assignments[target], to, authority, at), id, fp))
    case Reported(r, at) => Some(EffectRecorded(r, WithEffect(b, w.st.assignments[r.assignment], r, at), OfEffect(r)))
    case NoteLogged(scope, cls, at) => Some(ReassignmentRecorded(scope, cls, at))
    case RefusalLogged(id, fp, code, at) => Some(RequestRecorded(id, fp, code, at))
  }

  lemma DoCommits(b: Bounds, w: World, m: Micro)
    requires Legal(b, w, m)
    ensures Do(b, w, m).log == w.log + (if Committed(b, w, m).Some? then [Committed(b, w, m).value] else [])
    ensures Do(b, w, m).running == w.running
  {
    hide Learn, Answer, Insert, Moved, Rebound, WithEffect;
  }

  /** Memory moves as replay of the committed record would move it. */
  lemma DoMatchesReplay(b: Bounds, w: World, m: Micro)
    requires Legal(b, w, m)
    ensures Committed(b, w, m).Some? ==> SameDurable(Do(b, w, m).st, ApplyRecord(b, w.st, Committed(b, w, m).value))
    ensures Committed(b, w, m).None? ==> SameDurable(Do(b, w, m).st, w.st)
  {
    hide Put, PutEffect, PutRefusal, ApplyEvidence, Learn, Moved, Rebound, WithEffect, ApplyRecord, SameDurable, NoteInMemory;
    match m
    case Placed(a, _, id, fp, at) => PutMatches(b, w, a, id, fp, at);
    case Left(target, to, reason, id, fp, at) => PutMatches(b, w, Moved(b, w.st.assignments[target], to, reason, at), id, fp, at);
    case Reentered(target, to, authority, id, fp, at) =>
      PutMatches(b, w, Rebound(b, w.st, w.st.assignments[target], to, authority, at), id, fp, at);
    case Reported(r, at) => EffectMatchesReplay(b, w, r, WithEffect(b, w.st.assignments[r.assignment], r, at), at);
    case RefusalLogged(id, fp, code, at) => RefusalMatches(b, w, id, fp, code, at);
    case Learned(r) => LearnMatches(b, w.st, r);
    case Noted(scope, cls, at) => NoteMatches(b, w, scope, cls, at);
    case NoteLogged(scope, cls, at) => NoteRecordMatches(b, w.st, scope, cls, at);
    case _ => SameDurableReflexive(Do(b, w, m).st, w.st);
  }

  lemma SameDurableReflexive(s: State, t: State)
    requires s.(counters := t.counters) == t
    ensures SameDurable(s, t)
  {
    hide AnswersAlike;
    AlikeReflexive(t.table);
  }

  lemma LearnMatches(b: Bounds, st: State, r: Record)
    requires IsEvidence(r)
    ensures SameDurable(Learn(st, r), ApplyRecord(b, st, r))
  {
    hide AnswersAlike, WithCapabilities, WithObservations;
    AlikeReflexive(st.table);
  }

  lemma NoteMatches(b: Bounds, w: World, scope: Id, cls: Class, at: int)
    ensures SameDurable(NoteInMemory(b, w, scope, cls, at).st, w.st)
  {
    hide AnswersAlike;
    AlikeReflexive(w.st.table);
  }

  lemma NoteRecordMatches(b: Bounds, st: State, scope: Id, cls: Class, at: int)
    ensures SameDurable(st, ApplyRecord(b, st, ReassignmentRecorded(scope, cls, at)))
  {
    hide AnswersAlike;
    AlikeReflexive(st.table);
  }

  lemma RefusalMatches(b: Bounds, w: World, id: Id, fp: Fingerprint, code: Reason, at: int)
    ensures SameDurable(PutRefusal(b, w, id, fp, code, at).st, ApplyRecord(b, w.st, RequestRecorded(id, fp, code, at)))
  {
    hide Remember, AnswersAlike;
    AlikeReflexive(w.st.table);
    var e := IdempotencyEntry(fp, Refused(code), at);
    RememberAlike(b.maxIdempotency, w.st.table, w.st.table, id, e, e);
  }

  lemma EffectMatchesReplay(b: Bounds, w: World, r: EffectReport, a: Assignment, at: int)
    ensures SameDurable(PutEffect(b, w, r, a, at).st, ApplyRecord(b, w.st, EffectRecorded(r, a, OfEffect(r))))
  {
    hide Remember, Reindex, AnswersAlike;
    AlikeReflexive(w.st.table);
    RememberAlike(b.maxIdempotency, w.st.table, w.st.table, r.requestId,
                  IdempotencyEntry(OfEffect(r), Recorded(a), at), IdempotencyEntry(OfEffect(r), Recorded(a), r.observedAt));
  }

  lemma AlikeReflexive(t: Table) ensures AnswersAlike(t, t) {}

  lemma PutMatches(b: Bounds, w: World, a: Assignment, id: Id, fp: Fingerprint, at: int)
    ensures SameDurable(Put(b, w, a, id, fp, at).st, ApplyRecord(b, w.st, AssignmentStored(a, id, fp)))
  {
    hide Remember, Reindex, AnswersAlike;
    AlikeReflexive(w.st.table);
    RememberAlike(b.maxIdempotency, w.st.table, w.st.table, id,
                  IdempotencyEntry(fp, Recorded(a), at), IdempotencyEntry(fp, Recorded(a), a.updatedAt));
  }

  lemma MicroRefines(b: Bounds, w: World, m: Micro)
    requires Legal(b, w, m) && Refines(b, w)
    ensures Refines(b, Do(b, w, m))
  {
    hide Do, Committed, ApplyRecord, SameDurable, Legal;
    DoCommits(b, w, m);
    DoMatchesReplay(b, w, m);
    var replayed := Replay(b, EMPTY_STATE, w.log);
    if Committed(b, w, m).Some? {
      var r := Committed(b, w, m).value;
      ReplayJoins(b, EMPTY_STATE, w.log, r);
      ApplyRecordRespects(b, w.st, replayed, r);
      SameDurableTransitive(Do(b, w, m).st, ApplyRecord(b, w.st, r), ApplyRecord(b, replayed, r));
    } else {
      assert w.log + [] == w.log;
      SameDurableTransitive(Do(b, w, m).st, w.st, replayed);
    }
  }

  lemma {:induction false} RunRefines(b: Bounds, w: World, tr: seq<Micro>)
    requires LegalRun(b, w, tr) && Refines(b, w)
    ensures Refines(b, Run(b, w, tr))
    decreases |tr|
  {
    hide Do, Refines, Legal;
    if tr != [] {
      MicroRefines(b, w, tr[0]);
      RunRefines(b, Do(b, w, tr[0]), tr[1..]);
    }
  }

  // ---- Soundness of memory in every run ---------------------------------------------------

  predicate NamedRecord(r: Record) {
    match r
    case AssignmentStored(a, _, _) => a.id != 0
    case EffectRecorded(_, a, _) => a.id != 0
    case _ => true
  }

  /** Stored assignments carry an identifier. */
  predicate NamedLog(log: seq<Record>) { forall i :: 0 <= i < |log| ==> NamedRecord(log[i]) }

  lemma ApplyKeepsSound(b: Bounds, st: State, r: Record)
    requires Sound(st) && NamedRecord(r)
    ensures Sound(ApplyRecord(b, st, r))
  {
    hide Remember, Insert, ApplyEvidence, ApplyGrants;
    match r
    case AssignmentStored(a, _, _) => InsertKeepsSound(st, a);
    case EffectRecorded(_, a, _) => InsertKeepsSound(st, a);
    case _ =>
  }

  lemma {:induction false} ReplayIsSound(b: Bounds, log: seq<Record>)
    requires NamedLog(log)
    ensures Sound(Replay(b, EMPTY_STATE, log))
  {
    hide ApplyRecord;
    if log != [] {
      ReplayIsSound(b, log[..|log| - 1]);
      ApplyKeepsSound(b, Replay(b, EMPTY_STATE, log[..|log| - 1]), log[|log| - 1]);
    }
  }

  lemma DoKeepsSound(b: Bounds, w: World, m: Micro)
    requires Legal(b, w, m) && Sound(w.st)
    ensures Sound(Do(b, w, m).st)
  {
    hide Remember, Insert, LearnEvidence, ApplyGrants, ScopeConflict, EffectMatches;
    match m
    case Placed(a, _, _, _, _) => InsertKeepsSound(w.st, a);
    case Left(target, to, reason, _, _, at) => InsertKeepsSound(w.st, Moved(b, w.st.assignments[target], to, reason, at));
    case Reentered(target, to, authority, _, _, at) =>
      InsertKeepsSound(w.st, Rebound(b, w.st, w.st.assignments[target], to, authority, at));
    case Reported(r, at) => InsertKeepsSound(w.st, WithEffect(b, w.st.assignments[r.assignment], r, at));
    case _ =>
  }

  lemma MicroKeepsSound(b: Bounds, w: World, m: Micro)
    requires Legal(b, w, m) && Sound(w.st) && NamedLog(w.log)
    ensures Sound(Do(b, w, m).st) && NamedLog(Do(b, w, m).log)
  {
    hide Remember, Reindex, LearnEvidence, ApplyGrants, ScopeConflict, EffectMatches;
    DoKeepsSound(b, w, m);
    DoCommits(b, w, m);
  }

  /** What every world of every run satisfies. */
  predicate Consistent(b: Bounds, w: World) {
    NamedLog(w.log) && (w.running ==> Sound(w.st) && Refines(b, w))
  }

  lemma {:induction false} RunKeepsConsistent(b: Bounds, w: World, tr: seq<Micro>)
    requires LegalRun(b, w, tr) && NamedLog(w.log) && Sound(w.st) && Refines(b, w)
    ensures NamedLog(Run(b, w, tr).log) && Sound(Run(b, w, tr).st) && Refines(b, Run(b, w, tr))
    decreases |tr|
  {
    hide Do, Refines, Legal, Sound, NamedLog;
    if tr != [] {
      MicroRefines(b, w, tr[0]);
      MicroKeepsSound(b, w, tr[0]);
      RunKeepsConsistent(b, Do(b, w, tr[0]), tr[1..]);
    }
  }

  lemma {:induction false} RebuiltClaimsAreSound(assignments: map<Id, Assignment>, ix: Index, ids: seq<Id>)
    requires Keyed(assignments) && IndexSound(assignments, ix) && forall id :: id in ids ==> id in assignments
    ensures IndexSound(assignments, RebuildClaims(ix, assignments, ids))
    decreases |ids|
  {
    if ids != [] {
      RebuiltClaimsAreSound(assignments, Acquire(ix, assignments[ids[0]]), ids[1..]);
    }
  }

  lemma BegunIsConsistent(b: Bounds, w: World, boot: Id)
    requires NamedLog(w.log) && Recovered(b, EMPTY_STATE, w.log).epoch.highest < U64_MAX
    ensures
      var begun := Begun(b, w, EMPTY_STATE, w.log, boot);
      NamedLog(begun.log) && Sound(begun.st) && Refines(b, begun)
  {
    hide Replay, RebuildCounters, AnswersAlike;
    var st := Replay(b, EMPTY_STATE, w.log);
    ReplayIsSound(b, w.log);
    RebuiltClaimsAreSound(st.assignments, EMPTY_INDEX, LiveIds(st));
    var begun := Begun(b, w, EMPTY_STATE, w.log, boot);
    ReplayJoins(b, EMPTY_STATE, w.log, EpochStarted(st.epoch.highest + 1, boot));
    AlikeReflexive(st.table);
    assert GrantsAgree(RefreshUsage(st.grants, st.assignments), st.grants);
    assert MarksAgree(Floored(st.ev.sources), st.ev.sources);
  }

  lemma StartIsConsistent(b: Bounds, w: World, boot: Id, accept: bool, at: int)
    requires NamedLog(w.log)
    ensures Consistent(b, Start(b, w, EMPTY_STATE, w.log, boot, accept, at).0)
  {
    hide Recovered, SuspendFrom, Sound, Refines, NamedLog, Recover, Decodable, Run, LegalRun, GuardedRun, Begun;
    var (w', ok) := Start(b, w, EMPTY_STATE, w.log, boot, accept, at);
    if Begins(b, w, EMPTY_STATE, w.log) {
      var begun := Begun(b, w, EMPTY_STATE, w.log, boot);
      BegunIsConsistent(b, w, boot);
      var tr := SuspendTrace(b, begun, LiveIds(begun.st), at);
      RunKeepsConsistent(b, begun, tr);
      RefinesIgnoresFlags(b, SuspendFrom(b, begun, LiveIds(begun.st), at).0, w');
    }
  }

  lemma RefinesIgnoresFlags(b: Bounds, w: World, v: World)
    requires w.st == v.st && w.log == v.log
    ensures Refines(b, w) <==> Refines(b, v)
  {
  }

  lemma NextIsConsistent(b: Bounds, w: World, e: Event)
    requires Consistent(b, w)
    ensures Consistent(b, Next(b, w, e))
  {
    hide Exec, Start, Sound, SameDurable, Replay;
    match e
    case Operate(op, at, faults) =>
      if w.running {
        var v := w.(faults := faults);
        if op.AcceptRecovery? {
          AcceptOnlyFlags(b, v, at);
        } else {
          var tr := OperationTrace(b, v, op, at);
          RunKeepsConsistent(b, v, tr);
        }
      }
    case CrashAt(keep) =>
    case Boot(boot, accept, at, faults) =>
      if !w.running {
        StartIsConsistent(b, w.(faults := faults), boot, accept, at);
      }
  }

  lemma AcceptOnlyFlags(b: Bounds, w: World, at: int)
    ensures Exec(b, w, AcceptRecovery, at).st == w.st && Exec(b, w, AcceptRecovery, at).log == w.log
  {
  }

  /** In every run from an empty store, with any crashes, restarts and refused commits, the
      running fabric's memory is what a replay of its journal gives. */
  lemma {:induction false} ReplayRefinesEveryRun(b: Bounds, es: seq<Event>)
    ensures Consistent(b, RunAll(b, EMPTY_WORLD, es))
  {
    hide Next, Sound, Refines;
    if es != [] {
      ReplayRefinesEveryRun(b, es[..|es| - 1]);
      NextIsConsistent(b, RunAll(b, EMPTY_WORLD, es[..|es| - 1]), es[|es| - 1]);
    }
  }
}
