/** Assignment identifiers: which finished assignments can come back to life, within a lifetime and
    across restarts (src/fabric.cpp, src/assignment.cpp). */
module Identifiers {
  import opened Units
  import opened Types
  import opened Ordered
  import opened Decisions
  import opened Claims
  import opened Machine
  import opened Steps
  import opened Traces
  import opened Runs
  import opened Refinement
  import opened Revalidation
  import opened Capacity
  import opened Restart
  import opened Holders
  import opened Dormancy
  import opened Effects

  predicate Finished(m: map<Id, Assignment>, id: Id) { id in m && IsTerminal(m[id].state) }

  /** The counter has passed the identifier: no later placement takes it. */
  predicate Spent(w: World, id: Id) {
    id < w.st.counters.ordinal || (id == w.st.counters.ordinal && !w.freshId)
  }

  // ---- One lifetime ---------------------------------------------------------------------------

  /** What is stored is new, or replaces a record that was not finished unless it stays so. */
  lemma WrittenIsNewOrOpen(b: Bounds, w: World, m: Micro)
    requires Legal(b, w, m) && Keyed(w.st.assignments) && Written(b, w, m).Some?
    ensures var a := Written(b, w, m).value;
      if m.Placed? then w.freshId && a.id == w.st.counters.ordinal && a.id != 0 && !IsTerminal(a.state)
      else a.id != 0 && a.id in w.st.assignments && (Finished(w.st.assignments, a.id) ==> IsTerminal(a.state))
  {
    hide ScopeConflict, EffectMatches;
  }

  lemma CountKeepsSpent(b: Bounds, w: World, m: Micro, id: Id)
    requires Legal(b, w, m) && m.Counted?
    ensures Spent(w, id) ==> Spent(Do(b, w, m), id)
    ensures Do(b, w, m).st.assignments == w.st.assignments
  {
  }

  lemma MicroKeepsFinished(b: Bounds, w: World, m: Micro, id: Id)
    requires Legal(b, w, m) && Keyed(w.st.assignments)
    ensures Keyed(Do(b, w, m).st.assignments) && (Spent(w, id) ==> Spent(Do(b, w, m), id))
    ensures Spent(w, id) && Finished(w.st.assignments, id) ==> Finished(Do(b, w, m).st.assignments, id)
  {
    hide Do, Legal, Insert;
    if m.Counted? {
      CountKeepsSpent(b, w, m, id);
    } else {
      DoWrites(b, w, m);
      if Written(b, w, m).Some? {
        WrittenIsNewOrOpen(b, w, m);
        InsertFrame(w.st, Written(b, w, m).value);
        hide Written;
      }
    }
  }

  /** A finished assignment whose identifier the counter has passed stays finished. */
  lemma {:induction false} FinishedStaysFinished(b: Bounds, w: World, tr: seq<Micro>, id: Id)
    requires LegalRun(b, w, tr) && Keyed(w.st.assignments) && Spent(w, id) && Finished(w.st.assignments, id)
    ensures Finished(Run(b, w, tr).st.assignments, id) && Spent(Run(b, w, tr), id)
    decreases |tr|
  {
    hide Do, Legal, Spent, Finished, Keyed;
    if tr != [] {
      MicroKeepsFinished(b, w, tr[0], id);
      FinishedStaysFinished(b, Do(b, w, tr[0]), tr[1..], id);
    }
  }

  /** The steps that take an identifier the counter has not passed. */
  function Retake(w: World, id: U64): seq<Micro>
    requires id in w.st.assignments && w.st.counters.fence < U64_MAX
  {
    var c := w.st.counters.(ordinal := if id > w.st.counters.ordinal then id else w.st.counters.ordinal, fence := w.st.counters.fence + 1);
    var a := w.st.assignments[id].(id := id, state := Lifecycle.Dispatched, effects := [], history := [],
                                   fence := Fence(w.st.epoch.counter, c.fence), attempt := c.attempt);
    [Counted(c), Placed(a, false, 0, NoFingerprint, 0)]
  }

  /** Any other is revived by a legal run. */
  lemma UnspentIsRevived(b: Bounds, w: World, id: U64)
    requires Finished(w.st.assignments, id) && id != 0 && !Spent(w, id) && w.st.counters.fence < U64_MAX
    ensures LegalRun(b, w, Retake(w, id)) && !Finished(Run(b, w, Retake(w, id)).st.assignments, id)
  {
    hide Insert, ScopeConflict;
    var tr := Retake(w, id);
    var w1, a := Do(b, w, tr[0]), tr[1].a;
    assert tr[1..] == [tr[1]];
    RunOne(b, w1, tr[1]);
    PutInserts(b, w1, a, 0, NoFingerprint, 0);
    InsertFrame(w1.st, a);
  }

  /** A finished assignment is finished for the rest of the lifetime exactly when the counter has
      passed its identifier. */
  lemma FinishedForGoodIff(b: Bounds, w: World, id: Id)
    requires Keyed(w.st.assignments) && Finished(w.st.assignments, id) && w.st.counters.fence < U64_MAX
    ensures (forall tr :: LegalRun(b, w, tr) ==> Finished(Run(b, w, tr).st.assignments, id)) <==> Spent(w, id)
  {
    hide LegalRun, Run, Spent, Finished, Retake;
    if Spent(w, id) {
      forall tr | LegalRun(b, w, tr) ensures Finished(Run(b, w, tr).st.assignments, id) { FinishedStaysFinished(b, w, tr, id); }
    } else {
      FinishedIsNamed(w.st.assignments, id);
      UnspentIsRevived(b, w, id);
    }
  }

  lemma FinishedIsNamed(m: map<Id, Assignment>, id: Id)
    requires Keyed(m) && Finished(m, id)
    ensures id in m && id != 0 && id <= U64_MAX
  {
  }

  /** The operations of one lifetime. */
  lemma {:induction false} FinishedThroughLifetime(b: Bounds, w: World, es: seq<Event>, id: Id)
    requires Sound(w.st) && OnlyOperations(es) && Spent(w, id) && Finished(w.st.assignments, id)
    ensures
      var v := RunAll(b, w, es);
      Sound(v.st) && Spent(v, id) && Finished(v.st.assignments, id)
  {
    hide Exec, Spent, Finished, Sound;
    if es != [] {
      var before, e := es[..|es| - 1], es[|es| - 1];
      FinishedThroughLifetime(b, w, before, id);
      var v := RunAll(b, w, before);
      if v.running {
        var u := v.(faults := e.faults);
        SpentIgnoresFaults(v, u, id);
        ExecKeepsSound(b, u, e.op, e.at);
        if e.op.AcceptRecovery? {
          AcceptIsNeutral(b, u, e.at, id);
        } else {
          var tr := OperationTrace(b, u, e.op, e.at);
          SoundMeansKeyed(u.st);
          FinishedStaysFinished(b, u, tr, id);
        }
      }
    }
  }

  lemma SpentIgnoresFaults(w: World, v: World, id: Id)
    requires v == w.(faults := v.faults)
    ensures Spent(v, id) <==> Spent(w, id)
  {
  }

  lemma AcceptIsNeutral(b: Bounds, w: World, at: int, id: Id)
    ensures Exec(b, w, AcceptRecovery, at).st == w.st && (Spent(Exec(b, w, AcceptRecovery, at), id) <==> Spent(w, id))
  {
  }

  // ---- The counter after a restart ------------------------------------------------------------

  lemma {:induction false} RebuiltOrdinal(st: State, c: Counters, ids: seq<Id>)
    requires forall id :: id in ids ==> id in st.assignments && st.assignments[id].id == id && id <= U64_MAX
    ensures RebuildCounters(st, c, ids).ordinal >= c.ordinal
    ensures forall id :: id in ids ==> id <= RebuildCounters(st, c, ids).ordinal
    ensures RebuildCounters(st, c, ids).ordinal == c.ordinal || RebuildCounters(st, c, ids).ordinal in ids
    decreases |ids|
  {
    if ids != [] {
      var a := st.assignments[ids[0]];
      var next := Counters(AtLeast(c.ordinal, a.id), AtLeast(c.lease, a.lease), AtLeast(c.attempt, a.attempt),
                           if a.fence.epoch == st.epoch.counter then AtLeast(c.fence, a.fence.sequence) else c.fence);
      RebuiltOrdinal(st, next, ids[1..]);
      assert ids == [ids[0]] + ids[1..];
    }
  }

  /** Leases, attempts and the current epoch's fences are lifted the same way: to the highest one carried
      by a live record. */
  lemma {:induction false} RebuiltTokens(st: State, c: Counters, ids: seq<Id>)
    requires forall id :: id in ids ==> id in st.assignments
    ensures
      var r := RebuildCounters(st, c, ids);
      && c.lease <= r.lease && c.attempt <= r.attempt && c.fence <= r.fence
      && (forall id :: id in ids && st.assignments[id].lease <= U64_MAX ==> st.assignments[id].lease <= r.lease)
      && (forall id :: id in ids && st.assignments[id].attempt <= U64_MAX ==> st.assignments[id].attempt <= r.attempt)
      && (forall id :: id in ids && st.assignments[id].fence.epoch == st.epoch.counter && st.assignments[id].fence.sequence <= U64_MAX ==>
            st.assignments[id].fence.sequence <= r.fence)
      && (r.lease == c.lease || exists id :: id in ids && r.lease == st.assignments[id].lease)
      && (r.attempt == c.attempt || exists id :: id in ids && r.attempt == st.assignments[id].attempt)
      && (r.fence == c.fence || exists id :: id in ids && st.assignments[id].fence == Fence(st.epoch.counter, r.fence))
    decreases |ids|
  {
    if ids != [] {
      var a := st.assignments[ids[0]];
      var next := Counters(AtLeast(c.ordinal, a.id), AtLeast(c.lease, a.lease), AtLeast(c.attempt, a.attempt),
                           if a.fence.epoch == st.epoch.counter then AtLeast(c.fence, a.fence.sequence) else c.fence);
      RebuiltTokens(st, next, ids[1..]);
      assert ids == [ids[0]] + ids[1..] && ids[0] in ids;
    }
  }

  predicate BelowSome(live: set<Id>, id: Id) { exists top :: top in live && id <= top }

  /** Counters are lifted from live records only: without a snapshot the rebuilt counter reaches an
      identifier exactly when some live record is at or above it. */
  lemma RestartKnowsIdsIffHighestIsLive(st: State, id: Id)
    requires Keyed(st.assignments) && st.counters.ordinal == 0 && id != 0
    ensures id <= Rebuild(st).counters.ordinal <==> BelowSome(LiveSet(st), id)
  {
    hide RebuildClaims, RebuildCounters, RefreshUsage;
    RebuiltOrdinal(st, st.counters, LiveIds(st));
  }

  lemma {:induction false} ReplayKeepsCounters(b: Bounds, st: State, log: seq<Record>)
    ensures Replay(b, st, log).counters == st.counters
  {
    if log != [] {
      ReplayKeepsCounters(b, st, log[..|log| - 1]);
      ApplyKeepsCounters(b, Replay(b, st, log[..|log| - 1]), log[|log| - 1]);
    }
  }

  lemma ApplyKeepsCounters(b: Bounds, st: State, r: Record)
    ensures ApplyRecord(b, st, r).counters == st.counters
  {
    hide Reindex, RefreshUsage, ApplyEvidence, ApplyGrants;
  }

  lemma {:induction false} SuspensionKeepsLive(b: Bounds, w: World, ids: seq<Id>, at: int)
    requires Keyed(w.st.assignments) && forall id :: id in ids ==> id in w.st.assignments && IsLive(w.st.assignments[id].state)
    ensures
      var v := SuspendFrom(b, w, ids, at).0;
      && LiveSet(v.st) == LiveSet(w.st) && v.st.counters == w.st.counters && v.freshId == w.freshId && Keyed(v.st.assignments)
    decreases |ids|
  {
    hide Put, Moved, LiveSet;
    if ids != [] {
      if w.st.assignments[ids[0]].state.Suspended? {
        SuspensionKeepsLive(b, w, ids[1..], at);
      } else {
        var a := w.st.assignments[ids[0]];
        var moved := Moved(b, a, Lifecycle.Suspended, RestartAuthorityReset, at);
        MovedIsSuspended(b, a, RestartAuthorityReset, at);
        MovedKeepsId(b, a, Lifecycle.Suspended, RestartAuthorityReset, at);
        StoreFrame(b, w, moved, 0, NoFingerprint, at);
        StoreKeepsFresh(b, w, moved, 0, NoFingerprint, at);
        SuspendingKeepsLive(w.st, Store(b, w, moved, 0, NoFingerprint, at).0.st, moved);
        if Store(b, w, moved, 0, NoFingerprint, at).1 {
          SuspensionKeepsLive(b, Store(b, w, moved, 0, NoFingerprint, at).0, ids[1..], at);
        }
      }
    }
  }

  lemma StoreKeepsFresh(b: Bounds, w: World, a: Assignment, id: Id, fp: Fingerprint, at: int)
    ensures Store(b, w, a, id, fp, at).0.freshId == w.freshId
  {
  }

  lemma SuspendingKeepsLive(st: State, now: State, a: Assignment)
    requires a.id in st.assignments && IsLive(st.assignments[a.id].state) && IsLive(a.state)
    requires now.assignments == st.assignments || now.assignments == st.assignments[a.id := a]
    ensures LiveSet(now) == LiveSet(st)
  {
  }

  lemma StartedCounter(b: Bounds, w: World, boot: Id, accept: bool, at: int, id: Id)
    requires NamedLog(w.log) && Start(b, w, EMPTY_STATE, w.log, boot, accept, at).1 && id != 0
    ensures
      var v := Start(b, w, EMPTY_STATE, w.log, boot, accept, at).0;
      Keyed(v.st.assignments) && (Spent(v, id) <==> BelowSome(LiveSet(v.st), id))
  {
    hide SuspendFrom, Replay, Rebuild, Decodable, NamedLog;
    var st, begun := Replay(b, EMPTY_STATE, w.log), Begun(b, w, EMPTY_STATE, w.log, boot);
    ReplayIsSound(b, w.log);
    ReplayKeepsCounters(b, EMPTY_STATE, w.log);
    RestartKnowsIdsIffHighestIsLive(st, id);
    RebuildKeepsAssignments(st);
    SuspensionKeepsLive(b, begun, LiveIds(begun.st), at);
  }

  lemma RebuildKeepsAssignments(st: State)
    ensures Rebuild(st).assignments == st.assignments
  {
    hide RebuildClaims, RebuildCounters, RefreshUsage;
  }

  /** In every run: when a lifetime begins, a finished assignment is finished for all of that
      lifetime exactly when some live record has a higher identifier. */
  lemma FinishedForGoodIffBelowLive(b: Bounds, es: seq<Event>, boot: Id, accept: bool, at: int, faults: seq<bool>, id: Id)
    requires !RunAll(b, EMPTY_WORLD, es).running
    requires
      var w := Next(b, RunAll(b, EMPTY_WORLD, es), Boot(boot, accept, at, faults));
      w.running && Finished(w.st.assignments, id)
    ensures
      var w := Next(b, RunAll(b, EMPTY_WORLD, es), Boot(boot, accept, at, faults));
      (forall tr :: LegalRun(b, w, tr) ==> Finished(Run(b, w, tr).st.assignments, id)) <==> BelowSome(LiveSet(w.st), id)
  {
    hide Start, RunAll, Finished, LiveSet, Consistent, LegalRun, Run, Spent;
    var v := RunAll(b, EMPTY_WORLD, es).(faults := faults);
    ReplayRefinesEveryRun(b, es);
    ConsistentParts(b, RunAll(b, EMPTY_WORLD, es));
    StartRunsOnlyIfOk(b, v, boot, accept, at);
    var w := Start(b, v, EMPTY_STATE, v.log, boot, accept, at).0;
    RestartIsConservative(b, v, EMPTY_STATE, v.log, boot, accept, at);
    FenceIsZero(w.st);
    SoundMeansKeyed(w.st);
    FinishedIsNamed(w.st.assignments, id);
    StartedCounter(b, v, boot, accept, at, id);
    FinishedForGoodIff(b, w, id);
  }

  // ---- No holder is ever overwritten by a placement ------------------------------------------------

  /** Whatever is stored under an identifier the counter has not passed is finished. */
  predicate UnspentAreFinished(w: World) {
    Keyed(w.st.assignments) && forall id :: id in w.st.assignments && !Spent(w, id) ==> IsTerminal(w.st.assignments[id].state)
  }

  lemma MicroKeepsUnspentFinished(b: Bounds, w: World, m: Micro)
    requires Legal(b, w, m) && UnspentAreFinished(w)
    ensures UnspentAreFinished(Do(b, w, m))
  {
    hide Do, Legal, Insert;
    if m.Counted? {
      forall id ensures Spent(w, id) ==> Spent(Do(b, w, m), id) { CountKeepsSpent(b, w, m, id); }
      CountKeepsSpent(b, w, m, 0);
    } else {
      DoWrites(b, w, m);
      if Written(b, w, m).Some? {
        WrittenIsNewOrOpen(b, w, m);
        InsertFrame(w.st, Written(b, w, m).value);
        hide Written;
      }
    }
  }

  lemma {:induction false} RunKeepsUnspentFinished(b: Bounds, w: World, tr: seq<Micro>)
    requires LegalRun(b, w, tr) && UnspentAreFinished(w)
    ensures UnspentAreFinished(Run(b, w, tr))
    decreases |tr|
  {
    hide Do, Legal, UnspentAreFinished;
    if tr != [] {
      MicroKeepsUnspentFinished(b, w, tr[0]);
      RunKeepsUnspentFinished(b, Do(b, w, tr[0]), tr[1..]);
    }
  }

  lemma StartedUnspentAreFinished(b: Bounds, w: World, boot: Id, accept: bool, at: int)
    requires NamedLog(w.log) && Start(b, w, EMPTY_STATE, w.log, boot, accept, at).1
    ensures UnspentAreFinished(Start(b, w, EMPTY_STATE, w.log, boot, accept, at).0)
  {
    hide Start, Spent;
    var v := Start(b, w, EMPTY_STATE, w.log, boot, accept, at).0;
    StartedCounter(b, w, boot, accept, at, 1);
    forall id | id in v.st.assignments && !Spent(v, id) ensures IsTerminal(v.st.assignments[id].state) {
      StartedCounter(b, w, boot, accept, at, id);
      assert id !in LiveSet(v.st);
    }
  }

  /** In every run the next placement never overwrites a holder, at worst a finished record. */
  lemma {:induction false} NewIdentifierHoldsNothing(b: Bounds, es: seq<Event>)
    ensures
      var w := RunAll(b, EMPTY_WORLD, es);
      w.running ==> UnspentAreFinished(w) && !HoldsBefore(w, w.st.counters.ordinal + 1)
  {
    hide Exec, Start, Consistent;
    if es != [] {
      var w, e := RunAll(b, EMPTY_WORLD, es[..|es| - 1]), es[|es| - 1];
      NewIdentifierHoldsNothing(b, es[..|es| - 1]);
      ReplayRefinesEveryRun(b, es[..|es| - 1]);
      ConsistentParts(b, w);
      match e
      case Operate(op, at, faults) =>
        if w.running {
          var v := w.(faults := faults);
          if op.AcceptRecovery? {
            forall id ensures Spent(Exec(b, v, op, at), id) <==> Spent(v, id) { AcceptIsNeutral(b, v, at, id); }
            AcceptIsNeutral(b, v, at, 0);
          } else {
            var tr := OperationTrace(b, v, op, at);
            RunKeepsUnspentFinished(b, v, tr);
          }
        }
      case CrashAt(_) =>
      case Boot(boot, accept, at, faults) =>
        if !w.running {
          var v := w.(faults := faults);
          StartRunsOnlyIfOk(b, v, boot, accept, at);
          if Start(b, v, EMPTY_STATE, v.log, boot, accept, at).1 { StartedUnspentAreFinished(b, v, boot, accept, at); }
        }
    }
  }
}
