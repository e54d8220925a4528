/** Crash-anywhere mutual exclusion: no prefix of the journal of any guarded run replays to
    two exclusive holders of one scope and class (src/fabric.cpp). */
module Exclusion {
  import opened Units
  import opened Types
  import opened Decisions
  import opened Claims
  import opened Idempotency
  import opened Machine
  import opened Steps
  import opened Traces
  import opened Runs
  import opened Refinement
  import opened Agreement
  import opened Holders

  /** Exclusive holders do not overlap, and the indexes are exactly the exclusive holders. */
  predicate Exclusively(st: State) {
    Sound(st) && IndexComplete(st.assignments, st.index) && MutuallyExclusive(st.assignments)
  }

  /** Inserting a record that no other indexed holder conflicts with. */
  lemma InsertUnconflicted(s: State, a: Assignment)
    requires Exclusively(s) && a.id != 0
    requires ClaimsExclusively(a) ==> ScopeConflict(s.index, a.scope.id, a.cls, a.exclusiveKey, a.id) == 0
    ensures Exclusively(Insert(s, a))
  {
    hide ScopeConflict, Insert;
    InsertKeepsSound(s, a);
    InsertKeepsExclusive(s, a);
    if ClaimsExclusively(a) {
      ConflictLookupIsExact(s, a.scope.id, a.cls, a.exclusiveKey, a.id);
      forall id | id in s.assignments && id != a.id ensures !Overlap(a, s.assignments[id]) {
        assert !ConflictingHolder(s, a.scope.id, a.cls, a.exclusiveKey, a.id, id);
      }
    }
  }

  /** A lookup that excuses nobody is stronger than one that excuses the record itself. */
  lemma ConflictWeakens(ix: Index, scope: Id, cls: Class, key: KeyMode, id: Id)
    requires ScopeConflict(ix, scope, cls, key, 0) == 0 && 0 !in ix.byScope.Values && 0 !in ix.byClass.Values
    ensures ScopeConflict(ix, scope, cls, key, id) == 0
  {
    if scope != 0 && key.PerScope? {
      assert ClassesHeldByOthers(ix, scope, id) <= ClassesHeldByOthers(ix, scope, 0);
    }
  }

  /** An assignment that already holds its claim conflicts with nobody else. */
  lemma HolderIsUnconflicted(st: State, id: Id)
    requires Exclusively(st) && id in st.assignments && ClaimsExclusively(st.assignments[id])
    ensures
      var a := st.assignments[id];
      ScopeConflict(st.index, a.scope.id, a.cls, a.exclusiveKey, id) == 0
  {
    hide ScopeConflict;
    var a := st.assignments[id];
    ConflictLookupIsExact(st, a.scope.id, a.cls, a.exclusiveKey, id);
    forall other | other in st.assignments ensures !ConflictingHolder(st, a.scope.id, a.cls, a.exclusiveKey, id, other) {
      assert other != id ==> !Overlap(a, st.assignments[other]);
    }
  }

  lemma MicroKeepsExclusive(b: Bounds, w: World, m: Micro)
    requires Legal(b, w, m) && Guarded(w, m) && Exclusively(w.st)
    ensures Exclusively(Do(b, w, m).st)
  {
    hide Do, Insert, Legal, Guarded, Written;
    DoWrites(b, w, m);
    if Written(b, w, m).Some? {
      WrittenIsUnconflicted(b, w, m);
      InsertUnconflicted(w.st, Written(b, w, m).value);
    }
  }

  lemma WrittenIsUnconflicted(b: Bounds, w: World, m: Micro)
    requires Legal(b, w, m) && Guarded(w, m) && Exclusively(w.st) && Written(b, w, m).Some?
    ensures var a := Written(b, w, m).value;
      a.id != 0 && (ClaimsExclusively(a) ==> ScopeConflict(w.st.index, a.scope.id, a.cls, a.exclusiveKey, a.id) == 0)
  {
    hide Insert, ScopeConflict, EffectMatches;
    match m
    case Placed(a, _, _, _, _) =>
      if ClaimsExclusively(a) { ConflictWeakens(w.st.index, a.scope.id, a.cls, a.exclusiveKey, a.id); }
    case Left(target, _, _, _, _, _) =>
      if ClaimsExclusively(w.st.assignments[target]) { HolderIsUnconflicted(w.st, target); }
    case Reported(r, _) =>
      if ClaimsExclusively(w.st.assignments[r.assignment]) { HolderIsUnconflicted(w.st, r.assignment); }
    case _ =>
  }

  /** The guard is exact: a record that takes up an exclusive claim, placed or re-entering,
      keeps exclusion if and only if the index lookup for its own claim finds nobody else. */
  lemma ClaimIsSafeIffUnconflicted(st: State, a: Assignment)
    requires Exclusively(st) && a.id != 0 && ClaimsExclusively(a)
    ensures MutuallyExclusive(Insert(st, a).assignments) <==>
            ScopeConflict(st.index, a.scope.id, a.cls, a.exclusiveKey, a.id) == 0
  {
    hide ScopeConflict, Insert;
    InsertKeepsExclusive(st, a);
    ConflictLookupIsExact(st, a.scope.id, a.cls, a.exclusiveKey, a.id);
    forall id | id in st.assignments && id != a.id
      ensures Overlap(a, st.assignments[id]) <==> ConflictingHolder(st, a.scope.id, a.cls, a.exclusiveKey, a.id, id)
    {
    }
  }

  /** `reauthorize` gives back an exclusive claim without looking: exclusion survives exactly when
      no other indexed holder conflicts with the record. */
  lemma ReauthorizeIsSafeIff(b: Bounds, w: World, requestId: Id, id: Id, authority: Id, at: int)
    requires Exclusively(w.st) && !Known(w.st, requestId) && id in w.st.assignments && !HoldsAuthority(w.st.assignments[id].state)
    requires ReauthorizeAssignment(b, w, requestId, id, authority, at).result.Success?
    requires ClaimsExclusively(ReauthorizeAssignment(b, w, requestId, id, authority, at).result.value)
    ensures MutuallyExclusive(ReauthorizeAssignment(b, w, requestId, id, authority, at).w.st.assignments) <==> Unconflicted(w.st, id)
  {
    hide ScopeConflict, Insert, ReauthorizeCheck, Put, MutuallyExclusive;
    var c := IssueTokens(w.st.counters).0;
    var w1 := Raise(w, c);
    var a := ReauthorizeAssignment(b, w, requestId, id, authority, at).result.value;
    PutInserts(b, w1, a, requestId, OfReauthorize(id), at);
    InsertFrame(w1.st, a);
    InsertFrame(w.st, a);
    ClaimIsSafeIffUnconflicted(w.st, a);
  }

  /** So does an Applied report on a degraded record. */
  lemma AppliedReportIsSafeIff(b: Bounds, w: World, r: EffectReport, at: int)
    requires Exclusively(w.st) && !Known(w.st, r.requestId) && r.assignment in w.st.assignments
    requires w.st.assignments[r.assignment].state.Degraded?
    requires ReportEffect(b, w, r, at).result.Success? && ClaimsExclusively(ReportEffect(b, w, r, at).result.value)
    ensures MutuallyExclusive(ReportEffect(b, w, r, at).w.st.assignments) <==> Unconflicted(w.st, r.assignment)
  {
    hide ScopeConflict, Insert, EffectMatches, PutEffect, MutuallyExclusive;
    var a := ReportEffect(b, w, r, at).result.value;
    PutEffectInserts(b, w, r, a, at);
    InsertFrame(w.st, a);
    ClaimIsSafeIffUnconflicted(w.st, a);
  }

  /** A placement vets its claim under the rule's key mode, not under the plan's: exclusion survives
      an accepted exclusive plan exactly when it is unopposed. */
  lemma PlacementIsSafeIff(b: Bounds, w: World, plan: Plan, digest: Fingerprint, opts: Options, at: int)
    requires Exclusively(w.st) && plan.exclusivity.Exclusive? && !HoldsBefore(w, w.st.counters.ordinal + 1)
    requires Authorize(b, w, plan, digest, opts, at).result.Success?
    ensures MutuallyExclusive(Authorize(b, w, plan, digest, opts, at).w.st.assignments) <==> Unopposed(w.st, plan, digest, opts, at)
  {
    hide Authorize, AuthorizeCheck, ScopeConflict;
    AuthorizeStores(b, w, plan, digest, opts, at);
    AuthorizeFacts(w.st, plan, digest, opts, at);
    var a, r := Authorize(b, w, plan, digest, opts, at).result.value, AuthorizeCheck(w.st, plan, digest, opts, at).value;
    ConflictLookupIsExact(w.st, plan.scope.id, plan.cls, plan.exclusiveKey, r);
    if r != 0 { ConflictIsHolder(w.st, plan.scope.id, plan.cls, plan.exclusiveKey, 0); }
    PlacementOverlaps(b, w.st, r, a, at);
  }

  /** After a placement exclusion is lost exactly by a holder the new record overlaps. */
  lemma PlacementOverlaps(b: Bounds, st: State, r: Id, a: Assignment, at: int)
    requires Keyed(st.assignments) && MutuallyExclusive(st.assignments) && ClaimsExclusively(a)
    requires a.id in st.assignments ==> !HoldsAuthority(st.assignments[a.id].state)
    ensures MutuallyExclusive(AfterPlacement(b, st.assignments, r, a, at)) <==>
            !exists id :: ConflictingHolder(st, a.scope.id, a.cls, a.exclusiveKey, r, id)
  {
    var m, n := st.assignments, AfterPlacement(b, st.assignments, r, a, at);
    assert forall id :: id in n && id != a.id ==> id in m && (id != r ==> n[id] == m[id]) && (id == r && r != 0 ==> !HoldsAuthority(n[id].state));
    forall id | id in n && id != a.id
      ensures Overlap(a, n[id]) <==> ConflictingHolder(st, a.scope.id, a.cls, a.exclusiveKey, r, id)
    {
    }
    if id :| ConflictingHolder(st, a.scope.id, a.cls, a.exclusiveKey, r, id) {
      assert id != a.id && id in n && n[a.id] == a && Overlap(n[a.id], n[id]);
    } else {
      forall i, j | i in n && j in n && i != j ensures !Overlap(n[i], n[j]) {
        if i != a.id && j != a.id && i != r && j != r { assert !Overlap(m[i], m[j]); }
      }
    }
  }

  // ---- Every prefix of the journal ---------------------------------------------------------

  predicate ExclusivePrefixes(b: Bounds, log: seq<Record>) {
    forall k :: 0 <= k <= |log| ==> MutuallyExclusive(Replay(b, EMPTY_STATE, log[..k]).assignments)
  }

  predicate CrashSafe(b: Bounds, w: World) {
    Refines(b, w) && NamedLog(w.log) && ExclusivePrefixes(b, w.log) && Exclusively(w.st)
  }

  lemma PrefixesGrow(b: Bounds, log: seq<Record>, r: Record)
    requires ExclusivePrefixes(b, log) && MutuallyExclusive(Replay(b, EMPTY_STATE, log + [r]).assignments)
    ensures ExclusivePrefixes(b, log + [r])
  {
    hide Replay, MutuallyExclusive;
    forall k | 0 <= k <= |log| + 1 ensures MutuallyExclusive(Replay(b, EMPTY_STATE, (log + [r])[..k]).assignments) {
      if k <= |log| {
        assert (log + [r])[..k] == log[..k];
      } else {
        assert (log + [r])[..k] == log + [r];
      }
    }
  }

  lemma MicroIsCrashSafe(b: Bounds, w: World, m: Micro)
    requires Legal(b, w, m) && Guarded(w, m) && CrashSafe(b, w)
    ensures CrashSafe(b, Do(b, w, m))
  {
    hide Do, Committed, Replay, Exclusively, MutuallyExclusive, NamedLog, Guarded, Legal, ExclusivePrefixes;
    MicroRefines(b, w, m);
    ExclusiveParts(w.st);
    MicroKeepsSound(b, w, m);
    MicroKeepsExclusive(b, w, m);
    ExclusiveParts(Do(b, w, m).st);
    DoCommits(b, w, m);
    if Committed(b, w, m).Some? {
      PrefixesGrow(b, w.log, Committed(b, w, m).value);
    } else {
      assert w.log + [] == w.log;
    }
  }

  lemma ExclusiveParts(st: State)
    requires Exclusively(st)
    ensures Sound(st) && MutuallyExclusive(st.assignments)
  {
  }

  lemma {:induction false} RunIsCrashSafe(b: Bounds, w: World, tr: seq<Micro>)
    requires LegalRun(b, w, tr) && GuardedRun(b, w, tr) && CrashSafe(b, w)
    ensures CrashSafe(b, Run(b, w, tr))
    decreases |tr|
  {
    hide Do, CrashSafe, Legal, Guarded;
    if tr != [] {
      MicroIsCrashSafe(b, w, tr[0]);
      RunIsCrashSafe(b, Do(b, w, tr[0]), tr[1..]);
    }
  }

  predicate SafeWorld(b: Bounds, w: World) {
    NamedLog(w.log) && ExclusivePrefixes(b, w.log) && (w.running ==> CrashSafe(b, w))
  }

  // ---- Restart -------------------------------------------------------------------------------

  lemma {:induction false} StaysIndexed(assignments: map<Id, Assignment>, ix: Index, ids: seq<Id>, id: Id)
    requires Keyed(assignments) && MutuallyExclusive(assignments) && forall i :: i in ids ==> i in assignments
    requires id in assignments && ClaimsExclusively(assignments[id]) && assignments[id].scope.id != 0
    requires Indexed(ix, assignments[id])
    ensures Indexed(RebuildClaims(ix, assignments, ids), assignments[id])
    decreases |ids|
  {
    if ids != [] {
      assert ids[0] != id ==> !Overlap(assignments[id], assignments[ids[0]]);
      StaysIndexed(assignments, Acquire(ix, assignments[ids[0]]), ids[1..], id);
    }
  }

  lemma {:induction false} GetsIndexed(assignments: map<Id, Assignment>, ix: Index, ids: seq<Id>, id: Id)
    requires Keyed(assignments) && MutuallyExclusive(assignments) && forall i :: i in ids ==> i in assignments
    requires id in ids && ClaimsExclusively(assignments[id]) && assignments[id].scope.id != 0
    ensures Indexed(RebuildClaims(ix, assignments, ids), assignments[id])
    decreases |ids|
  {
    if ids[0] == id {
      StaysIndexed(assignments, Acquire(ix, assignments[id]), ids[1..], id);
    } else {
      GetsIndexed(assignments, Acquire(ix, assignments[ids[0]]), ids[1..], id);
    }
  }

  /** An index rebuilt from exclusive holders is complete again. */
  lemma RebuildIsComplete(st: State)
    requires Keyed(st.assignments) && MutuallyExclusive(st.assignments)
    ensures IndexComplete(st.assignments, RebuildClaims(EMPTY_INDEX, st.assignments, LiveIds(st)))
  {
    hide RebuildClaims;
    forall id | id in st.assignments && ClaimsExclusively(st.assignments[id]) && st.assignments[id].scope.id != 0
      ensures Indexed(RebuildClaims(EMPTY_INDEX, st.assignments, LiveIds(st)), st.assignments[id])
    {
      GetsIndexed(st.assignments, EMPTY_INDEX, LiveIds(st), id);
    }
  }

  lemma BegunIsCrashSafe(b: Bounds, w: World, boot: Id)
    requires NamedLog(w.log) && ExclusivePrefixes(b, w.log) && Recovered(b, EMPTY_STATE, w.log).epoch.highest < U64_MAX
    ensures CrashSafe(b, Begun(b, w, EMPTY_STATE, w.log, boot))
  {
    hide Replay, RebuildCounters, RebuildClaims, SameDurable, Sound, ExclusivePrefixes, MutuallyExclusive, NamedLog;
    BegunIsConsistent(b, w, boot);
    var st := Replay(b, EMPTY_STATE, w.log);
    LastPrefix(b, w.log);
    ReplayIsSound(b, w.log);
    SoundIsKeyed(st);
    RebuildIsComplete(st);
    ReplayJoins(b, EMPTY_STATE, w.log, EpochStarted(st.epoch.highest + 1, boot));
    PrefixesGrow(b, w.log, EpochStarted(st.epoch.highest + 1, boot));
  }

  lemma SoundIsKeyed(st: State)
    requires Sound(st)
    ensures Keyed(st.assignments)
  {
  }

  lemma LastPrefix(b: Bounds, log: seq<Record>)
    requires ExclusivePrefixes(b, log)
    ensures MutuallyExclusive(Replay(b, EMPTY_STATE, log).assignments)
  {
    assert log[..|log|] == log;
  }

  lemma StartIsSafe(b: Bounds, w: World, boot: Id, accept: bool, at: int)
    requires NamedLog(w.log) && ExclusivePrefixes(b, w.log)
    ensures SafeWorld(b, Start(b, w, EMPTY_STATE, w.log, boot, accept, at).0)
  {
    hide Recovered, SuspendFrom, Exclusively, Refines, NamedLog, ExclusivePrefixes, Recover, Decodable, Run, LegalRun, GuardedRun, Begun;
    var (w', ok) := Start(b, w, EMPTY_STATE, w.log, boot, accept, at);
    if Begins(b, w, EMPTY_STATE, w.log) {
      var begun := Begun(b, w, EMPTY_STATE, w.log, boot);
      BegunIsCrashSafe(b, w, boot);
      var tr := SuspendTrace(b, begun, LiveIds(begun.st), at);
      RunIsCrashSafe(b, begun, tr);
      RefinesIgnoresFlags(b, SuspendFrom(b, begun, LiveIds(begun.st), at).0, w');
    }
  }

  lemma CrashKeepsPrefixes(b: Bounds, log: seq<Record>, keep: nat)
    requires ExclusivePrefixes(b, log) && NamedLog(log) && keep <= |log|
    ensures ExclusivePrefixes(b, log[..keep]) && NamedLog(log[..keep])
  {
    hide Replay, MutuallyExclusive;
    forall k | 0 <= k <= keep ensures MutuallyExclusive(Replay(b, EMPTY_STATE, log[..keep][..k]).assignments) {
      assert log[..keep][..k] == log[..k];
    }
  }

  lemma SafeIgnoresFaults(w: World, op: Operation, at: int, faults: seq<bool>)
    ensures Safe(w, Operate(op, at, faults)) <==> Safe(w.(faults := faults), Operate(op, at, faults))
  {
  }

  lemma NextIsSafe(b: Bounds, w: World, e: Event)
    requires SafeWorld(b, w) && Safe(w, e)
    ensures SafeWorld(b, Next(b, w, e))
  {
    hide Exec, Start, Refines, ExclusivePrefixes, NamedLog, Exclusively, Safe;
    match e
    case Operate(op, at, faults) =>
      if w.running {
        var v := w.(faults := faults);
        RefinesIgnoresFlags(b, w, v);
        if op.AcceptRecovery? {
          AcceptOnlyFlags(b, v, at);
          RefinesIgnoresFlags(b, v, Exec(b, v, op, at));
        } else {
          ExclusiveParts(v.st);
          SafeIgnoresFaults(w, op, at, faults);
          var tr := OperationTrace(b, v, op, at);
          RunIsCrashSafe(b, v, tr);
        }
      }
    case CrashAt(keep) =>
      if keep <= |w.log| { CrashKeepsPrefixes(b, w.log, keep); }
    case Boot(boot, accept, at, faults) =>
      if !w.running {
        StartIsSafe(b, w.(faults := faults), boot, accept, at);
      }
  }

  /** In every run from an empty store whose re-entries and supplied plans meet the caller's
      hypothesis, with crashes that keep any prefix of the journal, restarts, and commits
      refused anywhere: every prefix of the journal replays to at most one exclusive holder
      per scope and class and none beside a whole-scope holder, and while the fabric runs
      its two indexes name exactly its exclusive holders. */
  lemma {:induction false} CrashAnywhereExclusion(b: Bounds, es: seq<Event>)
    requires AllSafe(b, EMPTY_WORLD, es)
    ensures SafeWorld(b, RunAll(b, EMPTY_WORLD, es))
  {
    hide Next, Safe, SafeWorld;
    if es == [] {
      EmptyIsSafe(b);
    } else {
      var before := es[..|es| - 1];
      forall i | 0 <= i < |before| ensures Safe(RunAll(b, EMPTY_WORLD, before[..i]), before[i]) {
        assert before[..i] == es[..i];
      }
      CrashAnywhereExclusion(b, before);
      NextIsSafe(b, RunAll(b, EMPTY_WORLD, before), es[|es| - 1]);
    }
  }

  lemma EmptyIsSafe(b: Bounds)
    ensures SafeWorld(b, EMPTY_WORLD)
  {
    assert EMPTY_WORLD.log[..0] == [];
  }
}
