/** Withdrawn grants: from a withdrawal on, who may still hold authority under the grant
    (src/fabric.cpp, src/authority.cpp). */
module Withdrawal {
  import opened Units
  import opened Types
  import opened Decisions
  import opened Claims
  import opened Machine
  import opened Steps
  import opened Traces
  import opened Runs
  import opened Refinement
  import opened Revalidation
  import opened Capacity
  import opened Restart
  import opened Criteria
  import opened Standing
  import opened Ingestion
  import opened Dormancy
  import opened Agreement
  import opened Holders
  import opened Suitability
  import opened Choice
  import opened Admission

  /** No authority holder names the grant. */
  predicate Unused(m: map<Id, Assignment>, g: Id) {
    forall id :: id in m && Holder(m[id].state) ==> m[id].authority != g
  }

  predicate Withdrawn(st: State, g: Id) { g in st.grants && st.grants[g].revoked }

  /** A withdrawal that takes effect and whose revalidation succeeds leaves the grant without holders. */
  lemma WithdrawalEndsAuthority(b: Bounds, w: World, g: Id, reason: Reason, stamp: int, at: int)
    requires Keyed(w.st.assignments) && Submit(b, w, Record.AuthorityWithdrawn(g, reason, stamp), at).1.Success?
    requires Submit(b, w, Record.AuthorityWithdrawn(g, reason, stamp), at).0.log != w.log
    ensures
      var st := Submit(b, w, Record.AuthorityWithdrawn(g, reason, stamp), at).0.st;
      Withdrawn(st, g) && Unused(st.assignments, g)
  {
    hide Submit, Stands;
    var r := Record.AuthorityWithdrawn(g, reason, stamp);
    SubmitIs(b, w, r, at);
    var st := Submit(b, w, r, at).0.st;
    ToldWithdrawn(b, w.st, st, g, r);
    EvidenceLeavesStanding(b, w, r, at);
    forall id | id in st.assignments && Holder(st.assignments[id].state) ensures st.assignments[id].authority != g {
      if st.assignments[id].authority != 0 { StandingIsPermitted(st, st.assignments[id], at); }
    }
  }

  lemma ToldWithdrawn(b: Bounds, s: State, t: State, g: Id, r: Record)
    requires r.AuthorityWithdrawn? && r.authority == g && Learnable(b, s, r) && Told(s, t, r)
    ensures Withdrawn(t, g) && g != 0
  {
    assert t.grants[g].(used := 0) == s.grants[g].(revoked := true, used := 0);
  }

  lemma StandingIsPermitted(st: State, a: Assignment, at: int)
    requires Stands(st, a, at) && a.authority != 0
    ensures !Withdrawn(st, a.authority)
  {
    hide TargetStands, Observed;
  }

  /** The two ways the code leaves to hold authority under a withdrawn grant: a supplied plan that names
      it under a rule that asks for no authority, and an Applied report on a degraded record that names it. */
  predicate Revives(st: State, op: Operation, g: Id) {
    match op
    case ApplyPlanned(planned, _, _) => planned.PlanMade? && planned.plan.authority == g && !AsksAuthority(st, planned.plan.cls)
    case Report(r) =>
      && r.outcome.Applied? && r.assignment in st.assignments && st.assignments[r.assignment].state.Degraded?
      && st.assignments[r.assignment].authority == g
    case _ => false
  }

  predicate AsksAuthority(st: State, cls: Class) {
    st.ev.policy.Some? && FindRule(st.ev.policy.value.rules, cls).Some? && FindRule(st.ev.policy.value.rules, cls).value.requireAuthority
  }

  /** Otherwise what an operation puts under authority names another grant. */
  lemma GainedNamesAnother(b: Bounds, w: World, op: Operation, at: int, g: Id)
    requires Vouched(w.st) && Withdrawn(w.st, g) && Unused(w.st.assignments, g) && Keyed(w.st.assignments) && !Revives(w.st, op, g)
    ensures Gained(b, w, op, at).Some? ==> Gained(b, w, op, at).value.authority != g
  {
    hide Apply, ApplyPlan, ReplaceAssignment, ReauthorizeAssignment, ReportEffect, RevokeAssignment;
    if Gained(b, w, op, at).Some? {
      if Places(op) {
        PlacementNamesAnother(b, w, op, at, g);
      } else if op.ReauthorizeOne? {
        ReauthorizationNamesAnother(b, w, op.reauthorizeId, op.suspended, op.authority, at, g);
      } else {
        ReportNamesAnother(b, w, op.report, at, g);
      }
    }
  }

  lemma PlacementNamesAnother(b: Bounds, w: World, op: Operation, at: int, g: Id)
    requires Vouched(w.st) && Withdrawn(w.st, g) && Places(op) && !Revives(w.st, op, g)
    requires !Known(w.st, RequestOf(op)) && Reply(b, w, op, at).Success?
    ensures Reply(b, w, op, at).value.authority != g
  {
    hide ApplyLocked, ApplyPlan;
    match op
    case ApplyRequest(req, opts) => OwnPlanNamesAnother(b, w, req, opts, at, g);
    case ReplaceWith(id, current, placement, cancelFrom) =>
      OwnPlanNamesAnother(b, w, ReplacementOf(w.st.assignments[current], id, placement), Options(id, true, cancelFrom), at, g);
    case ApplyPlanned(planned, digest, opts) => SuppliedNamesAnother(b, w, planned, digest, opts, at, g);
  }

  lemma OwnPlanNamesAnother(b: Bounds, w: World, req: PlacementRequest, opts: Options, at: int, g: Id)
    requires Vouched(w.st) && Withdrawn(w.st, g) && !Known(w.st, req.requestId) && ApplyLocked(b, w, req, opts, at).result.Success?
    ensures ApplyLocked(b, w, req, opts, at).result.value.authority != g
  {
    hide ApplyLocked, Suitable, NotPassedOver, Describes, ListsRule, Heard, Occupant, Considered, Fallback, Bound;
    AppliedIsChosen(b, w, req, opts, at);
  }

  lemma SuppliedNamesAnother(b: Bounds, w: World, planned: Planned, digest: Fingerprint, opts: Options, at: int, g: Id)
    requires Vouched(w.st) && Withdrawn(w.st, g) && !Revives(w.st, ApplyPlanned(planned, digest, opts), g)
    requires !Known(w.st, opts.requestId) && ApplyPlan(b, w, planned, digest, opts, at).result.Success?
    ensures ApplyPlan(b, w, planned, digest, opts, at).result.value.authority != g
  {
    hide ApplyPlan, Authorize, Suitable, ListsDevice, ListsRule, FindRule, Budgeted, Granted;
    PlanIsAuthorize(b, w, planned, digest, opts, at);
    var plan, o := planned.plan, PlanOptions(planned, opts);
    AuthorizedIff(b, w, plan, digest, o, at);
    RecordIs(b, w, plan, digest, o, at);
    var d, rule :| ListsDevice(w.st.ev.topology.value.devices, d) && ListsRule(w.st.ev.policy.value.rules, rule) &&
                   Placeable(w.st, plan, o, at, d, rule);
    RuleIs(w.st.ev.policy.value.rules, plan.cls);
  }

  lemma ReauthorizationNamesAnother(b: Bounds, w: World, requestId: Id, id: Id, authority: Id, at: int, g: Id)
    requires Withdrawn(w.st, g) && Keyed(w.st.assignments) && !Known(w.st, requestId) && !HoldsBefore(w, id)
    requires ReauthorizeAssignment(b, w, requestId, id, authority, at).result.Success?
    ensures ReauthorizeAssignment(b, w, requestId, id, authority, at).result.value.authority != g
  {
    hide ReauthorizeAssignment, TargetStands, Observed, RestoredDegraded;
    ReauthorizationStores(b, w, requestId, id, authority, at);
    ReauthorizedIff(b, w, requestId, id, authority, at);
  }

  lemma ReauthorizationStores(b: Bounds, w: World, requestId: Id, id: Id, authority: Id, at: int)
    requires !Known(w.st, requestId) && !HoldsBefore(w, id) && ReauthorizeAssignment(b, w, requestId, id, authority, at).result.Success?
    ensures ReauthorizeAssignment(b, w, requestId, id, authority, at).w.log != w.log
  {
    hide ReauthorizeCheck, Rebound, Put;
    var w1, a := Raise(w, IssueTokens(w.st.counters).0), ReauthorizeAssignment(b, w, requestId, id, authority, at).result.value;
    PutIs(b, w1, a, requestId, OfReauthorize(id), at);
  }

  lemma ReportNamesAnother(b: Bounds, w: World, r: EffectReport, at: int, g: Id)
    requires Keyed(w.st.assignments) && !Revives(w.st, Report(r), g) && Gained(b, w, Report(r), at).Some?
    ensures Gained(b, w, Report(r), at).value.authority != g
  {
    hide ReportEffect, EffectMatches;
    ReportWrites(b, w, r, at);
  }

  // ---- Whole runs -------------------------------------------------------------------------------------

  /** The grant is withdrawn and nobody holds authority under it. */
  predicate OutOfForce(st: State, g: Id) { Withdrawn(st, g) && Unused(st.assignments, g) }

  lemma OperationKeepsOut(b: Bounds, w: World, op: Operation, at: int, g: Id)
    requires Sound(w.st) && Vouched(w.st) && OutOfForce(w.st, g) && !Revives(w.st, op, g)
    ensures OutOfForce(Exec(b, w, op, at).st, g)
  {
    hide Exec, Gained, Revives, Onward;
    HoldersChange(b, w, op, at);
    ExecKeepsSound(b, w, op, at);
    GainedNamesAnother(b, w, op, at, g);
    ExecMovesOn(b, w, op, at);
    OnwardKeepsWithdrawn(w.st, Exec(b, w, op, at).st, g);
  }

  lemma OnwardKeepsWithdrawn(s: State, t: State, g: Id)
    requires Onward(s, t) && Withdrawn(s, g)
    ensures Withdrawn(t, g)
  {
  }

  /** A crash must leave the withdrawal in the journal, and no event be one of the two exceptions. */
  predicate Respects(b: Bounds, w: World, e: Event, g: Id) {
    match e
    case Operate(op, _, _) => !Revives(w.st, op, g)
    case CrashAt(keep) => Withdrawn(Replay(b, EMPTY_STATE, Crash(w, keep).log), g)
    case Boot(_, _, _, _) => true
  }

  predicate AllRespect(b: Bounds, es: seq<Event>, more: seq<Event>, g: Id) {
    forall i :: 0 <= i < |more| ==> Respects(b, RunAll(b, EMPTY_WORLD, es + more[..i]), more[i], g)
  }

  /** The journal knows of the withdrawal and memory, while there is one, is out of its force. */
  predicate StaysOut(b: Bounds, w: World, g: Id) {
    Withdrawn(Replay(b, EMPTY_STATE, w.log), g) && (w.running ==> OutOfForce(w.st, g))
  }

  lemma ReplayAgrees(b: Bounds, w: World, g: Id)
    requires Consistent(b, w) && w.running
    ensures Withdrawn(w.st, g) <==> Withdrawn(Replay(b, EMPTY_STATE, w.log), g)
  {
    var r := Replay(b, EMPTY_STATE, w.log);
    if g in w.st.grants { assert w.st.grants[g].(used := 0) == r.grants[g].(used := 0); }
    hide Replay;
  }

  lemma StartKeepsOut(b: Bounds, w: World, boot: Id, accept: bool, at: int, g: Id)
    requires NamedLog(w.log) && Withdrawn(Replay(b, EMPTY_STATE, w.log), g)
    ensures
      var v := Start(b, w, EMPTY_STATE, w.log, boot, accept, at).0;
      v.running ==> OutOfForce(v.st, g)
  {
    hide Start, Replay, Conservative, Sound;
    StartRunsOnlyIfOk(b, w, boot, accept, at);
    if Start(b, w, EMPTY_STATE, w.log, boot, accept, at).1 {
      RestartIsConservative(b, w, EMPTY_STATE, w.log, boot, accept, at);
      ConservativeHoldsNothing(Start(b, w, EMPTY_STATE, w.log, boot, accept, at).0.st);
      StartKeepsGrants(b, w, boot, accept, at, g);
    }
  }

  lemma ConservativeHoldsNothing(st: State)
    requires Conservative(st)
    ensures NoHolders(st.assignments)
  {
    RestIsUndegraded(st.assignments);
  }

  lemma StartKeepsGrants(b: Bounds, w: World, boot: Id, accept: bool, at: int, g: Id)
    requires NamedLog(w.log) && Withdrawn(Replay(b, EMPTY_STATE, w.log), g) && Start(b, w, EMPTY_STATE, w.log, boot, accept, at).1
    ensures Withdrawn(Start(b, w, EMPTY_STATE, w.log, boot, accept, at).0.st, g)
  {
    hide SuspendFrom, Replay, RebuildCounters, RebuildClaims, Decodable, Sound;
    var begun := Begun(b, w, EMPTY_STATE, w.log, boot);
    BegunFacts(b, w, EMPTY_STATE, w.log, boot);
    SoundMeansKeyed(begun.st);
    SuspensionEndsAuthority(b, begun, LiveIds(begun.st), at);
    var v := Start(b, w, EMPTY_STATE, w.log, boot, accept, at).0;
    assert v.st.grants[g].(used := 0) == begun.st.grants[g].(used := 0);
  }

  /** In every run: once a grant is withdrawn and out of force it stays so, through every operation but
      the two exceptions, every restart, and every crash that keeps the withdrawal in the journal. */
  lemma {:induction false} WithdrawnStaysOut(b: Bounds, es: seq<Event>, more: seq<Event>, g: Id)
    requires RunAll(b, EMPTY_WORLD, es).running && OutOfForce(RunAll(b, EMPTY_WORLD, es).st, g) && AllRespect(b, es, more, g)
    ensures StaysOut(b, RunAll(b, EMPTY_WORLD, es + more), g)
    decreases |more|
  {
    hide Exec, Start, Consistent, OutOfForce, Withdrawn, Replay, Revives;
    if more == [] {
      assert es + more == es;
      ReplayRefinesEveryRun(b, es);
      OutMeansWithdrawn(RunAll(b, EMPTY_WORLD, es).st, g);
      ReplayAgrees(b, RunAll(b, EMPTY_WORLD, es), g);
    } else {
      var before, e := more[..|more| - 1], more[|more| - 1];
      assert (es + more)[..|es + more| - 1] == es + before && (es + more)[|es + more| - 1] == e;
      forall i | 0 <= i < |before| ensures Respects(b, RunAll(b, EMPTY_WORLD, es + before[..i]), before[i], g) { assert before[..i] == more[..i]; }
      WithdrawnStaysOut(b, es, before, g);
      var w := RunAll(b, EMPTY_WORLD, es + before);
      assert Respects(b, w, e, g);
      ReplayRefinesEveryRun(b, es + before);
      ConsistentParts(b, w);
      RunsAreVouched(b, es + before);
      match e
      case Operate(op, at, faults) =>
        if w.running {
          var v := w.(faults := faults);
          OperationKeepsOut(b, v, op, at, g);
          ReplayRefinesEveryRun(b, es + more);
          RunStaysUp(b, v, op, at);
          OutMeansWithdrawn(Exec(b, v, op, at).st, g);
          ReplayAgrees(b, RunAll(b, EMPTY_WORLD, es + more), g);
        }
      case CrashAt(_) =>
      case Boot(boot, accept, at, faults) =>
        if !w.running {
          StartKeepsOut(b, w.(faults := faults), boot, accept, at, g);
          StartKeepsWithdrawn(b, w.(faults := faults), boot, accept, at, g);
        }
    }
  }

  lemma {:induction false} TraceStaysUp(b: Bounds, w: World, tr: seq<Micro>)
    requires LegalRun(b, w, tr)
    ensures Run(b, w, tr).running == w.running
    decreases |tr|
  {
    hide Do, Legal, Committed;
    if tr != [] {
      DoCommits(b, w, tr[0]);
      TraceStaysUp(b, Do(b, w, tr[0]), tr[1..]);
    }
  }

  lemma AcceptStaysUp(b: Bounds, w: World, at: int) ensures Exec(b, w, AcceptRecovery, at).running == w.running {}

  lemma RunStaysUp(b: Bounds, w: World, op: Operation, at: int)
    requires Sound(w.st) && w.running
    ensures Exec(b, w, op, at).running
  {
    hide Exec, Sound;
    if op.AcceptRecovery? {
      AcceptStaysUp(b, w, at);
    } else {
      var tr := OperationTrace(b, w, op, at);
      TraceStaysUp(b, w, tr);
    }
  }

  /** Refinement carries a withdrawal from memory to the journal. */
  lemma RefinementAgrees(b: Bounds, w: World, g: Id)
    requires Refines(b, w) && Withdrawn(w.st, g)
    ensures Withdrawn(Replay(b, EMPTY_STATE, w.log), g)
  {
    var r := Replay(b, EMPTY_STATE, w.log);
    assert w.st.grants[g].(used := 0) == r.grants[g].(used := 0);
    hide Replay;
  }

  lemma StartKeepsWithdrawn(b: Bounds, w: World, boot: Id, accept: bool, at: int, g: Id)
    requires NamedLog(w.log) && Withdrawn(Replay(b, EMPTY_STATE, w.log), g)
    ensures Withdrawn(Replay(b, EMPTY_STATE, Start(b, w, EMPTY_STATE, w.log, boot, accept, at).0.log), g)
  {
    hide SuspendFrom, Replay, Decodable, Sound, Refines, Recovered, Begun, Run, LegalRun, GuardedRun, Withdrawn, SameEvidence, NamedLog, Recover;
    if Begins(b, w, EMPTY_STATE, w.log) {
      var begun := Begun(b, w, EMPTY_STATE, w.log, boot);
      BegunIsConsistent(b, w, boot);
      BegunKeepsGrants(b, w, boot, g);
      SoundMeansKeyed(begun.st);
      SuspensionEndsAuthority(b, begun, LiveIds(begun.st), at);
      var tr := SuspendTrace(b, begun, LiveIds(begun.st), at);
      RunKeepsConsistent(b, begun, tr);
      var done := SuspendFrom(b, begun, LiveIds(begun.st), at).0;
      SameEvidenceKeepsWithdrawn(begun.st, done.st, g);
      RefinementAgrees(b, done, g);
    }
  }

  lemma BegunKeepsGrants(b: Bounds, w: World, boot: Id, g: Id)
    requires Recovered(b, EMPTY_STATE, w.log).epoch.highest < U64_MAX && Withdrawn(Replay(b, EMPTY_STATE, w.log), g)
    ensures Withdrawn(Begun(b, w, EMPTY_STATE, w.log, boot).st, g)
  {
    hide Replay, RebuildCounters, RebuildClaims;
  }

  lemma SameEvidenceKeepsWithdrawn(s: State, t: State, g: Id)
    requires SameEvidence(t, s) && Withdrawn(s, g)
    ensures Withdrawn(t, g)
  {
    assert t.grants[g].(used := 0) == s.grants[g].(used := 0);
  }

  lemma OutMeansWithdrawn(st: State, g: Id)
    requires OutOfForce(st, g)
    ensures Withdrawn(st, g)
  {
  }
}
