/** Between a restart and the first topology and policy of the new lifetime: nothing gains
    authority, except by a supplied plan (src/fabric.cpp). */
module Dormancy {
  import opened Units
  import opened Types
  import opened Ordered
  import opened Decisions
  import opened Claims
  import opened Machine
  import opened Steps
  import opened Traces
  import opened Runs
  import opened Revalidation
  import opened Agreement
  import opened Capacity
  import opened Restart
  import opened Holders

  /** Topology or policy has not been accepted in this lifetime. */
  predicate Unheard(ev: Evidence) { !TopologyHeard(ev) || !PolicyHeard(ev) }

  predicate NoneDegraded(m: map<Id, Assignment>) { forall id :: id in m ==> !m[id].state.Degraded? }

  // ---- One operation ------------------------------------------------------------------------

  lemma UnheardPlansRefused(b: Bounds, st: State, req: PlacementRequest, at: int)
    requires Unheard(st.ev)
    ensures PlanFor(b, st, req, false, at).Failure? || PlanFor(b, st, req, false, at).value.PlanRefused?
  {
    hide Descriptor, ChooseDevice, EvidenceCurrent, Displaced, FindRule;
  }

  /** Unheard evidence invalidates every record before liveness is looked at. */
  lemma UnheardIsInvalid(ev: Evidence, a: Assignment, at: int, exact: bool)
    requires Unheard(ev)
    ensures TargetValidity(ev, a, at, exact) != Reason.Ok && TargetValidity(ev, a, at, exact) != LivenessDegraded
  {
    hide EvidenceCurrent, FindDevice, FindRule, CapabilityValidity, LivenessStage;
  }

  lemma NoPlacementUnheard(b: Bounds, w: World, req: PlacementRequest, opts: Options, at: int)
    requires Unheard(w.st.ev) && !Known(w.st, req.requestId)
    ensures ApplyLocked(b, w, req, opts, at).result.Failure?
  {
    hide ApplyLocked, PlanFor;
    if ApplyLocked(b, w, req, opts, at).result.Success? {
      ApplyIsAuthorize(b, w, req, opts, at);
      UnheardPlansRefused(b, w.st, req, at);
    }
  }

  lemma NoReauthorizationUnheard(b: Bounds, w: World, requestId: Id, id: Id, authority: Id, at: int)
    requires Unheard(w.st.ev) && Keyed(w.st.assignments)
    ensures ReauthorizeAssignment(b, w, requestId, id, authority, at).w.st.assignments == w.st.assignments
    ensures Gained(b, w, ReauthorizeOne(requestId, id, authority), at).None?
  {
    hide ReauthorizeAssignment, AuthorityAdmits, TargetValidity;
    ReauthorizeWrites(b, w, requestId, id, authority, at);
    if id in w.st.assignments { UnheardIsInvalid(w.st.ev, w.st.assignments[id], at, false); }
  }

  lemma NoPromotionUndegraded(b: Bounds, w: World, r: EffectReport, at: int)
    requires NoneDegraded(w.st.assignments) && Keyed(w.st.assignments)
    ensures Gained(b, w, Report(r), at).None? && NoneDegraded(ReportEffect(b, w, r, at).w.st.assignments)
  {
    hide ReportEffect, EffectMatches;
    ReportWrites(b, w, r, at);
  }

  /** While either is unheard and nothing is degraded, only a supplied plan can gain authority. */
  lemma OnlyPlansGain(b: Bounds, w: World, op: Operation, at: int)
    requires Sound(w.st) && Unheard(w.st.ev) && NoneDegraded(w.st.assignments) && !op.ApplyPlanned?
    ensures Shrinks(w.st.assignments, Exec(b, w, op, at).st.assignments, 0)
  {
    hide ApplyLocked, ReauthorizeAssignment, ReportEffect, RevokeAssignment, Exec, Unheard, Shrinks;
    HoldersChange(b, w, op, at);
    match op
    case ApplyRequest(req, opts) => if !Known(w.st, req.requestId) { NoPlacementUnheard(b, w, req, opts, at); }
    case ReplaceWith(id, current, placement, cancelFrom) =>
      if current in w.st.assignments {
        var q := ReplacementOf(w.st.assignments[current], id, placement);
        if !Known(w.st, q.requestId) { NoPlacementUnheard(b, w, q, Options(id, true, cancelFrom), at); }
      }
    case ReauthorizeOne(id, target, authority) => NoReauthorizationUnheard(b, w, id, target, authority, at);
    case Report(r) => NoPromotionUndegraded(b, w, r, at);
    case _ =>
  }

  // ---- Nothing becomes degraded ------------------------------------------------------------------

  lemma StoreKeepsUndegraded(b: Bounds, w: World, a: Assignment, id: Id, fp: Fingerprint, at: int)
    requires NoneDegraded(w.st.assignments) && !a.state.Degraded?
    ensures NoneDegraded(Store(b, w, a, id, fp, at).0.st.assignments)
  {
    hide Put, Insert;
    PutInserts(b, w, a, id, fp, at);
    InsertFrame(w.st, a);
  }

  lemma PlacementKeepsUndegraded(b: Bounds, w: World, plan: Plan, replacing: Id, opts: Options, at: int)
    requires NoneDegraded(w.st.assignments)
    ensures NoneDegraded(PlaceRecord(b, w, plan, replacing, opts, at).w.st.assignments)
  {
    hide Store, NoneDegraded;
    var a := NewRecord(b, w.st, plan, opts, at);
    var fp := if opts.requestId == 0 then NoFingerprint else OfRequest(Rebuilt(w.st, plan));
    if replacing != 0 && replacing in w.st.assignments {
      var moved := Moved(b, w.st.assignments[replacing], Lifecycle.Superseded, Reason.Superseded, at);
      StoreKeepsUndegraded(b, w, moved, 0, NoFingerprint, at);
      hide Moved, NewRecord;
      var w1 := Store(b, w, moved, 0, NoFingerprint, at).0;
      var w2 := Logged(NoteInMemory(b, w1, plan.scope.id, plan.cls, at), ReassignmentRecorded(plan.scope.id, plan.cls, at));
      StoreKeepsUndegraded(b, w2, a, opts.requestId, fp, at);
    } else {
      StoreKeepsUndegraded(b, w, a, opts.requestId, fp, at);
    }
  }

  lemma AuthorizeKeepsUndegraded(b: Bounds, w: World, plan: Plan, digest: Fingerprint, opts: Options, at: int)
    requires NoneDegraded(w.st.assignments)
    ensures NoneDegraded(Authorize(b, w, plan, digest, opts, at).w.st.assignments)
  {
    hide AuthorizeCheck, PlaceRecord;
    var check := AuthorizeCheck(w.st, plan, digest, opts, at);
    if check.Success? && w.st.counters.ordinal < U64_MAX {
      var (c, all) := IssueTokens(w.st.counters.(ordinal := w.st.counters.ordinal + 1));
      PlacementKeepsUndegraded(b, Raise(w, c), plan, check.value, opts, at);
    }
  }

  lemma RefusalKeepsAssignments(b: Bounds, w: World, id: Id, fp: Fingerprint, code: Reason, at: int)
    ensures Refuse(b, w, id, fp, code, at).w.st.assignments == w.st.assignments
  {
  }

  lemma ApplyPlanKeepsUndegraded(b: Bounds, w: World, planned: Planned, digest: Fingerprint, opts: Options, at: int)
    requires NoneDegraded(w.st.assignments)
    ensures NoneDegraded(ApplyPlan(b, w, planned, digest, opts, at).w.st.assignments)
  {
    hide Authorize, Refuse, NoneDegraded;
    if planned.PlanMade? {
      var o := Authorize(b, w, planned.plan, digest, PlanOptions(planned, opts), at);
      AuthorizeKeepsUndegraded(b, w, planned.plan, digest, PlanOptions(planned, opts), at);
      if o.result.Failure? { RefusalKeepsAssignments(b, o.w, opts.requestId, digest, o.result.reason, at); }
    }
  }

  /** An apply on unheard evidence changes no assignment. */
  lemma ApplyUnheardKeeps(b: Bounds, w: World, req: PlacementRequest, opts: Options, at: int)
    requires Unheard(w.st.ev)
    ensures ApplyLocked(b, w, req, opts, at).w.st.assignments == w.st.assignments
  {
    hide PlanFor, Authorize, Refuse;
    CancelledPlanFails(b, w.st, req, at);
    UnheardPlansRefused(b, w.st, req, at);
    var planned := PlanFor(b, w.st, req, opts.cancelFrom <= 1, at);
    if planned.Success? && planned.value.PlanRefused? {
      RefusalKeepsAssignments(b, w, req.requestId, OfRequest(req), planned.value.why, at);
    }
  }

  lemma {:induction false} RevalidationKeepsUndegraded(b: Bounds, w: World, ids: seq<Id>, at: int, cancelFrom: nat, tally: Tally)
    requires Unheard(w.st.ev) && NoneDegraded(w.st.assignments)
    ensures NoneDegraded(RevalidateFrom(b, w, ids, at, cancelFrom, tally).w.st.assignments)
    decreases |ids|
  {
    hide Put, Moved, TargetValidity, AuthorityValidity;
    if ids != [] && cancelFrom != 0 {
      if ids[0] !in w.st.assignments || IsTerminal(w.st.assignments[ids[0]].state) {
        RevalidationKeepsUndegraded(b, w, ids[1..], at, cancelFrom - 1, tally);
      } else {
        var a := w.st.assignments[ids[0]];
        UnheardIsInvalid(w.st.ev, a, at, true);
        var moved := Moved(b, a, Lifecycle.Suspended, Validity(w.st, a, at), at);
        var (w', ok) := Store(b, w, moved, 0, NoFingerprint, at);
        MovedIsSuspended(b, a, Validity(w.st, a, at), at);
        StoreKeepsUndegraded(b, w, moved, 0, NoFingerprint, at);
        StoreFrame(b, w, moved, 0, NoFingerprint, at);
        if ok {
          RevalidationKeepsUndegraded(b, w', ids[1..], at, cancelFrom - 1,
                                      tally.(checked := tally.checked + 1, suspended := tally.suspended + 1));
        }
      }
    }
  }

  lemma MovedIsSuspended(b: Bounds, a: Assignment, reason: Reason, at: int)
    ensures Moved(b, a, Lifecycle.Suspended, reason, at).state.Suspended?
  {
  }

  /** So nothing becomes degraded as long as either stays unheard. */
  lemma UnheardKeepsUndegraded(b: Bounds, w: World, op: Operation, at: int)
    requires Sound(w.st) && Unheard(w.st.ev) && NoneDegraded(w.st.assignments) && Unheard(Exec(b, w, op, at).st.ev)
    ensures NoneDegraded(Exec(b, w, op, at).st.assignments)
  {
    hide Submit, ApplyLocked, ApplyPlan, RevokeAssignment, ReauthorizeAssignment, ReportEffect, RevalidateFrom, Unheard, NoneDegraded;
    match op
    case ApplyRequest(req, opts) => ApplyUnheardKeeps(b, w, req, opts, at);
    case ApplyPlanned(planned, digest, opts) => ApplyPlanKeepsUndegraded(b, w, planned, digest, opts, at);
    case ReplaceWith(id, current, placement, cancelFrom) =>
      if current in w.st.assignments {
        ApplyUnheardKeeps(b, w, ReplacementOf(w.st.assignments[current], id, placement), Options(id, true, cancelFrom), at);
      }
    case RevokeOne(id, target, reason, authority, cancelled) => RevokeKeepsUndegraded(b, w, id, target, reason, authority, cancelled, at);
    case ReauthorizeOne(id, target, authority) => NoReauthorizationUnheard(b, w, id, target, authority, at);
    case Report(r) => NoPromotionUndegraded(b, w, r, at);
    case SubmitEvidence(r) => SubmitKeepsUndegraded(b, w, r, at);
    case Revalidate(cancelFrom) => RevalidationKeepsUndegraded(b, w, LiveIds(w.st), at, cancelFrom, Tally(0, 0, 0));
    case AcceptRecovery =>
  }

  lemma RevokeKeepsUndegraded(b: Bounds, w: World, requestId: Id, id: Id, reason: Reason, authority: Id, cancelled: bool, at: int)
    requires NoneDegraded(w.st.assignments)
    ensures NoneDegraded(RevokeAssignment(b, w, requestId, id, reason, authority, cancelled, at).w.st.assignments)
  {
    hide RevokeAuthority, Store;
    if id in w.st.assignments {
      StoreKeepsUndegraded(b, w, Moved(b, w.st.assignments[id], Lifecycle.Revoked, reason, at), requestId, OfRevoke(id, reason), at);
    }
  }

  lemma SubmitKeepsUndegraded(b: Bounds, w: World, r: Record, at: int)
    requires Unheard(w.st.ev) && NoneDegraded(w.st.assignments) && Unheard(Submit(b, w, r, at).0.st.ev)
    ensures NoneDegraded(Submit(b, w, r, at).0.st.assignments)
  {
    hide EvidenceCheck, LearnEvidence, ApplyGrants, RevalidateFrom, Unheard, NoneDegraded;
    var learned := Logged(w, r).(st := Learn(w.st, r));
    RevalidationKeepsEvidence(b, learned, LiveIds(learned.st), at, |LiveIds(learned.st)| + 1, Tally(0, 0, 0));
    if Unheard(learned.st.ev) {
      RevalidationKeepsUndegraded(b, learned, LiveIds(learned.st), at, |LiveIds(learned.st)| + 1, Tally(0, 0, 0));
    }
  }

  lemma {:induction false} RevalidationKeepsEvidence(b: Bounds, w: World, ids: seq<Id>, at: int, cancelFrom: nat, tally: Tally)
    ensures RevalidateFrom(b, w, ids, at, cancelFrom, tally).w.st.ev == w.st.ev
    decreases |ids|
  {
    hide Put, Moved, Validity, GrantsAgree, Demotion;
    if ids != [] && cancelFrom != 0 {
      if ids[0] !in w.st.assignments || IsTerminal(w.st.assignments[ids[0]].state) {
        RevalidationKeepsEvidence(b, w, ids[1..], at, cancelFrom - 1, tally);
      } else {
        var a := w.st.assignments[ids[0]];
        var seen := tally.(checked := tally.checked + 1);
        match Demotion(w.st, a, at)
        case None => RevalidationKeepsEvidence(b, w, ids[1..], at, cancelFrom - 1, seen);
        case Some(to) =>
          var moved := Moved(b, a, to, Validity(w.st, a, at), at);
          StoreFrame(b, w, moved, 0, NoFingerprint, at);
          RevalidationKeepsEvidence(b, Store(b, w, moved, 0, NoFingerprint, at).0, ids[1..], at, cancelFrom - 1,
                                    if to.Degraded? then seen.(degraded := seen.degraded + 1)
                                    else seen.(suspended := seen.suspended + 1));
      }
    }
  }

  // ---- The whole lifetime -------------------------------------------------------------------------

  predicate OnlyOperations(es: seq<Event>) { forall i :: 0 <= i < |es| ==> es[i].Operate? }

  /** Either was unheard before every event of the run and still is. */
  predicate StillUnheard(b: Bounds, w: World, es: seq<Event>) {
    forall i :: 0 <= i <= |es| ==> Unheard(RunAll(b, w, es[..i]).st.ev)
  }

  lemma ExecKeepsSound(b: Bounds, w: World, op: Operation, at: int)
    requires Sound(w.st)
    ensures Sound(Exec(b, w, op, at).st)
  {
    hide Exec, Sound;
    if op.AcceptRecovery? {
      AcceptKeepsState(b, w, at);
    } else {
      var tr := OperationTrace(b, w, op, at);
      RunKeepsSound(b, w, tr);
    }
  }

  lemma AcceptKeepsState(b: Bounds, w: World, at: int) ensures Exec(b, w, AcceptRecovery, at).st == w.st {}

  lemma {:induction false} DormantRun(b: Bounds, w: World, es: seq<Event>)
    requires Sound(w.st) && NoneDegraded(w.st.assignments) && OnlyOperations(es) && StillUnheard(b, w, es)
    ensures Sound(RunAll(b, w, es).st) && NoneDegraded(RunAll(b, w, es).st.assignments)
  {
    hide Exec, Sound, Unheard, NoneDegraded;
    if es != [] {
      var before, e := es[..|es| - 1], es[|es| - 1];
      forall i | 0 <= i <= |before| ensures Unheard(RunAll(b, w, before[..i]).st.ev) { assert before[..i] == es[..i]; }
      DormantRun(b, w, before);
      var v := RunAll(b, w, before);
      assert es[..|es|] == es && Unheard(RunAll(b, w, es[..|es|]).st.ev) && es[..|before|] == before;
      if v.running {
        var u := v.(faults := e.faults);
        ExecKeepsSound(b, u, e.op, e.at);
        UnheardKeepsUndegraded(b, u, e.op, e.at);
      }
    }
  }

  /** After a successful start, as long as a topology or a policy of this lifetime is missing, no
      operation other than `apply_plan` adds an authority holder. */
  lemma NothingPlacedUntilHeard(b: Bounds, w: World, es: seq<Event>, op: Operation, at: int, faults: seq<bool>)
    requires Conservative(w.st) && Sound(w.st) && OnlyOperations(es) && StillUnheard(b, w, es) && !op.ApplyPlanned?
    ensures
      var v := RunAll(b, w, es);
      Shrinks(v.st.assignments, Next(b, v, Operate(op, at, faults)).st.assignments, 0)
  {
    hide Exec, Unheard, Shrinks, RunAll, StillUnheard, Sound;
    RestIsUndegraded(w.st.assignments);
    DormantRun(b, w, es);
    var v := RunAll(b, w, es);
    LastIsUnheard(b, w, es);
    StaysSame(v.st.assignments);
    OnlyPlansGain(b, v.(faults := faults), op, at);
  }

  lemma LastIsUnheard(b: Bounds, w: World, es: seq<Event>)
    requires StillUnheard(b, w, es)
    ensures Unheard(RunAll(b, w, es).st.ev)
  {
    assert es[..|es|] == es;
  }

  lemma RestIsUndegraded(m: map<Id, Assignment>)
    requires AtRest(m)
    ensures NoneDegraded(m) && NoHolders(m)
  {
  }

  /** Hence without `apply_plan` nothing holds authority until both are heard. */
  lemma {:induction false} NothingHeldUntilHeard(b: Bounds, w: World, es: seq<Event>)
    requires Conservative(w.st) && Sound(w.st) && OnlyOperations(es) && StillUnheard(b, w, es)
    requires forall i :: 0 <= i < |es| ==> !es[i].op.ApplyPlanned?
    ensures NoHolders(RunAll(b, w, es).st.assignments)
  {
    hide Exec, Next, Unheard, Sound;
    RestIsUndegraded(w.st.assignments);
    if es != [] {
      var before, e := es[..|es| - 1], es[|es| - 1];
      forall i | 0 <= i <= |before| ensures Unheard(RunAll(b, w, before[..i]).st.ev) { assert before[..i] == es[..i]; }
      NothingHeldUntilHeard(b, w, before);
      NothingPlacedUntilHeard(b, w, before, e.op, e.at, e.faults);
      DormantRun(b, w, es);
      SoundMeansKeyed(RunAll(b, w, es).st);
      assert e == Operate(e.op, e.at, e.faults);
    }
  }

  // ---- When a supplied plan is placed --------------------------------------------------------------

  /** What `apply_plan` asks on a conservative state: generations and target, the rule, the demand;
      not that topology or policy were accepted in this lifetime. */
  predicate Presentable(st: State, plan: Plan, digest: Fingerprint, opts: Options, at: int) {
    && opts.cancelFrom > 2 && BoundTarget(st, plan, digest).Success? && FindRule(st.ev.policy.value.rules, plan.cls).Some?
    && var d, rule := BoundTarget(st, plan, digest).value, FindRule(st.ev.policy.value.rules, plan.cls).value;
       && (if d.kind.HostStack? then plan.mode.HostFallback? && rule.allowHostFallback else d.kind in rule.allowedKinds)
       && CapabilityStage(st, AuthorizeContext(st, plan, rule, 0, at), d).0 == Reason.Ok
       && (forall c: Component :: plan.demand.Of(c) <= d.capacity.Of(c)) && rule.maxAssignmentsPerDevice > 0
       && !rule.requireFreshObservation
       && AuthorityStage(st, AuthorizeContext(st, plan, rule, 0, at), d) == Reason.Ok && PlanAuthority(st, plan, rule, at) == Reason.Ok
  }

  lemma NoHoldersAnywhere(st: State, device: Id)
    requires NoHolders(st.assignments)
    ensures HoldersOn(st, device) == {}
  {
  }

  lemma NoClaimsNoConflict(ix: Index, scope: Id, cls: Class, key: KeyMode, replacing: Id)
    requires ix.byClass == map[] && ix.byScope == map[]
    ensures ScopeConflict(ix, scope, cls, key, replacing) == 0
  {
    assert ClassesHeldByOthers(ix, scope, replacing) == {};
  }

  /** The stages that a conservative state decides by itself. */
  lemma ConservativeStages(st: State, plan: Plan, rule: Rule, d: Device, at: int)
    requires Conservative(st) && st.ev.policy.Some? && !d.decommissioned
    ensures
      var c := AuthorizeContext(st, plan, rule, 0, at);
      && AffinityStage(c, d) == Reason.Ok && DependencyStage(st, c, d, c.request.dependencies) == Reason.Ok
      && ExclusiveStage(st, c) == Reason.Ok && LivenessStage(st.ev, d.id, d.incarnation, at) != Reason.Ok
      && (CapacityStage(st, c, d) == Reason.Ok <==>
            (forall c: Component :: plan.demand.Of(c) <= d.capacity.Of(c)) && rule.maxAssignmentsPerDevice > 0)
      && (KindStage(c, d) == Reason.Ok <==>
            if d.kind.HostStack? then plan.mode.HostFallback? && rule.allowHostFallback else d.kind in rule.allowedKinds)
  {
    hide ScopeConflict, EvidenceCurrent, AtRest;
    RestIsUndegraded(st.assignments);
    NoClaimsNoConflict(st.index, plan.scope.id, plan.cls, rule.exclusiveKey, 0);
    NoHoldersAnywhere(st, d.id);
    assert forall c: Component :: ZERO_DEMAND.Of(c) == 0;
  }

  lemma ConservativeCheck(st: State, plan: Plan, digest: Fingerprint, opts: Options, at: int)
    requires Conservative(st)
    ensures AuthorizeCheck(st, plan, digest, opts, at).Success? <==> Presentable(st, plan, digest, opts, at)
    ensures AuthorizeCheck(st, plan, digest, opts, at).Success? ==> AuthorizeCheck(st, plan, digest, opts, at).value == 0
  {
    hide BoundTarget, PlanAuthority, ScopeConflict, EvaluateDevice, FindRule, AuthorizeContext;
    hide KindStage, AffinityStage, CapabilityStage, CapacityStage, LivenessStage, DependencyStage, ExclusiveStage, AuthorityStage;
    BoundIsPresent(st, plan, digest);
    if BoundTarget(st, plan, digest).Success? && FindRule(st.ev.policy.value.rules, plan.cls).Some? {
      var d, rule := BoundTarget(st, plan, digest).value, FindRule(st.ev.policy.value.rules, plan.cls).value;
      NoClaimsNoConflict(st.index, plan.scope.id, plan.cls, plan.exclusiveKey, 0);
      ConservativeStages(st, plan, rule, d, at);
      ContextParts(st, plan, rule, at);
      hide Conservative;
      EligibleStages(st, AuthorizeContext(st, plan, rule, 0, at), d);
    }
  }

  lemma ContextParts(st: State, plan: Plan, rule: Rule, at: int)
    requires st.ev.policy.Some?
    ensures AuthorizeContext(st, plan, rule, 0, at).rule == rule && AuthorizeContext(st, plan, rule, 0, at).now == at
  {
  }

  lemma BoundIsPresent(st: State, plan: Plan, digest: Fingerprint)
    ensures BoundTarget(st, plan, digest).Success? ==>
      st.ev.policy.Some? && st.ev.topology.Some? && !BoundTarget(st, plan, digest).value.decommissioned
  {
    hide FindDevice;
  }

  /** On a conservative state a supplied plan is placed exactly when it is presentable. */
  lemma SuppliedPlanPlacedIff(b: Bounds, w: World, planned: Planned, digest: Fingerprint, opts: Options, at: int)
    requires Conservative(w.st) && Gate(w) == Reason.Ok && planned.PlanMade? && !Known(w.st, opts.requestId) && w.faults == []
    requires w.st.counters.ordinal < U64_MAX && w.st.counters.lease < U64_MAX && w.st.counters.attempt < U64_MAX
    ensures ApplyPlan(b, w, planned, digest, opts, at).result.Success? <==>
            Presentable(w.st, planned.plan, digest, PlanOptions(planned, opts), at)
  {
    hide AuthorizeCheck, Conservative, Presentable, Refuse;
    ConservativeCheck(w.st, planned.plan, digest, PlanOptions(planned, opts), at);
    FenceIsZero(w.st);
    var o := Authorize(b, w, planned.plan, digest, PlanOptions(planned, opts), at);
    RefuseFails(b, o.w, opts.requestId, digest, at);
  }

  lemma FenceIsZero(st: State)
    requires Conservative(st)
    ensures st.counters.fence == 0
  {
  }
}
