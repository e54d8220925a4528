/** The placer agrees with the revalidator: what `apply` accepts, revalidation at the same
    instant leaves alone (src/fabric.cpp). */
module Agreement {
  import opened Units
  import opened Types
  import opened Decisions
  import opened Ranking
  import opened Claims
  import opened Idempotency
  import opened Machine
  import opened Traces
  import opened Revalidation

  // ---- Monotonicity of the two matchers -----------------------------------------------------

  /** Requiring less never makes a capability unsuitable. */
  lemma MatchIsAntitone(more: Mask, less: Mask, version: Version, c: CapabilityRecord, i: Incarnation, now: int)
    requires less <= more && MatchCapability(more, version, c, i, now).verdict.Eligible?
    ensures MatchCapability(less, version, c, i, now).reason == Reason.Ok
  {
  }

  /** Nor does it exceed a ceiling that admitted more; and a recheck masks the budget. */
  lemma RecheckIsAntitone(g: Grant, cls: Class, kind: DeviceKind, host: Id, scope: Id, more: Mask, less: Mask, gen: nat, now: int)
    requires less <= more && AuthorityAdmits(g, Place, cls, kind, host, scope, more, gen, now) == Reason.Ok
    ensures AuthorityRecheck(g, Place, cls, kind, host, scope, less, gen, now) == Reason.Ok
  {
  }

  // ---- From a plan to the record -------------------------------------------------------------

  lemma {:induction false} CandidateHasDevice(st: State, c: Context, devices: seq<Device>, best: Candidate)
    requires best in Candidates(st, c, devices, true)
    ensures exists d :: d in devices && d.id == best.device && EvaluateDevice(st, c, d).Eligible()
  {
    hide EvaluateDevice, Finalize;
    if EvaluateDevice(st, c, devices[0]).Eligible() && best == RankOf(st, c.request, EvaluateDevice(st, c, devices[0]), devices[0]) {
      assert devices[0] in devices && devices[0].id == best.device by { RankKeepsDevice(st, c, devices[0]); }
    } else {
      CandidateHasDevice(st, c, devices[1..], best);
    }
  }

  lemma RankKeepsDevice(st: State, c: Context, d: Device)
    ensures RankOf(st, c.request, EvaluateDevice(st, c, d), d).device == d.id
  {
    hide EvaluateDevice;
  }

  lemma {:induction false} FirstInPrefix(all: seq<Device>, n: nat, id: Id)
    requires n <= |all| && FindDevice(all[..n], id).Some?
    ensures FindDevice(all, id) == FindDevice(all[..n], id)
  {
    if all[..n][0].id != id {
      assert all[..n][1..] == all[1..][..n - 1];
      FirstInPrefix(all[1..], n - 1, id);
    }
  }

  /** The plan is the one `PlanOn` makes for an eligible device of the current topology. */
  predicate GoodPlan(st: State, req: PlacementRequest, plan: Plan, at: int) {
    && EvidenceGate(st, req, at) == Reason.Ok && Descriptor(st, req).Success?
    && FindRule(st.ev.policy.value.rules, req.cls).Some?
    && FindDevice(st.ev.topology.value.devices, plan.device).Some?
    && var c := PlanContext(st, req, Descriptor(st, req).value, FindRule(st.ev.policy.value.rules, req.cls).value, at);
       var d := FindDevice(st.ev.topology.value.devices, plan.device).value;
       EvaluateDevice(st, c, d).Eligible() && PlanOn(st, c, d) == PlanMade(plan, c.replacing != 0)
  }

  lemma PlanOnKeepsDevice(st: State, c: Context, d: Device)
    requires st.ev.topology.Some? && st.ev.policy.Some? && PlanOn(st, c, d).PlanMade?
    ensures PlanOn(st, c, d).plan.device == d.id && PlanOn(st, c, d).replace == (c.replacing != 0)
  {
    hide EvaluateDevice, FindAuthority;
  }

  lemma ChosenPlanIsGood(b: Bounds, st: State, c: Context, req: PlacementRequest, at: int)
    requires st.ev.topology.Some? && st.ev.policy.Some? && StrictlyOrdered(st.ev.topology.value.devices)
    requires EvidenceGate(st, req, at) == Reason.Ok && Descriptor(st, req).Success?
    requires FindRule(st.ev.policy.value.rules, req.cls).Some?
    requires c == PlanContext(st, req, Descriptor(st, req).value, FindRule(st.ev.policy.value.rules, req.cls).value, at)
    requires ChooseDevice(b, st, c).PlanMade?
    ensures GoodPlan(st, req, ChooseDevice(b, st, c).plan, at)
  {
    hide EvaluateDevice, PlanOn, EvidenceGate, Descriptor, FindRule, PlanContext, RefusalReason;
    var all := st.ev.topology.value.devices;
    var n := if |all| < b.maxCandidates then |all| else b.maxCandidates;
    assert all[..|all|] == all;
    var devices := all[..n];
    var best := Best(Candidates(st, c, devices, true)).value;
    CandidateHasDevice(st, c, devices, best);
    var d :| d in devices && d.id == best.device && EvaluateDevice(st, c, d).Eligible();
    FirstInPrefix(all, n, best.device);
    var found := FindDevice(devices, best.device).value;
    assert found == d by {
      var i :| 0 <= i < |devices| && devices[i] == d;
      var j :| 0 <= j < |devices| && devices[j] == found;
      assert all[i] == d && all[j] == found;
    }
    PlanOnKeepsDevice(st, c, d);
  }

  lemma OwnPlanIsGood(b: Bounds, st: State, req: PlacementRequest, at: int)
    requires PlanFor(b, st, req, false, at).Success? && PlanFor(b, st, req, false, at).value.PlanMade?
    requires StrictlyOrdered(st.ev.topology.value.devices)
    ensures GoodPlan(st, req, PlanFor(b, st, req, false, at).value.plan, at)
  {
    hide EvidenceGate, Descriptor, ChooseDevice, Displaced;
    GateMeansEvidence(st, req, at);
    var f, rule := Descriptor(st, req).value, FindRule(st.ev.policy.value.rules, req.cls).value;
    ChosenPlanIsGood(b, st, PlanContext(st, req, f, rule, at), req, at);
  }

  lemma GateMeansEvidence(st: State, req: PlacementRequest, at: int)
    requires EvidenceGate(st, req, at) == Reason.Ok
    ensures st.ev.topology.Some? && st.ev.policy.Some?
  {
  }

  // ---- The record passes the validity checks -----------------------------------------------------

  /** The record takes its placement from the plan and its fence from the current epoch. */
  predicate BuiltFrom(st: State, plan: Plan, a: Assignment) {
    && a.fn == plan.fn && a.cls == plan.cls && a.scope == plan.scope && a.device == plan.device
    && a.host == plan.host && a.kind == plan.kind && a.incarnation == plan.incarnation && a.authority == plan.authority
    && a.binding.topology == plan.binding.topology && a.binding.capability == plan.binding.capability
    && a.binding.policy == plan.binding.policy && a.fence.epoch == st.epoch.counter && a.mode == plan.mode
    && a.exclusivity == plan.exclusivity && a.exclusiveKey == plan.exclusiveKey
  }

  lemma TopologyStaysValid(st: State, req: PlacementRequest, plan: Plan, a: Assignment, at: int)
    requires GoodPlan(st, req, plan, at) && BuiltFrom(st, plan, a)
    ensures TopologyValidity(st.ev, a, at) == Reason.Ok
  {
    hide EvaluateDevice, Descriptor, FindRule, FindAuthority, EvidenceCurrent;
    var c := PlanContext(st, req, Descriptor(st, req).value, FindRule(st.ev.policy.value.rules, req.cls).value, at);
    EligibleStages(st, c, FindDevice(st.ev.topology.value.devices, plan.device).value);
  }

  /** The one thing placement does not check for a host fallback: the rule's allowed kinds. */
  lemma PolicyStaysValid(st: State, req: PlacementRequest, plan: Plan, a: Assignment, at: int)
    requires GoodPlan(st, req, plan, at) && BuiltFrom(st, plan, a)
    ensures FindRule(st.ev.policy.value.rules, a.cls).Some?
    ensures PolicyValidity(st.ev, a, at) == Reason.Ok <==> a.kind in FindRule(st.ev.policy.value.rules, a.cls).value.allowedKinds
    ensures !a.kind.HostStack? ==> a.kind in FindRule(st.ev.policy.value.rules, a.cls).value.allowedKinds
  {
    hide EvaluateDevice, Descriptor, FindDevice, FindAuthority, EvidenceCurrent;
    var c := PlanContext(st, req, Descriptor(st, req).value, FindRule(st.ev.policy.value.rules, req.cls).value, at);
    EligibleStages(st, c, FindDevice(st.ev.topology.value.devices, plan.device).value);
  }

  /** The capability evidence the record is bound to counts as accepted in this lifetime. */
  predicate BoundEvidenceCurrent(ev: Evidence, a: Assignment) {
    a.binding.capability != 0 ==>
      CapabilityKey(a.device, a.cls) in ev.capabilities &&
      EvidenceCurrent(ev, ev.capabilities[CapabilityKey(a.device, a.cls)].provenance, CapabilityEvidence)
  }

  /** The other one: optional capability evidence binds a generation without being current. */
  lemma CapabilityStaysValid(st: State, req: PlacementRequest, plan: Plan, a: Assignment, at: int)
    requires GoodPlan(st, req, plan, at) && BuiltFrom(st, plan, a)
    ensures CapabilityValidity(st.ev, a, at, true) == Reason.Ok <==> BoundEvidenceCurrent(st.ev, a)
    ensures FindRule(st.ev.policy.value.rules, a.cls).value.requireCapability ==> BoundEvidenceCurrent(st.ev, a)
  {
    hide EvaluateDevice, FindAuthority, EvidenceCurrent, EvidenceGate, MatchCapability;
    GateMeansEvidence(st, req, at);
    var f := Descriptor(st, req).value;
    var c := PlanContext(st, req, f, FindRule(st.ev.policy.value.rules, req.cls).value, at);
    var d := FindDevice(st.ev.topology.value.devices, plan.device).value;
    EligibleStages(st, c, d);
    var key := CapabilityKey(a.device, a.cls);
    if a.binding.capability != 0 {
      assert key in st.ev.capabilities;
      var cap := st.ev.capabilities[key];
      assert MatchCapability(f.required, f.version, cap, d.incarnation, at).verdict.Eligible?;
      EligibleIsFresh(f.required, f.version, cap, d.incarnation, at);
      if a.fn in st.ev.functions {
        MatchIsAntitone(f.required, st.ev.functions[a.fn].required, f.version, cap, d.incarnation, at);
      }
    }
  }

  lemma EligibleIsFresh(required: Mask, version: Version, c: CapabilityRecord, i: Incarnation, now: int)
    requires MatchCapability(required, version, c, i, now).verdict.Eligible?
    ensures !c.freshness.IsExpired(now)
  {
  }

  lemma LivenessStaysValid(st: State, req: PlacementRequest, plan: Plan, a: Assignment, at: int)
    requires GoodPlan(st, req, plan, at) && BuiltFrom(st, plan, a)
    ensures FindRule(st.ev.policy.value.rules, a.cls).value.requireFreshObservation ==>
              LivenessStage(st.ev, a.device, a.incarnation, at) == Reason.Ok
  {
    hide EvaluateDevice, FindAuthority, EvidenceCurrent, EvidenceGate, Descriptor, LivenessStage;
    GateMeansEvidence(st, req, at);
    var c := PlanContext(st, req, Descriptor(st, req).value, FindRule(st.ev.policy.value.rules, req.cls).value, at);
    EligibleStages(st, c, FindDevice(st.ev.topology.value.devices, plan.device).value);
  }

  lemma AuthorityStaysValid(st: State, req: PlacementRequest, plan: Plan, a: Assignment, at: int)
    requires GoodPlan(st, req, plan, at) && BuiltFrom(st, plan, a)
    ensures AuthorityValidity(st.ev, st.grants, a, at) == Reason.Ok
  {
    hide EvaluateDevice, EvidenceCurrent, EvidenceGate, AuthorityAdmits, AuthorityRecheck, AdmittingGrants;
    GateMeansEvidence(st, req, at);
    if a.authority != 0 {
      var f, rule := Descriptor(st, req).value, FindRule(st.ev.policy.value.rules, req.cls).value;
      var more := f.required + rule.required;
      var less := if a.fn in st.ev.functions then st.ev.functions[a.fn].required + rule.required else {};
      assert less <= more;
      RecheckIsAntitone(st.grants[a.authority], a.cls, a.kind, a.host, a.scope.id, more, less, st.ev.policy.value.generation, at);
    }
  }

  /** Everything placement checked is everything validity checks, but for those two. */
  lemma GoodPlanIsValid(st: State, req: PlacementRequest, plan: Plan, a: Assignment, at: int)
    requires GoodPlan(st, req, plan, at) && BuiltFrom(st, plan, a)
    ensures FindRule(st.ev.policy.value.rules, a.cls).Some?
    ensures Validity(st, a, at) == Reason.Ok <==>
            a.kind in FindRule(st.ev.policy.value.rules, a.cls).value.allowedKinds && BoundEvidenceCurrent(st.ev, a)
  {
    hide EvaluateDevice, TopologyValidity, PolicyValidity, CapabilityValidity, LivenessStage, AuthorityValidity,
         EvidenceGate, Descriptor, FindRule, FindDevice, FindAuthority, BoundEvidenceCurrent;
    TopologyStaysValid(st, req, plan, a, at);
    PolicyStaysValid(st, req, plan, a, at);
    CapabilityStaysValid(st, req, plan, a, at);
    LivenessStaysValid(st, req, plan, a, at);
    AuthorityStaysValid(st, req, plan, a, at);
  }

  // ---- The operation -----------------------------------------------------------------------------

  lemma CreateStores(b: Bounds, w: World, planned: State, plan: Plan, a: Assignment, opts: Options, at: int)
    requires Create(b, w, planned, plan, a, opts, at).result.Success?
    ensures
      var o := Create(b, w, planned, plan, a, opts, at);
      && o.result.value == a && o.w.st.assignments == w.st.assignments[a.id := a] && SameEvidence(o.w.st, w.st)
      && o.w.running == w.running && o.w.accepted == w.accepted
  {
    hide Remember, Reindex;
    InsertFrame(w.st, a);
  }

  /** The assignments after a placement: the superseded holder, then the new record. */
  function AfterPlacement(b: Bounds, m: map<Id, Assignment>, replacing: Id, a: Assignment, at: int): map<Id, Assignment> {
    var superseded := if replacing != 0 && replacing in m
                      then m[m[replacing].id := Moved(b, m[replacing], Lifecycle.Superseded, Reason.Superseded, at)] else m;
    superseded[a.id := a]
  }

  /** An accepted placement returns and stores the record built from its plan, supersedes at
      most the displaced holder, and changes no evidence. */
  lemma PlacementStores(b: Bounds, w: World, plan: Plan, replacing: Id, opts: Options, at: int)
    requires PlaceRecord(b, w, plan, replacing, opts, at).result.Success?
    ensures
      var o := PlaceRecord(b, w, plan, replacing, opts, at);
      var a := NewRecord(b, w.st, plan, opts, at);
      && o.result.value == a && o.w.st.assignments == AfterPlacement(b, w.st.assignments, replacing, a, at)
      && SameEvidence(o.w.st, w.st) && o.w.running == w.running && o.w.accepted == w.accepted
  {
    hide NewRecord, Create, Moved, Put;
    var a := NewRecord(b, w.st, plan, opts, at);
    if replacing != 0 && replacing in w.st.assignments {
      var moved := Moved(b, w.st.assignments[replacing], Lifecycle.Superseded, Reason.Superseded, at);
      var (w', ok) := Store(b, w, moved, 0, NoFingerprint, at);
      StoreFrame(b, w, moved, 0, NoFingerprint, at);
      MovedKeepsId(b, w.st.assignments[replacing], Lifecycle.Superseded, Reason.Superseded, at);
      var noted := Logged(NoteInMemory(b, w', plan.scope.id, plan.cls, at), ReassignmentRecorded(plan.scope.id, plan.cls, at));
      CreateStores(b, noted, w.st, plan, a, opts, at);
      SameEvidenceTransitive(PlaceRecord(b, w, plan, replacing, opts, at).w.st, w'.st, w.st);
    } else {
      CreateStores(b, w, w.st, plan, a, opts, at);
    }
  }

  lemma AuthorizeStores(b: Bounds, w: World, plan: Plan, digest: Fingerprint, opts: Options, at: int)
    requires Authorize(b, w, plan, digest, opts, at).result.Success?
    ensures
      var o := Authorize(b, w, plan, digest, opts, at);
      var a := o.result.value;
      && BuiltFrom(w.st, plan, a) && a.demand == plan.demand && a.state.Dispatched? && a.id == w.st.counters.ordinal + 1
      && AuthorizeCheck(w.st, plan, digest, opts, at).Success?
      && o.w.st.assignments == AfterPlacement(b, w.st.assignments, AuthorizeCheck(w.st, plan, digest, opts, at).value, a, at)
      && SameEvidence(o.w.st, w.st) && o.w.running == w.running && o.w.accepted == w.accepted
  {
    hide AuthorizeCheck, PlaceRecord, AfterPlacement;
    var (c, all) := IssueTokens(w.st.counters.(ordinal := w.st.counters.ordinal + 1));
    var replacing := AuthorizeCheck(w.st, plan, digest, opts, at).value;
    PlacementStores(b, Raise(w, c), plan, replacing, opts, at);
  }

  /** The plan `apply` makes asks for what was requested, under the rule's key mode. */
  lemma OwnPlanClaims(b: Bounds, st: State, req: PlacementRequest, at: int)
    requires PlanFor(b, st, req, false, at).Success? && PlanFor(b, st, req, false, at).value.PlanMade?
    ensures
      var plan := PlanFor(b, st, req, false, at).value.plan;
      && plan.fn == req.fn && plan.demand == req.demand
      && plan.scope == req.scope && plan.cls == req.cls && plan.exclusivity == req.exclusivity
      && st.ev.policy.Some? && FindRule(st.ev.policy.value.rules, req.cls).Some?
      && plan.exclusiveKey == FindRule(st.ev.policy.value.rules, req.cls).value.exclusiveKey
  {
    hide EvaluateDevice, Candidates, RefusalReason, EvidenceCurrent, FindAuthority;
  }

  /** An accepted `apply` is the authorization of the plan it made. */
  lemma ApplyIsAuthorize(b: Bounds, w: World, req: PlacementRequest, opts: Options, at: int)
    requires !Known(w.st, req.requestId) && ApplyLocked(b, w, req, opts, at).result.Success?
    ensures
      var planned := PlanFor(b, w.st, req, false, at);
      && planned.Success? && planned.value.PlanMade?
      && ApplyLocked(b, w, req, opts, at) ==
         Authorize(b, w, planned.value.plan, OfPlan(planned.value.plan), OwnOptions(req, opts, planned.value.replace), at)
  {
    hide PlanFor, Authorize, Refuse;
    CancelledPlanFails(b, w.st, req, at);
    RefuseFails(b, w, req.requestId, OfRequest(req), at);
    var planned := PlanFor(b, w.st, req, opts.cancelFrom <= 1, at).value;
    RefuseFails(b, Authorize(b, w, planned.plan, OfPlan(planned.plan), OwnOptions(req, opts, planned.replace), at).w,
                req.requestId, OfRequest(req), at);
  }

  /** The options `apply` authorizes its own plan with. */
  function OwnOptions(req: PlacementRequest, opts: Options, replace: bool): Options {
    Options(if req.requestId != 0 then req.requestId else opts.requestId,
            opts.allowReplacement || req.requestReplacement || replace, opts.cancelFrom)
  }

  /** A record accepted by `apply` passes `assignment_validity` at the same instant exactly
      when its device kind is listed by the rule (only a host fallback can fail this) and
      the capability evidence it is bound to is current (implied when the rule requires a
      capability); and then a revalidation at that instant leaves it exactly as it is. */
  lemma PlacerAgreesWithRevalidator(b: Bounds, w: World, req: PlacementRequest, opts: Options, at: int)
    requires w.st.ev.topology.Some? && StrictlyOrdered(w.st.ev.topology.value.devices)
    requires !Known(w.st, req.requestId) && Apply(b, w, req, opts, at).result.Success?
    ensures w.st.ev.policy.Some? && FindRule(w.st.ev.policy.value.rules, req.cls).Some?
    ensures
      var o := Apply(b, w, req, opts, at);
      var a := o.result.value;
      var rule := FindRule(w.st.ev.policy.value.rules, req.cls).value;
      && a.id in o.w.st.assignments && o.w.st.assignments[a.id] == a
      && (Validity(o.w.st, a, at) == Reason.Ok <==> a.kind in rule.allowedKinds && BoundEvidenceCurrent(w.st.ev, a))
      && (rule.requireCapability ==> BoundEvidenceCurrent(w.st.ev, a))
      && (!a.kind.HostStack? ==> a.kind in rule.allowedKinds)
  {
    hide PlanFor, Authorize, ApplyLocked, Validity, BoundEvidenceCurrent, GoodPlan;
    ApplyIsAuthorize(b, w, req, opts, at);
    var planned := PlanFor(b, w.st, req, false, at).value;
    var plan, effective := planned.plan, OwnOptions(req, opts, planned.replace);
    OwnPlanIsGood(b, w.st, req, at);
    AuthorizeStores(b, w, plan, OfPlan(plan), effective, at);
    var a := Authorize(b, w, plan, OfPlan(plan), effective, at).result.value;
    GoodPlanIsValid(w.st, req, plan, a, at);
    CapabilityStaysValid(w.st, req, plan, a, at);
    PolicyStaysValid(w.st, req, plan, a, at);
    GoodPlanKeepsClass(w.st, req, plan, at);
    ValidityReadsEvidence(Apply(b, w, req, opts, at).w.st, w.st, a, at);
  }

  lemma CancelledPlanFails(b: Bounds, st: State, req: PlacementRequest, at: int)
    ensures PlanFor(b, st, req, true, at).Failure?
  {
  }

  lemma RefuseFails(b: Bounds, w: World, id: Id, fp: Fingerprint, at: int)
    ensures forall code :: Refuse(b, w, id, fp, code, at).result.Failure?
  {
  }

  lemma GoodPlanKeepsClass(st: State, req: PlacementRequest, plan: Plan, at: int)
    requires GoodPlan(st, req, plan, at)
    ensures plan.cls == req.cls && st.ev.policy.Some?
  {
    hide EvaluateDevice, EvidenceGate, Descriptor, FindRule, FindDevice, FindAuthority;
    GateMeansEvidence(st, req, at);
  }

  /** So a sustainable placement survives the next revalidation untouched. */
  lemma PlacementSurvivesRevalidation(b: Bounds, w: World, req: PlacementRequest, opts: Options, at: int, cancelFrom: nat)
    requires w.st.ev.topology.Some? && StrictlyOrdered(w.st.ev.topology.value.devices)
    requires !Known(w.st, req.requestId) && Apply(b, w, req, opts, at).result.Success?
    requires Keyed(Apply(b, w, req, opts, at).w.st.assignments)
    requires w.st.ev.policy.Some? && FindRule(w.st.ev.policy.value.rules, req.cls).Some?
    requires FindRule(w.st.ev.policy.value.rules, req.cls).value.requireCapability
    requires HostStack in FindRule(w.st.ev.policy.value.rules, req.cls).value.allowedKinds ||
             !Apply(b, w, req, opts, at).result.value.kind.HostStack?
    ensures
      var o := Apply(b, w, req, opts, at);
      var a := o.result.value;
      var r := RevalidateAll(b, o.w, at, cancelFrom);
      r.failure.None? ==> a.id in r.w.st.assignments && r.w.st.assignments[a.id] == a
  {
    hide Apply, RevalidateAll, Validity, BoundEvidenceCurrent;
    PlacerAgreesWithRevalidator(b, w, req, opts, at);
    var o := Apply(b, w, req, opts, at);
    if RevalidateAll(b, o.w, at, cancelFrom).failure.None? {
      ValidIsLeftAlone(b, o.w, o.result.value.id, at, cancelFrom);
    }
  }
}
