/** What a revalidation pass decides, over the stored records themselves: who keeps authority, who is
    degraded, who is suspended and why (src/fabric.cpp). */
module Standing {
  import opened Units
  import opened Types
  import opened Ordered
  import opened Decisions
  import opened Claims
  import opened Machine
  import opened Criteria
  import opened Revalidation

  // ---- The conditions ------------------------------------------------------------------------

  /** A heard, fresh topology, not older than the binding, lists the device in this incarnation. */
  ghost predicate DeviceStands(ev: Evidence, a: Assignment, at: int) {
    && ev.topology.Some?
    && var t := ev.topology.value;
       && Heard(ev, t.provenance, TopologyEvidence) && FreshAt(t.freshness, at) && a.binding.topology <= t.generation
       && exists d :: ListsDevice(t.devices, d) && d.id == a.device && !d.decommissioned && d.incarnation == a.incarnation
  }

  /** A heard, fresh policy has a rule for the class that lists the kind. */
  ghost predicate PolicyStands(ev: Evidence, a: Assignment, rule: Rule, at: int) {
    && ev.policy.Some?
    && var p := ev.policy.value;
       && Heard(ev, p.provenance, PolicyEvidence) && FreshAt(p.freshness, at)
       && ListsRule(p.rules, rule) && rule.cls == a.cls && a.kind in rule.allowedKinds && (a.kind.HostStack? ==> rule.allowHostFallback)
  }

  /** The bound capability, if any, is current, fresh and supports the registered function. */
  ghost predicate CapabilityStands(ev: Evidence, a: Assignment, exact: bool, at: int) {
    a.binding.capability != 0 ==>
      && CapabilityKey(a.device, a.cls) in ev.capabilities
      && var cap := ev.capabilities[CapabilityKey(a.device, a.cls)];
         && (exact ==> cap.generation == a.binding.capability) && Heard(ev, cap.provenance, CapabilityEvidence) && FreshAt(cap.freshness, at)
         && (a.fn in ev.functions ==> Supports(cap, ev.functions[a.fn].required, ev.functions[a.fn].version, a.incarnation, at))
  }

  /** What the record requires of the grant it names. */
  function Need(ev: Evidence, a: Assignment, rule: Rule): Mask {
    if a.fn in ev.functions then ev.functions[a.fn].required + rule.required else {}
  }

  /** The named grant, if any, is current and permits the placement; its use budget was spent then. */
  ghost predicate GrantStands(st: State, a: Assignment, rule: Rule, at: int) {
    a.authority != 0 ==>
      && a.authority in st.grants && st.ev.policy.Some?
      && var g := st.grants[a.authority];
         && Heard(st.ev, g.provenance, AuthorityEvidence)
         && Permits(g, Place, a.cls, a.kind, a.host, a.scope.id, Need(st.ev, a, rule), st.ev.policy.value.generation, at)
  }

  ghost predicate FenceStands(st: State, a: Assignment) {
    a.fence.epoch != 0 && a.fence.sequence != 0 ==> a.fence.epoch == st.epoch.counter
  }

  /** Everything but liveness, the policy generation, the epoch and the grant. */
  ghost predicate TargetStands(ev: Evidence, a: Assignment, rule: Rule, exact: bool, at: int) {
    DeviceStands(ev, a, at) && PolicyStands(ev, a, rule, at) && CapabilityStands(ev, a, exact, at)
  }

  ghost predicate Stands(st: State, a: Assignment, at: int) {
    exists rule ::
      && TargetStands(st.ev, a, rule, true, at)
      && (rule.requireFreshObservation ==> Observed(st.ev, a.device, a.incarnation, at, Alive))
      && (a.binding.policy != 0 ==> a.binding.policy == st.ev.policy.value.generation)
      && FenceStands(st, a) && GrantStands(st, a, rule, at)
  }

  /** The target stands but is observed degraded. */
  ghost predicate Weakened(st: State, a: Assignment, at: int) {
    exists rule :: TargetStands(st.ev, a, rule, true, at) && rule.requireFreshObservation &&
                   Observed(st.ev, a.device, a.incarnation, at, Liveness.Degraded)
  }

  // ---- Why a record is suspended -------------------------------------------------------------------

  ghost predicate DeviceFault(r: Reason, ev: Evidence, a: Assignment, at: int) {
    match r
    case TopologyStale => ev.topology.None? || !FreshAt(ev.topology.value.freshness, at)
    case EvidenceSuperseded => ev.topology.Some? && !Heard(ev, ev.topology.value.provenance, TopologyEvidence)
    case GenerationMismatch => ev.topology.Some? && ev.topology.value.generation < a.binding.topology
    case TargetDisappeared =>
      ev.topology.Some? && forall d :: ListsDevice(ev.topology.value.devices, d) && d.id == a.device ==> d.decommissioned
    case IncarnationMismatch =>
      ev.topology.Some? && exists d :: ListsDevice(ev.topology.value.devices, d) && d.id == a.device && d.incarnation != a.incarnation
    case _ => false
  }

  ghost predicate PolicyFault(r: Reason, ev: Evidence, a: Assignment, at: int) {
    match r
    case PolicyStale => ev.policy.None? || !FreshAt(ev.policy.value.freshness, at)
    case EvidenceSuperseded => ev.policy.Some? && !Heard(ev, ev.policy.value.provenance, PolicyEvidence)
    case RefusedByPolicy => ev.policy.Some? && forall rule :: ListsRule(ev.policy.value.rules, rule) ==> rule.cls != a.cls
    case DeviceKindNotPermitted =>
      ev.policy.Some? && exists rule :: ListsRule(ev.policy.value.rules, rule) && rule.cls == a.cls && a.kind !in rule.allowedKinds
    case HostFallbackNotPermitted =>
      ev.policy.Some? && a.kind.HostStack? &&
      exists rule :: ListsRule(ev.policy.value.rules, rule) && rule.cls == a.cls && !rule.allowHostFallback
    case _ => false
  }

  ghost predicate BindingFault(r: Reason, ev: Evidence, a: Assignment, at: int) {
    var key := CapabilityKey(a.device, a.cls);
    a.binding.capability != 0 &&
    ( || (r == CapabilityStale && (key !in ev.capabilities || ev.capabilities[key].generation != a.binding.capability ||
                                   !FreshAt(ev.capabilities[key].freshness, at)))
      || (r == EvidenceSuperseded && key in ev.capabilities && !Heard(ev, ev.capabilities[key].provenance, CapabilityEvidence))
      || (key in ev.capabilities && a.fn in ev.functions &&
          CapabilityFault(r, ev.functions[a.fn].required, ev.functions[a.fn].version, ev.capabilities[key], a.incarnation, at)))
  }

  ghost predicate AuthorityFault(r: Reason, st: State, a: Assignment, at: int) {
    || (r == PolicyStale && st.ev.policy.Some? && a.binding.policy != 0 && st.ev.policy.value.generation != a.binding.policy)
    || (r == LeaseExpired && a.fence.epoch != st.epoch.counter)
    || (a.authority != 0 && r == AuthorityMissing && a.authority !in st.grants)
    || (a.authority != 0 && a.authority in st.grants && st.ev.policy.Some? &&
        var g := st.grants[a.authority];
        || (r == EvidenceSuperseded && !Heard(st.ev, g.provenance, AuthorityEvidence))
        || exists rule :: ListsRule(st.ev.policy.value.rules, rule) && rule.cls == a.cls &&
             GrantFault(r, g, Place, a.cls, a.kind, a.host, a.scope.id, Need(st.ev, a, rule), st.ev.policy.value.generation, at))
  }

  /** The stated reason is true of the stored evidence. */
  ghost predicate Explains(r: Reason, st: State, a: Assignment, at: int) {
    || DeviceFault(r, st.ev, a, at) || PolicyFault(r, st.ev, a, at) || BindingFault(r, st.ev, a, at)
    || LivenessFault(r, st.ev, a.device, a.incarnation, at) || AuthorityFault(r, st, a, at)
  }

  // ---- Validity decides the conditions --------------------------------------------------------------

  lemma TopologyIs(ev: Evidence, a: Assignment, at: int)
    ensures TopologyValidity(ev, a, at) == Reason.Ok <==> DeviceStands(ev, a, at)
    ensures TopologyValidity(ev, a, at) != Reason.Ok ==> DeviceFault(TopologyValidity(ev, a, at), ev, a, at)
  {
    hide FindDevice, ListsDevice;
    if ev.topology.Some? {
      var t := ev.topology.value;
      HeardIs(ev, t.provenance, TopologyEvidence);
      hide Heard, EvidenceCurrent;
      DeviceIs(t.devices, a.device);
    }
  }

  lemma PolicyIs(ev: Evidence, a: Assignment, at: int)
    ensures PolicyValidity(ev, a, at) == Reason.Ok <==> exists rule :: PolicyStands(ev, a, rule, at)
    ensures PolicyValidity(ev, a, at) != Reason.Ok ==> PolicyFault(PolicyValidity(ev, a, at), ev, a, at)
    ensures forall rule :: PolicyStands(ev, a, rule, at) ==> FindRule(ev.policy.value.rules, a.cls) == Some(rule)
  {
    hide FindRule, ListsRule;
    if ev.policy.Some? {
      var p := ev.policy.value;
      HeardIs(ev, p.provenance, PolicyEvidence);
      hide Heard, EvidenceCurrent;
      RuleIs(p.rules, a.cls);
      if PolicyValidity(ev, a, at) == Reason.Ok { assert PolicyStands(ev, a, FindRule(p.rules, a.cls).value, at); }
    }
  }

  lemma CapabilityIs(ev: Evidence, a: Assignment, exact: bool, at: int)
    ensures CapabilityValidity(ev, a, at, exact) == Reason.Ok <==> CapabilityStands(ev, a, exact, at)
    ensures CapabilityValidity(ev, a, at, exact) != Reason.Ok ==> BindingFault(CapabilityValidity(ev, a, at, exact), ev, a, at)
  {
    hide MatchCapability, Supports, CapabilityFault;
    var key := CapabilityKey(a.device, a.cls);
    if key in ev.capabilities {
      HeardIs(ev, ev.capabilities[key].provenance, CapabilityEvidence);
      if a.fn in ev.functions {
        var f := ev.functions[a.fn];
        MatchIs(f.required, f.version, ev.capabilities[key], a.incarnation, at);
        MismatchIsTrue(f.required, f.version, ev.capabilities[key], a.incarnation, at);
      }
    }
    hide Heard, EvidenceCurrent;
  }

  lemma TargetIs(ev: Evidence, a: Assignment, exact: bool, at: int)
    ensures TargetValidity(ev, a, at, exact) == Reason.Ok <==>
            exists rule :: TargetStands(ev, a, rule, exact, at) &&
                           (rule.requireFreshObservation ==> Observed(ev, a.device, a.incarnation, at, Alive))
    ensures TargetValidity(ev, a, at, exact) == LivenessDegraded <==>
            exists rule :: TargetStands(ev, a, rule, exact, at) && rule.requireFreshObservation &&
                           Observed(ev, a.device, a.incarnation, at, Liveness.Degraded)
    ensures
      var r := TargetValidity(ev, a, at, exact);
      || r == Reason.Ok || r == LivenessDegraded || DeviceFault(r, ev, a, at) || PolicyFault(r, ev, a, at)
      || BindingFault(r, ev, a, at) || LivenessFault(r, ev, a.device, a.incarnation, at)
  {
    hide TopologyValidity, PolicyValidity, CapabilityValidity, LivenessStage, DeviceStands, PolicyStands, CapabilityStands, Observed,
         FindRule, LivenessFault;
    TopologyIs(ev, a, at);
    PolicyIs(ev, a, at);
    CapabilityIs(ev, a, exact, at);
    LivenessIs(ev, a.device, a.incarnation, at);
    LivenessRefusalIsTrue(ev, a.device, a.incarnation, at);
    NeverDegraded(ev, a, at);
    hide DeviceFault, PolicyFault, BindingFault;
    if exists rule :: PolicyStands(ev, a, rule, at) {
      var rule :| PolicyStands(ev, a, rule, at);
      assert TargetStands(ev, a, rule, exact, at) <==> DeviceStands(ev, a, at) && CapabilityStands(ev, a, exact, at);
    }
  }

  lemma NeverDegraded(ev: Evidence, a: Assignment, at: int)
    ensures !DeviceFault(LivenessDegraded, ev, a, at) && !PolicyFault(LivenessDegraded, ev, a, at) && !BindingFault(LivenessDegraded, ev, a, at)
  {
  }

  lemma AuthorityIs(st: State, a: Assignment, rule: Rule, at: int)
    requires PolicyStands(st.ev, a, rule, at)
    ensures AuthorityValidity(st.ev, st.grants, a, at) == Reason.Ok <==> GrantStands(st, a, rule, at)
    ensures var r := AuthorityValidity(st.ev, st.grants, a, at); r == Reason.Ok || AuthorityFault(r, st, a, at)
  {
    hide FindRule, ListsRule, Permits, GrantFault, AuthorityRecheck;
    PolicyIs(st.ev, a, at);
    if a.authority in st.grants {
      var g := st.grants[a.authority];
      HeardIs(st.ev, g.provenance, AuthorityEvidence);
      GrantIs(g, Place, a.cls, a.kind, a.host, a.scope.id, Need(st.ev, a, rule), st.ev.policy.value.generation, at);
      GrantRefusalIsTrue(g, Place, a.cls, a.kind, a.host, a.scope.id, Need(st.ev, a, rule), st.ev.policy.value.generation, at);
    }
    hide Heard, EvidenceCurrent;
  }

  lemma GrantIsNotLiveness(st: State, a: Assignment, at: int)
    requires st.ev.policy.Some?
    ensures AuthorityValidity(st.ev, st.grants, a, at) != LivenessDegraded
  {
    hide EvidenceCurrent, FindRule;
  }

  /** Validity decides: stands, stands but weakened, or neither, for a reason that is true. */
  lemma ValidityIs(st: State, a: Assignment, at: int)
    ensures Validity(st, a, at) == Reason.Ok <==> Stands(st, a, at)
    ensures Validity(st, a, at) == LivenessDegraded <==> Weakened(st, a, at)
    ensures var r := Validity(st, a, at); r == Reason.Ok || r == LivenessDegraded || Explains(r, st, a, at)
  {
    hide TargetValidity, AuthorityValidity, TargetStands, Observed, DeviceFault, PolicyFault, BindingFault, LivenessFault, GrantStands;
    TargetIs(st.ev, a, true, at);
    if exists rule :: TargetStands(st.ev, a, rule, true, at) {
      forall rule | TargetStands(st.ev, a, rule, true, at)
        ensures st.ev.policy.Some? && FindRule(st.ev.policy.value.rules, a.cls) == Some(rule)
        ensures AuthorityValidity(st.ev, st.grants, a, at) == Reason.Ok <==> GrantStands(st, a, rule, at)
        ensures AuthorityValidity(st.ev, st.grants, a, at) != Reason.Ok ==> AuthorityFault(AuthorityValidity(st.ev, st.grants, a, at), st, a, at)
      {
        TargetHasRule(st, a, rule, at);
        AuthorityIs(st, a, rule, at);
        GrantIsNotLiveness(st, a, at);
      }
      hide AuthorityFault;
      FenceFault(st, a, at);
      AliveIsNotDegraded(st.ev, a.device, a.incarnation, at);
    }
  }

  lemma FenceFault(st: State, a: Assignment, at: int)
    ensures a.fence.epoch != st.epoch.counter ==> AuthorityFault(LeaseExpired, st, a, at)
    ensures st.ev.policy.Some? && a.binding.policy != 0 && st.ev.policy.value.generation != a.binding.policy ==>
              AuthorityFault(PolicyStale, st, a, at)
  {
  }

  lemma AliveIsNotDegraded(ev: Evidence, device: Id, incarnation: Incarnation, at: int)
    ensures !(Observed(ev, device, incarnation, at, Alive) && Observed(ev, device, incarnation, at, Liveness.Degraded))
  {
  }

  lemma TargetHasRule(st: State, a: Assignment, rule: Rule, at: int)
    requires TargetStands(st.ev, a, rule, true, at)
    ensures PolicyStands(st.ev, a, rule, at) && st.ev.policy.Some? && FindRule(st.ev.policy.value.rules, a.cls) == Some(rule)
  {
    hide FindRule, ListsRule;
    PolicyIs(st.ev, a, at);
  }

  // ---- The pass -----------------------------------------------------------------------------------

  /** The newest entries: something may be missing in front only when the list is full. */
  ghost predicate Newest<T>(all: seq<T>, kept: seq<T>, max: nat) {
    exists k: nat :: k <= |all| && kept == all[k..] && (k > 0 ==> |kept| == max)
  }

  /** Only the lifecycle and its trace differ; the last transition tells what happened. */
  ghost predicate OnlyMoved(b: Bounds, a: Assignment, c: Assignment, at: int) {
    || c == a
    || (&& c == a.(state := c.state, stateReason := c.stateReason, updatedAt := at, history := c.history, effects := c.effects)
        && Newest(a.history + [Transition(a.state, c.state, c.stateReason, at, a.fence)], c.history, b.maxHistory)
        && Newest(a.effects, c.effects, b.maxEffects))
  }

  /** What the pass at `at` makes of a record. */
  ghost predicate Judged(b: Bounds, st: State, a: Assignment, c: Assignment, at: int) {
    && OnlyMoved(b, a, c, at)
    && (Ended(a.state) || Stands(st, a, at) ==> c == a)
    && (!Ended(a.state) && Weakened(st, a, at) ==>
          c.state.Degraded? && if a.state.Degraded? then c == a else c.stateReason == LivenessDegraded)
    && (!Ended(a.state) && !Stands(st, a, at) && !Weakened(st, a, at) ==>
          c.state.Suspended? && c.stateReason != Reason.Ok && Explains(c.stateReason, st, a, at))
  }

  lemma RevisedIsJudged(b: Bounds, st: State, a: Assignment, at: int)
    requires !Ended(a.state)
    ensures Judged(b, st, a, Revised(b, st, a, at), at)
  {
    hide Validity, Stands, Weakened, Explains, Moved;
    ValidityIs(st, a, at);
    MovedOnly(b, a, Lifecycle.Suspended, Validity(st, a, at), at);
    MovedOnly(b, a, Lifecycle.Degraded, Validity(st, a, at), at);
  }

  lemma MovedOnly(b: Bounds, a: Assignment, to: Lifecycle, reason: Reason, at: int)
    ensures var c := Moved(b, a, to, reason, at); OnlyMoved(b, a, c, at) && c.state == to && c.stateReason == reason
  {
    LastIsNewest(a.history + [Transition(a.state, to, reason, at, a.fence)], b.maxHistory);
    LastIsNewest(a.effects, b.maxEffects);
  }

  lemma LastIsNewest<T>(all: seq<T>, max: nat)
    ensures Newest(all, Last(all, max), max)
  {
    var k := if |all| > max then |all| - max else 0;
    assert Last(all, max) == all[k..];
  }

  lemma EndedOnly(b: Bounds, st: State, a: Assignment, at: int)
    requires Ended(a.state)
    ensures Judged(b, st, a, a, at)
  {
    hide Stands, Weakened, Explains;
  }

  /** A revalidation that succeeds leaves a finished record and one whose evidence stands untouched,
      degrades one whose target stands but is observed degraded, and suspends every other with a reason
      that is true of the evidence. */
  lemma RevalidationJudges(b: Bounds, w: World, at: int, cancelFrom: nat)
    requires Keyed(w.st.assignments) && RevalidateAll(b, w, at, cancelFrom).failure.None?
    ensures
      var now := RevalidateAll(b, w, at, cancelFrom).w.st;
      && now.assignments.Keys == w.st.assignments.Keys
      && forall id :: id in w.st.assignments ==> Judged(b, w.st, w.st.assignments[id], now.assignments[id], at)
  {
    hide RevalidateAll, Judged, Revised;
    RevalidationIsSound(b, w, at, cancelFrom);
    var now := RevalidateAll(b, w, at, cancelFrom).w.st;
    forall id | id in w.st.assignments ensures Judged(b, w.st, w.st.assignments[id], now.assignments[id], at) {
      if Ended(w.st.assignments[id].state) { EndedOnly(b, w.st, w.st.assignments[id], at); } else { RevisedIsJudged(b, w.st, w.st.assignments[id], at); }
    }
  }

  /** So afterwards the evidence of every authority holder stands. */
  lemma HoldersStand(b: Bounds, w: World, at: int, cancelFrom: nat)
    requires Keyed(w.st.assignments) && RevalidateAll(b, w, at, cancelFrom).failure.None?
    ensures
      var now := RevalidateAll(b, w, at, cancelFrom).w.st;
      forall id :: id in now.assignments && Holder(now.assignments[id].state) ==> Stands(now, now.assignments[id], at)
  {
    hide RevalidateAll, Validity, Stands;
    RevalidationIsSound(b, w, at, cancelFrom);
    var now := RevalidateAll(b, w, at, cancelFrom).w.st;
    forall id | id in now.assignments && Holder(now.assignments[id].state) ensures Stands(now, now.assignments[id], at) {
      ValidityIs(now, now.assignments[id], at);
    }
  }

  /** Evidence that triggers a revalidation leaves only holders whose evidence stands. */
  lemma EvidenceLeavesStanding(b: Bounds, w: World, r: Record, at: int)
    requires Keyed(w.st.assignments) && Submit(b, w, r, at).1.Success? && Submit(b, w, r, at).0.log != w.log
    requires !r.FunctionRegistered? && !r.AuthorityGranted?
    ensures
      var now := Submit(b, w, r, at).0.st;
      forall id :: id in now.assignments && Holder(now.assignments[id].state) ==> Stands(now, now.assignments[id], at)
  {
    hide EvidenceCheck, LearnEvidence, ApplyGrants, RevalidateAll, Stands;
    var learned := Logged(w, r).(st := Learn(w.st, r));
    HoldersStand(b, learned, at, |LiveIds(learned.st)| + 1);
  }
}
