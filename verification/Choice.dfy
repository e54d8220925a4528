/** Which device a plan names, and why a request is refused, in terms of the devices themselves
    (src/fabric.cpp). */
module Choice {
  import opened Units
  import opened Types
  import opened Ordered
  import opened Decisions
  import opened Ranking
  import opened Machine
  import opened Criteria
  import opened Suitability
  import opened Agreement

  // ---- The preference ---------------------------------------------------------------------------

  /** A DPU before a SmartNIC before a NIC before a host stack. */
  predicate KindNotAfter(k: DeviceKind, l: DeviceKind) {
    || k.Dpu? || (k.SmartNic? && !l.Dpu?) || (k.Nic? && (l.Nic? || l.HostStack?)) || (k.HostStack? && l.HostStack?)
  }

  predicate OnScopeHost(c: Context, d: Device) { c.request.scope.domain != 0 && d.host == c.request.scope.domain }

  predicate OnPreferredHost(c: Context, d: Device) { d.host in c.request.preferredHosts }

  /** The share of the device that is in use, in parts per million. */
  function InUse(s: State, d: Device): nat { Utilization(CommittedFor(s.index.committed, d.id), d.capacity) }

  /** `d` was rightly taken before `e`: no fallback before an offload; within that no later kind before an
      earlier; within a kind nothing off the scope's host before a device on it, then nothing off the
      preferred hosts; within that no busier device; and then the smaller identifier. */
  predicate NotPassedOver(s: State, c: Context, d: Device, e: Device) {
    && (Fallback(c, d) ==> Fallback(c, e))
    && (Fallback(c, d) == Fallback(c, e) ==>
          && KindNotAfter(d.kind, e.kind)
          && (d.kind == e.kind ==>
                && (OnScopeHost(c, e) ==> OnScopeHost(c, d))
                && (OnScopeHost(c, d) == OnScopeHost(c, e) ==>
                      && (!OnScopeHost(c, d) && OnPreferredHost(c, e) ==> OnPreferredHost(c, d))
                      && (OnScopeHost(c, d) || OnPreferredHost(c, d) == OnPreferredHost(c, e) ==>
                            && InUse(s, d) <= InUse(s, e)
                            && (InUse(s, d) == InUse(s, e) ==> d.id <= e.id)))))
  }

  function Ratio(used: nat, capacity: nat): nat {
    if capacity == 0 then if used == 0 then 0 else 1_000_000
    else
      var share := used * 1_000_000 / capacity;
      if share > 1_000_000 then 1_000_000 else share
  }

  /** While the four counted components do not wrap around, the share is their true ratio. */
  lemma InUseIsRatio(used: Demand, capacity: Demand)
    requires (used.packets + used.flows + used.queues + used.memory) * 1_000_000 <= U64_MAX
    requires capacity.packets + capacity.flows + capacity.queues + capacity.memory <= U64_MAX
    ensures Utilization(used, capacity) ==
            Ratio(used.packets + used.flows + used.queues + used.memory,
                  capacity.packets + capacity.flows + capacity.queues + capacity.memory)
  {
    hide PartsPerMillion, Ratio;
    var u := used.packets + used.flows + used.queues + used.memory;
    var c := capacity.packets + capacity.flows + capacity.queues + capacity.memory;
    PlainTotal(used);
    PlainTotal(capacity);
    ShareIsRatio(u, c);
  }

  lemma PlainTotal(d: Demand)
    requires d.packets + d.flows + d.queues + d.memory <= U64_MAX
    ensures WrappedTotal(d) == d.packets + d.flows + d.queues + d.memory
  {
  }

  lemma ShareIsRatio(used: nat, capacity: nat)
    requires used * 1_000_000 <= U64_MAX
    ensures PartsPerMillion(used, capacity) == Ratio(used, capacity)
  {
    if used == 0 && capacity > 0 { assert 0 * 1_000_000 / capacity == 0; }
  }

  lemma PrecedenceIs(s: State, c: Context, d: Device, e: Device)
    requires NotAfter(RankOf(s, c.request, EvaluateDevice(s, c, d), d), RankOf(s, c.request, EvaluateDevice(s, c, e), e))
    ensures NotPassedOver(s, c, d, e)
  {
    hide EvaluateDevice, Utilization, Fallback;
    SuitableIs(s, c, d);
    SuitableIs(s, c, e);
    RankFields(s, c, d);
    RankFields(s, c, e);
  }

  lemma RankFields(s: State, c: Context, d: Device)
    ensures
      var e := EvaluateDevice(s, c, d);
      && RankOf(s, c.request, e, d) == Candidate(if e.mode.HostFallback? then 1 else 0, KindRank(d.kind),
                                                 LocalityRank(c.request.scope.domain, c.request.preferredHosts, d.host), InUse(s, d), d.id)
  {
    hide Utilization, KindStage, Stages, CapabilityStage;
  }

  // ---- The candidates -------------------------------------------------------------------------------

  lemma {:induction false} EveryDeviceIsRanked(s: State, c: Context, devices: seq<Device>, wanted: bool)
    ensures forall d :: d in devices && EvaluateDevice(s, c, d).Eligible() == wanted ==>
              RankOf(s, c.request, EvaluateDevice(s, c, d), d) in Candidates(s, c, devices, wanted)
    ensures forall x :: x in Candidates(s, c, devices, wanted) ==>
              exists d :: d in devices && EvaluateDevice(s, c, d).Eligible() == wanted && x == RankOf(s, c.request, EvaluateDevice(s, c, d), d)
    decreases |devices|
  {
    hide EvaluateDevice, RankOf;
    if devices != [] {
      EveryDeviceIsRanked(s, c, devices[1..], wanted);
      assert devices == [devices[0]] + devices[1..];
    }
  }

  lemma FoundIs(devices: seq<Device>, d: Device)
    requires StrictlyOrdered(devices) && d in devices
    ensures FindDevice(devices, d.id) == Some(d)
  {
    var found := FindDevice(devices, d.id);
    if found.Some? {
      var i :| 0 <= i < |devices| && devices[i] == d;
      var j :| 0 <= j < |devices| && devices[j] == found.value;
    }
    hide FindDevice;
  }

  /** The best of the devices with the wanted verdict. */
  lemma BestIs(s: State, c: Context, devices: seq<Device>, wanted: bool)
    requires StrictlyOrdered(devices)
    ensures
      var best := Best(Candidates(s, c, devices, wanted));
      && (best.Some? <==> exists d :: d in devices && EvaluateDevice(s, c, d).Eligible() == wanted)
      && (best.Some? ==>
            && FindDevice(devices, best.value.device).Some?
            && var d := FindDevice(devices, best.value.device).value;
               && d in devices && EvaluateDevice(s, c, d).Eligible() == wanted
               && forall e :: e in devices && EvaluateDevice(s, c, e).Eligible() == wanted ==> NotPassedOver(s, c, d, e))
  {
    hide EvaluateDevice, RankOf, FindDevice, Best, StrictlyOrdered, NotPassedOver, NotAfter;
    EveryDeviceIsRanked(s, c, devices, wanted);
    var candidates := Candidates(s, c, devices, wanted);
    BestFacts(candidates);
    var best := Best(candidates);
    if best.Some? {
      var d :| d in devices && EvaluateDevice(s, c, d).Eligible() == wanted && best.value == RankOf(s, c.request, EvaluateDevice(s, c, d), d);
      RankKeepsDevice(s, c, d);
      FoundIs(devices, d);
      forall e | e in devices && EvaluateDevice(s, c, e).Eligible() == wanted ensures NotPassedOver(s, c, d, e) {
        PrecedenceIs(s, c, d, e);
      }
    } else {
      assert candidates == [];
    }
  }

  lemma BestFacts(candidates: seq<Candidate>)
    ensures Best(candidates).None? <==> candidates == []
    ensures Best(candidates).Some? ==>
              Best(candidates).value in candidates && forall x :: x in candidates ==> NotAfter(Best(candidates).value, x)
  {
  }

  // ---- The plan ---------------------------------------------------------------------------------------

  /** Topology and policy were accepted in this lifetime, are fresh, and recent enough for the request. */
  predicate EvidenceReady(st: State, req: PlacementRequest, at: int) {
    && st.ev.topology.Some? && st.ev.policy.Some?
    && var t, p := st.ev.topology.value, st.ev.policy.value;
       && Heard(st.ev, t.provenance, TopologyEvidence) && FreshAt(t.freshness, at) && req.minTopology <= t.generation
       && Heard(st.ev, p.provenance, PolicyEvidence) && FreshAt(p.freshness, at) && req.minPolicy <= p.generation
  }

  /** The function as asked for: a registered one contributes its requirement and fixes the version. */
  ghost predicate Describes(st: State, req: PlacementRequest, f: FunctionDescriptor) {
    && f.id == req.fn && f.cls == req.cls
    && if req.fn in st.ev.functions then
         var known := st.ev.functions[req.fn];
         && known.cls == req.cls && (req.version == Version(0, 0) || req.version == known.version)
         && f.version == known.version && (forall x :: x in f.required <==> x in known.required || x in req.required)
       else f.version == req.version && f.required == req.required
  }

  /** The indexed holder of the requested claim, for requests that would displace one. */
  function Occupant(st: State, req: PlacementRequest): Id {
    var k := ClassKey(req.scope.id, req.cls);
    if !req.requestReplacement && req.exclusivity.Shared? then 0
    else if k in st.index.byClass then st.index.byClass[k]
    else if req.scope.id in st.index.byScope then st.index.byScope[req.scope.id]
    else 0
  }

  /** The devices a plan considers. */
  function Considered(b: Bounds, st: State): seq<Device>
    requires st.ev.topology.Some?
  {
    var all := st.ev.topology.value.devices;
    if |all| <= b.maxCandidates then all else all[..b.maxCandidates]
  }

  /** Everything a plan needs but a device. */
  ghost predicate Plannable(b: Bounds, st: State, req: PlacementRequest, at: int, c: Context) {
    && req.fn != 0 && EvidenceReady(st, req, at) && Describes(st, req, c.fn) && |c.fn.required| <= b.maxSemantics
    && ListsRule(st.ev.policy.value.rules, c.rule) && c.rule.cls == req.cls
    && (req.requestReplacement || Occupant(st, req) == 0)
    && c == Context(c.fn, c.rule, req, Occupant(st, req), st.ev.policy.value.generation, at)
  }

  lemma ReadyIs(st: State, req: PlacementRequest, at: int)
    ensures EvidenceGate(st, req, at) == Reason.Ok <==> EvidenceReady(st, req, at)
  {
    if st.ev.topology.Some? { HeardIs(st.ev, st.ev.topology.value.provenance, TopologyEvidence); }
    if st.ev.policy.Some? { HeardIs(st.ev, st.ev.policy.value.provenance, PolicyEvidence); }
    hide Heard, EvidenceCurrent;
  }

  lemma DescriptionIs(st: State, req: PlacementRequest, f: FunctionDescriptor)
    ensures Descriptor(st, req) == Success(f) <==> Describes(st, req, f)
  {
    if Describes(st, req, f) && req.fn in st.ev.functions { assert f.required == st.ev.functions[req.fn].required + req.required; }
  }

  lemma PlannableIs(b: Bounds, st: State, req: PlacementRequest, at: int, c: Context)
    ensures Plannable(b, st, req, at, c) <==>
      && req.fn != 0 && EvidenceGate(st, req, at) == Reason.Ok && Descriptor(st, req) == Success(c.fn) && |c.fn.required| <= b.maxSemantics
      && st.ev.policy.Some? && FindRule(st.ev.policy.value.rules, req.cls) == Some(c.rule)
      && (req.requestReplacement || Displaced(st, req) == 0) && c == PlanContext(st, req, c.fn, c.rule, at)
  {
    hide EvidenceGate, EvidenceReady, Descriptor, Describes, FindRule, ListsRule;
    ReadyIs(st, req, at);
    GateNeeds(st, req, at);
    DescriptionIs(st, req, c.fn);
    if st.ev.policy.Some? { RuleIs(st.ev.policy.value.rules, req.cls); }
  }

  lemma GateNeeds(st: State, req: PlacementRequest, at: int)
    ensures EvidenceReady(st, req, at) ==> st.ev.topology.Some? && st.ev.policy.Some?
  {
  }

  /** The plan for a device. */
  ghost predicate Names(st: State, c: Context, d: Device, plan: Plan) {
    && plan.device == d.id && plan.host == d.host && plan.kind == d.kind && plan.incarnation == d.incarnation
    && plan.mode == (if Fallback(c, d) then HostFallback else Offloaded)
    && plan.requestId == c.request.requestId && plan.fn == c.request.fn && plan.cls == c.request.cls && plan.scope == c.request.scope
    && plan.scopeId == c.request.scope.id && plan.exclusivity == c.request.exclusivity && plan.exclusiveKey == c.rule.exclusiveKey
    && plan.demand == c.request.demand && plan.effectiveRequirement == c.fn.required + c.rule.required
    && st.ev.topology.Some? && st.ev.policy.Some?
    && plan.binding.topology == st.ev.topology.value.generation && plan.binding.policy == st.ev.policy.value.generation
    && plan.binding.capability == Bound(st, c, d) && plan.binding.assignment == 1
    && plan.binding.schema == (if CapabilityKey(d.id, c.request.cls) in st.ev.capabilities
                               then st.ev.capabilities[CapabilityKey(d.id, c.request.cls)].schema else 0)
    && (if c.rule.requireAuthority then
          LeastGrant(st, c, d, plan.authority)
        else plan.authority == 0)
  }

  /** The first grant in identifier order among those heard that permit the placement. */
  ghost predicate LeastGrant(st: State, c: Context, d: Device, g: Id) {
    && Usable(st, c, d, g) && forall h :: Usable(st, c, d, h) ==> g <= h
  }

  predicate Usable(st: State, c: Context, d: Device, g: Id) {
    && g in st.grants && Heard(st.ev, st.grants[g].provenance, AuthorityEvidence) && Unspent(st.grants[g])
    && Permits(st.grants[g], Place, c.request.cls, d.kind, d.host, c.request.scope.id, c.fn.required + c.rule.required, c.policyGeneration, c.now)
  }

  lemma LeastIs(st: State, c: Context, d: Device)
    requires Granted(st, c.request.cls, d.kind, d.host, c.request.scope.id, c.fn.required + c.rule.required, c.policyGeneration, c.now)
    ensures LeastGrant(st, c, d, FindAuthority(st, c.request.cls, d.kind, d.host, c.request.scope.id, c.fn.required + c.rule.required,
                                               c.policyGeneration, c.now))
  {
    hide AuthorityAdmits, Permits, EvidenceCurrent, Heard, Min;
    var need := c.fn.required + c.rule.required;
    GrantedIs(st, c.request.cls, d.kind, d.host, c.request.scope.id, need, c.policyGeneration, c.now);
    var ids := AdmittingGrants(st, c.request.cls, d.kind, d.host, c.request.scope.id, need, c.policyGeneration, c.now);
    forall g ensures g in ids <==> Usable(st, c, d, g) {
      if g in st.grants {
        GrantIs(st.grants[g], Place, c.request.cls, d.kind, d.host, c.request.scope.id, need, c.policyGeneration, c.now);
        HeardIs(st.ev, st.grants[g].provenance, AuthorityEvidence);
      }
    }
  }

  /** A suitable device is planned for. */
  lemma PlanOnIs(st: State, c: Context, d: Device)
    requires st.ev.topology.Some? && st.ev.policy.Some? && Suitable(st, c, d) && 0 !in st.grants && c.policyGeneration == st.ev.policy.value.generation
    ensures PlanOn(st, c, d).PlanMade? && Names(st, c, d, PlanOn(st, c, d).plan)
    ensures PlanOn(st, c, d).replace == (c.replacing != 0)
  {
    SuitableIs(st, c, d);
    if c.rule.requireAuthority { LeastIs(st, c, d); }
    hide EvaluateDevice, FindAuthority, Granted, Capable, Roomy, Wanted, Served, Observed, ScopeConflict, Bound, Permits, Heard;
  }

  /** Given all else, a request is planned exactly when some considered device is suitable; the plan names
      a suitable device that no other suitable one was passed over for. Otherwise the reason is that of the
      considered device that comes first in the same preference. */
  lemma ChosenIs(b: Bounds, st: State, c: Context)
    requires st.ev.topology.Some? && st.ev.policy.Some? && StrictlyOrdered(st.ev.topology.value.devices) && 0 !in st.grants
    requires c.policyGeneration == st.ev.policy.value.generation
    ensures
      var devices := Considered(b, st);
      match ChooseDevice(b, st, c)
      case PlanMade(plan, replace) =>
        && replace == (c.replacing != 0)
        && exists d :: d in devices && Suitable(st, c, d) && Names(st, c, d, plan) &&
             forall e :: e in devices && Suitable(st, c, e) ==> NotPassedOver(st, c, d, e)
      case PlanRefused(reason) =>
        && (forall d :: d in devices ==> !Suitable(st, c, d))
        && if devices == [] then reason == NoEligibleTarget
           else exists d :: d in devices && reason == EvaluateDevice(st, c, d).reason &&
                  forall e :: e in devices ==> NotPassedOver(st, c, d, e)
  {
    hide EvaluateDevice, Candidates, FindDevice, Best, NotPassedOver, PlanOn, Suitable, Names;
    var all, devices := st.ev.topology.value.devices, Considered(b, st);
    assert all[..|all|] == all;
    BestIs(st, c, devices, true);
    BestIs(st, c, devices, false);
    forall d | d in devices ensures EvaluateDevice(st, c, d).Eligible() <==> Suitable(st, c, d) { SuitableIs(st, c, d); }
    var best := Best(Candidates(st, c, devices, true));
    if best.Some? {
      PlanOnIs(st, c, FindDevice(devices, best.value.device).value);
    } else if devices != [] {
      assert devices[0] in devices;
      var d := FindDevice(devices, Best(Candidates(st, c, devices, false)).value.device).value;
      assert d in devices && RefusalReason(st, c, devices) == EvaluateDevice(st, c, d).reason;
    }
  }

  /** The planner, exactly: a request is planned if and only if it is plannable and some considered device
      is suitable. */
  lemma PlannedIff(b: Bounds, st: State, req: PlacementRequest, at: int)
    requires 0 !in st.grants && (st.ev.topology.Some? ==> StrictlyOrdered(st.ev.topology.value.devices))
    ensures
      var planned := PlanFor(b, st, req, false, at);
      planned.Success? && planned.value.PlanMade? <==>
      exists c :: Plannable(b, st, req, at, c) && exists d :: d in Considered(b, st) && Suitable(st, c, d)
  {
    hide EvidenceGate, Descriptor, FindRule, ChooseDevice, Displaced, Plannable, Suitable, PlanContext, Considered;
    GateMeans(st, req, at);
    if Refusable(b, st, req, at) {
      forall c ensures !Plannable(b, st, req, at, c) { PlannableIs(b, st, req, at, c); }
    } else {
      var c := PlanContext(st, req, Descriptor(st, req).value, FindRule(st.ev.policy.value.rules, req.cls).value, at);
      OnlyContext(b, st, req, at, c);
      ContextFields(st, req, Descriptor(st, req).value, FindRule(st.ev.policy.value.rules, req.cls).value, at);
      ChosenIs(b, st, c);
      assert PlanFor(b, st, req, false, at) == Success(ChooseDevice(b, st, c)) && Plannable(b, st, req, at, c);
    }
  }

  predicate Refusable(b: Bounds, st: State, req: PlacementRequest, at: int) {
    || req.fn == 0 || EvidenceGate(st, req, at) != Reason.Ok || Descriptor(st, req).Failure? || |Descriptor(st, req).value.required| > b.maxSemantics
    || st.ev.policy.None? || FindRule(st.ev.policy.value.rules, req.cls).None? || (!req.requestReplacement && Displaced(st, req) != 0)
  }

  lemma GateMeans(st: State, req: PlacementRequest, at: int)
    ensures EvidenceGate(st, req, at) == Reason.Ok ==> st.ev.topology.Some? && st.ev.policy.Some?
  {
  }

  lemma ContextFields(st: State, req: PlacementRequest, f: FunctionDescriptor, rule: Rule, at: int)
    requires st.ev.policy.Some?
    ensures
      var c := PlanContext(st, req, f, rule, at);
      c.fn == f && c.rule == rule && c.policyGeneration == st.ev.policy.value.generation
  {
  }

  lemma OnlyContext(b: Bounds, st: State, req: PlacementRequest, at: int, c: Context)
    requires !Refusable(b, st, req, at) && st.ev.policy.Some?
    requires c == PlanContext(st, req, Descriptor(st, req).value, FindRule(st.ev.policy.value.rules, req.cls).value, at)
    ensures forall x :: Plannable(b, st, req, at, x) <==> x == c
  {
    hide EvidenceGate, Descriptor, FindRule, Displaced, Plannable, PlanContext;
    ContextFields(st, req, Descriptor(st, req).value, FindRule(st.ev.policy.value.rules, req.cls).value, at);
    forall x ensures Plannable(b, st, req, at, x) <==> x == c { PlannableIs(b, st, req, at, x); }
  }

  /** What a plan says. */
  lemma PlanIs(b: Bounds, st: State, req: PlacementRequest, at: int)
    requires 0 !in st.grants && (st.ev.topology.Some? ==> StrictlyOrdered(st.ev.topology.value.devices))
    requires PlanFor(b, st, req, false, at).Success? && PlanFor(b, st, req, false, at).value.PlanMade?
    ensures
      var planned := PlanFor(b, st, req, false, at).value;
      exists c, d :: Plannable(b, st, req, at, c) && d in Considered(b, st) && Suitable(st, c, d) && Names(st, c, d, planned.plan) &&
        planned.replace == (c.replacing != 0) && forall e :: e in Considered(b, st) && Suitable(st, c, e) ==> NotPassedOver(st, c, d, e)
  {
    hide EvidenceGate, Descriptor, FindRule, ChooseDevice, Displaced, Plannable, Suitable, PlanContext, Considered, Names, NotPassedOver;
    GateMeans(st, req, at);
    var c := PlanContext(st, req, Descriptor(st, req).value, FindRule(st.ev.policy.value.rules, req.cls).value, at);
    OnlyContext(b, st, req, at, c);
    ContextFields(st, req, Descriptor(st, req).value, FindRule(st.ev.policy.value.rules, req.cls).value, at);
    ChosenIs(b, st, c);
  }
}
