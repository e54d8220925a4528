/** The decision functions: they read the state and return a verdict.
    Capability matching (src/capability.cpp), grant admission (src/authority.cpp), and the
    candidate evaluation, exclusivity lookup and validity checks of src/fabric.cpp. */
module Decisions {
  import opened Units
  import opened Types
  import opened Ordered

  // ---- Capability matching ----------------------------------------------------------

  datatype Verdict = Eligible | Unsupported | Unknown | Stale | VersionIncompatible | IncarnationMismatch | Revoked

  datatype Match = Match(verdict: Verdict, reason: Reason)

  /** `match_capability`: the branch order decides which refusal is reported; eligibility
      itself is stated independently of that order. */
  function MatchCapability(required: Mask, version: Version, c: CapabilityRecord, expected: Incarnation, now: int): (m: Match)
    ensures m.verdict.Eligible? <==>
      && !c.revoked && c.incarnation == expected && !c.freshness.IsExpired(now)
      && c.minVersion.AtMost(version) && version.AtMost(c.maxVersion)
      && required <= c.supported && required !! c.unsupported && required !! c.unknown
    ensures m.verdict.Eligible? <==> m.reason == Reason.Ok
  {
    if c.revoked then Match(Verdict.Revoked, CapabilityUnsupported)
    else if c.incarnation != expected then Match(Verdict.IncarnationMismatch, Reason.IncarnationMismatch)
    else if c.freshness.IsExpired(now) then Match(Stale, CapabilityStale)
    else if !(c.minVersion.AtMost(version) && version.AtMost(c.maxVersion)) then
      Match(VersionIncompatible, CapabilityIncompatible)
    else if !(required !! c.unsupported) then Match(Unsupported, CapabilityUnsupported)
    else if !(required !! c.unknown) then Match(Verdict.Unknown, CapabilityUnknown)
    else if !(required <= c.supported) then Match(Verdict.Unknown, CapabilityUnknown)
    else Match(Eligible, Reason.Ok)
  }

  // ---- Grants -------------------------------------------------------------------------

  /** `authority_admits`: Ok, or the first failed dimension. */
  function AuthorityAdmits(g: Grant, action: Action, cls: Class, kind: DeviceKind, host: Id, scope: Id,
                           semantics: Mask, policyGeneration: nat, now: int): (r: Reason)
  {
    if g.revoked then Reason.AuthorityWithdrawn
    else if g.policyGeneration != policyGeneration then PolicyStale
    else if now >= g.expiresAt then AuthorityExpired
    else if g.freshness.IsExpired(now) then EvidenceStale
    else if g.maxUses != 0 && g.used >= g.maxUses then NotAuthorized
    else if action !in g.actions then AuthorityScopeMismatch
    else if cls !in g.classes then AuthorityScopeMismatch
    else if kind !in g.kinds then AuthorityScopeMismatch
    else if g.hostScope != 0 && g.hostScope != host then AuthorityScopeMismatch
    else if g.scope != 0 && g.scope != scope then AuthorityScopeMismatch
    else if g.ceiling != {} && !(semantics <= g.ceiling) then AuthorityScopeMismatch
    else Reason.Ok
  }

  /** `authority_recheck`: the use budget was consumed at placement and is masked. */
  function AuthorityRecheck(g: Grant, action: Action, cls: Class, kind: DeviceKind, host: Id, scope: Id,
                            semantics: Mask, policyGeneration: nat, now: int): Reason
  {
    AuthorityAdmits(g.(used := 0, maxUses := 0), action, cls, kind, host, scope, semantics, policyGeneration, now)
  }

  // ---- Evidence -----------------------------------------------------------------------

  predicate EvidenceCurrent(ev: Evidence, p: Provenance, domain: Domain) {
    var key := SourceKey(p.source, domain);
    key in ev.sources && ev.sources[key].IsCurrent(p.sequence)
  }

  /** The topology's device list is strictly ordered, so the binary search of the code
      finds the only match; it is stated as the first match. */
  function FindDevice(devices: seq<Device>, id: Id): (r: Option<Device>)
    ensures r.Some? ==> r.value in devices && r.value.id == id
    ensures r.None? ==> forall d :: d in devices ==> d.id != id
  {
    if devices == [] then None
    else if devices[0].id == id then Some(devices[0])
    else FindDevice(devices[1..], id)
  }

  function FindRule(rules: seq<Rule>, cls: Class): (r: Option<Rule>)
    ensures r.Some? ==> r.value in rules && r.value.cls == cls
    ensures r.None? ==> forall x :: x in rules ==> x.cls != cls
  {
    if rules == [] then None
    else if rules[0].cls == cls then Some(rules[0])
    else FindRule(rules[1..], cls)
  }

  function CommittedFor(committed: map<Id, Demand>, device: Id): Demand {
    if device in committed then committed[device] else ZERO_DEMAND
  }

  // ---- Exclusivity ----------------------------------------------------------------------

  /** `scope_has_exclusive_conflict`: the conflicting holder the two indexes report, or 0.
      A whole-scope claim collides with every per-class claim on the scope. */
  function ScopeConflict(ix: Index, scope: Id, cls: Class, key: KeyMode, replacing: Id): Id {
    if scope == 0 then 0
    else if scope in ix.byScope && ix.byScope[scope] != replacing then ix.byScope[scope]
    else if key.PerClass? then
      var k := ClassKey(scope, cls);
      if k in ix.byClass && ix.byClass[k] != replacing then ix.byClass[k] else 0
    else
      var others := ClassesHeldByOthers(ix, scope, replacing);
      if others == {} then 0 else ix.byClass[ClassKey(scope, Min(others))]
  }

  function ClassesHeldByOthers(ix: Index, scope: Id, replacing: Id): (r: set<Class>)
    ensures forall c :: c in r <==> ClassKey(scope, c) in ix.byClass && ix.byClass[ClassKey(scope, c)] != replacing
  {
    set k | k in ix.byClass && k.scope == scope && ix.byClass[k] != replacing :: k.cls
  }

  // ---- Candidate evaluation -----------------------------------------------------------

  datatype Context = Context(fn: FunctionDescriptor, rule: Rule, request: PlacementRequest, replacing: Id,
                             policyGeneration: nat, now: int)

  datatype Evaluation = Evaluation(device: Id, host: Id, kind: DeviceKind, incarnation: Incarnation,
                                   capabilityGeneration: nat, mode: Mode, reason: Reason) {
    predicate Eligible() { reason == Reason.Ok }
  }

  function KindStage(c: Context, d: Device): Reason {
    if d.decommissioned then TargetDisappeared
    else if d.kind.HostStack? then
      if !c.request.allowHostFallback || !c.rule.allowHostFallback then HostFallbackNotPermitted else Reason.Ok
    else if d.kind !in c.rule.allowedKinds then DeviceKindNotPermitted
    else Reason.Ok
  }

  function AffinityStage(c: Context, d: Device): Reason {
    if c.request.preferredDevices != [] && d.id !in c.request.preferredDevices then AffinityUnsatisfied
    else if c.request.preferredHosts != [] && d.host !in c.request.preferredHosts then AffinityUnsatisfied
    else if d.id in c.request.antiAffinityDevices || d.host in c.request.antiAffinityHosts then AntiAffinityViolation
    else if exists l :: l in c.request.requiredLabels && l !in d.labels then AffinityUnsatisfied
    else Reason.Ok
  }

  /** The capability stage also yields the generation the placement binds to, 0 for none. */
  function CapabilityStage(s: State, c: Context, d: Device): (Reason, nat) {
    var key := CapabilityKey(d.id, c.request.cls);
    var host := d.kind.HostStack?;
    if key !in s.ev.capabilities then
      (if c.rule.requireCapability && !host then EvidenceMissing else Reason.Ok, 0)
    else
      var cap := s.ev.capabilities[key];
      var m := MatchCapability(c.fn.required, c.fn.version, cap, d.incarnation, c.now);
      if m.verdict.Revoked? || m.verdict.IncarnationMismatch? then (m.reason, 0)
      else if host then (Reason.Ok, 0)
      else if m.verdict.Unsupported? || m.verdict.VersionIncompatible? then (m.reason, 0)
      else if c.rule.requireCapability then
        if !EvidenceCurrent(s.ev, cap.provenance, CapabilityEvidence) then (EvidenceSuperseded, 0)
        else if c.request.minCapability != 0 && cap.generation < c.request.minCapability then (GenerationMismatch, 0)
        else if !m.verdict.Eligible? then (m.reason, 0)
        else (Reason.Ok, cap.generation)
      else if m.verdict.Eligible? then (Reason.Ok, cap.generation)
      else (Reason.Ok, 0)
  }

  function HoldersOn(s: State, device: Id): set<Id> {
    set id | id in s.assignments && s.assignments[id].device == device && HoldsAuthority(s.assignments[id].state)
  }

  function CapacityStage(s: State, c: Context, d: Device): Reason {
    if !CapacityAdmits(d.capacity, CommittedFor(s.index.committed, d.id), c.request.demand) then CapacityExhausted
    else if |HoldersOn(s, d.id)| >= c.rule.maxAssignmentsPerDevice then CapacityExhausted
    else Reason.Ok
  }

  /** Liveness evidence, shared by placement and revalidation: both report the same reason
      for the same observation. */
  function LivenessStage(ev: Evidence, device: Id, incarnation: Incarnation, now: int): Reason {
    if device !in ev.observations || ev.observations[device].device == 0 then LivenessUnknown
    else
      var o := ev.observations[device];
      if o.incarnation != incarnation then Reason.IncarnationMismatch
      else if !EvidenceCurrent(ev, o.provenance, ObservationEvidence) then EvidenceSuperseded
      else if o.freshness.IsExpired(now) then LivenessStale
      else match o.liveness
           case Alive => Reason.Ok
           case Degraded => LivenessDegraded
           case Dead => LivenessDead
           case Unknown => LivenessUnknown
  }

  predicate DependencySatisfied(s: State, scope: Id, device: Id, dependency: Id) {
    exists id :: id in s.assignments && s.assignments[id].fn == dependency &&
      HoldsAuthority(s.assignments[id].state) &&
      (s.assignments[id].device == device || (scope != 0 && s.assignments[id].scope.id == scope))
  }

  function DependencyStage(s: State, c: Context, d: Device, dependencies: seq<Id>): Reason {
    if dependencies == [] then Reason.Ok
    else if dependencies[0] == c.request.fn then DependencyCycle
    else if dependencies[0] !in s.ev.functions then DependencyUnresolved
    else if !DependencySatisfied(s, c.request.scope.id, d.id, dependencies[0]) then DependencyUnresolved
    else DependencyStage(s, c, d, dependencies[1..])
  }

  function ExclusiveStage(s: State, c: Context): Reason {
    if c.request.exclusivity.Exclusive? &&
       ScopeConflict(s.index, c.request.scope.id, c.request.cls, c.rule.exclusiveKey, c.replacing) != 0
    then ExclusiveConflict else Reason.Ok
  }

  predicate GrantAdmits(s: State, g: Grant, cls: Class, kind: DeviceKind, host: Id, scope: Id, semantics: Mask,
                        policyGeneration: nat, now: int)
  {
    EvidenceCurrent(s.ev, g.provenance, AuthorityEvidence) &&
    AuthorityAdmits(g, Place, cls, kind, host, scope, semantics, policyGeneration, now) == Reason.Ok
  }

  function AdmittingGrants(s: State, cls: Class, kind: DeviceKind, host: Id, scope: Id, semantics: Mask,
                           policyGeneration: nat, now: int): set<Id>
  {
    set id | id in s.grants && GrantAdmits(s, s.grants[id], cls, kind, host, scope, semantics, policyGeneration, now)
  }

  /** `find_admitting_authority`: the first admitting grant in identifier order, or 0. */
  function FindAuthority(s: State, cls: Class, kind: DeviceKind, host: Id, scope: Id, semantics: Mask,
                         policyGeneration: nat, now: int): (id: Id)
    ensures id != 0 ==> id in s.grants &&
                        GrantAdmits(s, s.grants[id], cls, kind, host, scope, semantics, policyGeneration, now)
  {
    var ids := AdmittingGrants(s, cls, kind, host, scope, semantics, policyGeneration, now);
    if ids == {} then 0 else Min(ids)
  }

  function AuthorityStage(s: State, c: Context, d: Device): Reason {
    if c.rule.requireAuthority &&
       AdmittingGrants(s, c.request.cls, d.kind, d.host, c.request.scope.id, c.fn.required + c.rule.required,
                       c.policyGeneration, c.now) == {}
    then AuthorityMissing else Reason.Ok
  }

  function FirstRefusal(reasons: seq<Reason>): (r: Reason)
    ensures r == Reason.Ok <==> forall i :: 0 <= i < |reasons| ==> reasons[i] == Reason.Ok
    ensures forall i :: 0 <= i < |reasons| && reasons[i] != Reason.Ok && (forall j :: 0 <= j < i ==> reasons[j] == Reason.Ok)
              ==> r == reasons[i]
  {
    if reasons == [] then Reason.Ok
    else if reasons[0] != Reason.Ok then reasons[0]
    else FirstRefusal(reasons[1..])
  }

  /** The stages of `evaluate_device`, in the order of the source. */
  function Stages(s: State, c: Context, d: Device): seq<Reason> {
    [KindStage(c, d), AffinityStage(c, d), CapabilityStage(s, c, d).0, CapacityStage(s, c, d),
     if c.rule.requireFreshObservation then LivenessStage(s.ev, d.id, d.incarnation, c.now) else Reason.Ok,
     DependencyStage(s, c, d, c.request.dependencies), ExclusiveStage(s, c), AuthorityStage(s, c, d)]
  }

  /** `evaluate_device`: the first refusal is the verdict. A host stack runs as a fallback only
      once the fallback was found permitted; until then the mode is the default. */
  function EvaluateDevice(s: State, c: Context, d: Device): Evaluation {
    Evaluation(d.id, d.host, d.kind, d.incarnation, CapabilityStage(s, c, d).1,
               if d.kind.HostStack? && KindStage(c, d) == Reason.Ok then HostFallback else Offloaded,
               FirstRefusal(Stages(s, c, d)))
  }

  /** A device is eligible exactly when every stage passes, and otherwise is refused with the
      reason of the first stage that does not. */
  lemma EligibleStages(s: State, c: Context, d: Device)
    ensures EvaluateDevice(s, c, d).Eligible() <==>
      && KindStage(c, d) == Reason.Ok && AffinityStage(c, d) == Reason.Ok && CapabilityStage(s, c, d).0 == Reason.Ok
      && CapacityStage(s, c, d) == Reason.Ok
      && (c.rule.requireFreshObservation ==> LivenessStage(s.ev, d.id, d.incarnation, c.now) == Reason.Ok)
      && DependencyStage(s, c, d, c.request.dependencies) == Reason.Ok
      && ExclusiveStage(s, c) == Reason.Ok && AuthorityStage(s, c, d) == Reason.Ok
    ensures EvaluateDevice(s, c, d).capabilityGeneration == CapabilityStage(s, c, d).1
    ensures forall i :: 0 <= i < 8 && Stages(s, c, d)[i] != Reason.Ok && (forall j :: 0 <= j < i ==> Stages(s, c, d)[j] == Reason.Ok)
              ==> EvaluateDevice(s, c, d).reason == Stages(s, c, d)[i]
  {
    hide KindStage, AffinityStage, CapabilityStage, CapacityStage, LivenessStage, DependencyStage, ExclusiveStage, AuthorityStage;
    var reasons := Stages(s, c, d);
    assert FirstRefusal(reasons) == Reason.Ok ==>
      reasons[0] == reasons[1] == reasons[2] == reasons[3] == Reason.Ok &&
      reasons[4] == reasons[5] == reasons[6] == reasons[7] == Reason.Ok;
  }

  // ---- Validity of a stored assignment ----------------------------------------------------

  function CapabilityValidity(ev: Evidence, a: Assignment, at: int, exact: bool): Reason {
    var key := CapabilityKey(a.device, a.cls);
    if a.binding.capability == 0 then Reason.Ok
    else if key !in ev.capabilities then CapabilityStale
    else
      var cap := ev.capabilities[key];
      if exact && cap.generation != a.binding.capability then CapabilityStale
      else if !EvidenceCurrent(ev, cap.provenance, CapabilityEvidence) then EvidenceSuperseded
      else if cap.freshness.IsExpired(at) then CapabilityStale
      else if a.fn in ev.functions then
        var f := ev.functions[a.fn];
        MatchCapability(f.required, f.version, cap, a.incarnation, at).reason
      else Reason.Ok
  }

  function TopologyValidity(ev: Evidence, a: Assignment, at: int): Reason {
    if ev.topology.None? then TopologyStale
    else
      var t := ev.topology.value;
      if !EvidenceCurrent(ev, t.provenance, TopologyEvidence) then EvidenceSuperseded
      else if t.freshness.IsExpired(at) then TopologyStale
      else if a.binding.topology != 0 && t.generation < a.binding.topology then GenerationMismatch
      else
        var d := FindDevice(t.devices, a.device);
        if d.None? || d.value.decommissioned then TargetDisappeared
        else if d.value.incarnation != a.incarnation then Reason.IncarnationMismatch
        else Reason.Ok
  }

  function PolicyValidity(ev: Evidence, a: Assignment, at: int): Reason {
    if ev.policy.None? then PolicyStale
    else
      var p := ev.policy.value;
      if !EvidenceCurrent(ev, p.provenance, PolicyEvidence) then EvidenceSuperseded
      else if p.freshness.IsExpired(at) then PolicyStale
      else
        var rule := FindRule(p.rules, a.cls);
        if rule.None? then RefusedByPolicy
        else if a.kind !in rule.value.allowedKinds then DeviceKindNotPermitted
        else if a.kind.HostStack? && !rule.value.allowHostFallback then HostFallbackNotPermitted
        else Reason.Ok
  }

  /** `assignment_target_validity`; `exact` is `require_binding_generations`. */
  function TargetValidity(ev: Evidence, a: Assignment, at: int, exact: bool): Reason {
    var t := TopologyValidity(ev, a, at);
    if t != Reason.Ok then t
    else
      var p := PolicyValidity(ev, a, at);
      if p != Reason.Ok then p
      else
        var c := CapabilityValidity(ev, a, at, exact);
        if c != Reason.Ok then c
        else if FindRule(ev.policy.value.rules, a.cls).value.requireFreshObservation then
          LivenessStage(ev, a.device, a.incarnation, at)
        else Reason.Ok
  }

  function AuthorityValidity(ev: Evidence, grants: map<Id, Grant>, a: Assignment, at: int): Reason
    requires ev.policy.Some?
  {
    if a.authority == 0 then Reason.Ok
    else if a.authority !in grants then AuthorityMissing
    else
      var g := grants[a.authority];
      if !EvidenceCurrent(ev, g.provenance, AuthorityEvidence) then EvidenceSuperseded
      else
        var rule := FindRule(ev.policy.value.rules, a.cls);
        var effective := if a.fn in ev.functions && rule.Some?
                         then ev.functions[a.fn].required + rule.value.required else {};
        AuthorityRecheck(g, Place, a.cls, a.kind, a.host, a.scope.id, effective, ev.policy.value.generation, at)
  }

  /** `assignment_validity`: why a live assignment may no longer hold authority, or Ok. */
  function Validity(s: State, a: Assignment, at: int): Reason {
    var target := TargetValidity(s.ev, a, at, true);
    if target != Reason.Ok then target
    else if a.binding.policy != 0 && s.ev.policy.value.generation != a.binding.policy then PolicyStale
    else if a.fence.IsSet() && a.fence.epoch != s.epoch.counter then LeaseExpired
    else AuthorityValidity(s.ev, s.grants, a, at)
  }
}
