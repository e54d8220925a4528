/** Which devices can take a placement, over the stored records themselves (src/fabric.cpp). */
module Suitability {
  import opened Units
  import opened Types
  import opened Ordered
  import opened Decisions
  import opened Machine
  import opened Criteria

  /** A host stack that may serve as a fallback. */
  predicate Fallback(c: Context, d: Device) {
    d.kind.HostStack? && !d.decommissioned && c.request.allowHostFallback && c.rule.allowHostFallback
  }

  predicate Wanted(c: Context, d: Device) {
    && (c.request.preferredDevices == [] || d.id in c.request.preferredDevices)
    && (c.request.preferredHosts == [] || d.host in c.request.preferredHosts)
    && d.id !in c.request.antiAffinityDevices && d.host !in c.request.antiAffinityHosts
    && forall l :: l in c.request.requiredLabels ==> l in d.labels
  }

  /** Capability evidence must fit if there is any; a rule may also demand that there is, that it is
      current and recent enough, and that it supports everything. */
  predicate Capable(s: State, c: Context, d: Device) {
    var key := CapabilityKey(d.id, c.request.cls);
    if key !in s.ev.capabilities then !c.rule.requireCapability || d.kind.HostStack?
    else
      var cap := s.ev.capabilities[key];
      && !cap.revoked && cap.incarnation == d.incarnation
      && (!d.kind.HostStack? ==>
            && (FreshAt(cap.freshness, c.now) ==>
                  VersionWithin(c.fn.version, cap) && forall x :: x in c.fn.required ==> x !in cap.unsupported)
            && (c.rule.requireCapability ==>
                  && Heard(s.ev, cap.provenance, CapabilityEvidence) && c.request.minCapability <= cap.generation
                  && Supports(cap, c.fn.required, c.fn.version, d.incarnation, c.now)))
  }

  /** The capability generation a placement on the device is bound to. */
  function Bound(s: State, c: Context, d: Device): nat {
    var key := CapabilityKey(d.id, c.request.cls);
    if key in s.ev.capabilities && !d.kind.HostStack? && Supports(s.ev.capabilities[key], c.fn.required, c.fn.version, d.incarnation, c.now)
    then s.ev.capabilities[key].generation else 0
  }

  predicate Roomy(s: State, c: Context, d: Device) {
    && (forall x: Component :: CommittedFor(s.index.committed, d.id).Of(x) + c.request.demand.Of(x) <= d.capacity.Of(x))
    && |set id | id in s.assignments && s.assignments[id].device == d.id && Holder(s.assignments[id].state)| < c.rule.maxAssignmentsPerDevice
  }

  /** A registered function that is not the requested one holds authority on the device or the scope. */
  predicate Served(s: State, c: Context, d: Device, dependency: Id) {
    && dependency != c.request.fn && dependency in s.ev.functions
    && exists id :: id in s.assignments && s.assignments[id].fn == dependency && Holder(s.assignments[id].state) &&
         (s.assignments[id].device == d.id || (c.request.scope.id != 0 && s.assignments[id].scope.id == c.request.scope.id))
  }

  /** Some grant heard in this lifetime permits the placement and has uses left. */
  predicate Granted(s: State, cls: Class, kind: DeviceKind, host: Id, scope: Id, need: Mask, generation: nat, at: int) {
    exists g :: g in s.grants && Heard(s.ev, s.grants[g].provenance, AuthorityEvidence) && Unspent(s.grants[g]) &&
      Permits(s.grants[g], Place, cls, kind, host, scope, need, generation, at)
  }

  predicate Suitable(s: State, c: Context, d: Device) {
    && !d.decommissioned && (if d.kind.HostStack? then Fallback(c, d) else d.kind in c.rule.allowedKinds)
    && Wanted(c, d) && Capable(s, c, d) && Roomy(s, c, d)
    && (c.rule.requireFreshObservation ==> Observed(s.ev, d.id, d.incarnation, c.now, Alive))
    && (forall x :: x in c.request.dependencies ==> Served(s, c, d, x))
    && (c.request.exclusivity.Exclusive? ==>
          ScopeConflict(s.index, c.request.scope.id, c.request.cls, c.rule.exclusiveKey, c.replacing) == 0)
    && (c.rule.requireAuthority ==>
          Granted(s, c.request.cls, d.kind, d.host, c.request.scope.id, c.fn.required + c.rule.required, c.policyGeneration, c.now))
  }

  // ---- The evaluation decides it ------------------------------------------------------------------

  lemma CapableIs(s: State, c: Context, d: Device)
    ensures CapabilityStage(s, c, d).0 == Reason.Ok <==> Capable(s, c, d)
    ensures Capable(s, c, d) ==> CapabilityStage(s, c, d).1 == Bound(s, c, d)
  {
    var key := CapabilityKey(d.id, c.request.cls);
    if key in s.ev.capabilities {
      var cap := s.ev.capabilities[key];
      HeardIs(s.ev, cap.provenance, CapabilityEvidence);
      hide EvidenceCurrent, Heard;
      MatchIs(c.fn.required, c.fn.version, cap, d.incarnation, c.now);
      VerdictIs(c.fn.required, c.fn.version, cap, d.incarnation, c.now);
      hide MatchCapability;
    }
  }

  lemma VerdictIs(required: Mask, version: Version, c: CapabilityRecord, incarnation: Incarnation, at: int)
    ensures
      var m := MatchCapability(required, version, c, incarnation, at);
      && (m.verdict.Revoked? || m.verdict.IncarnationMismatch? <==> c.revoked || c.incarnation != incarnation)
      && (m.verdict.Unsupported? || m.verdict.VersionIncompatible? <==>
            !c.revoked && c.incarnation == incarnation && FreshAt(c.freshness, at) &&
            !(VersionWithin(version, c) && forall x :: x in required ==> x !in c.unsupported))
      && (m.reason == Reason.Ok <==> m.verdict.Eligible?)
  {
  }

  lemma RoomyIs(s: State, c: Context, d: Device)
    ensures CapacityStage(s, c, d) == Reason.Ok <==> Roomy(s, c, d)
  {
    assert HoldersOn(s, d.id) == set id | id in s.assignments && s.assignments[id].device == d.id && Holder(s.assignments[id].state);
  }

  lemma {:induction false} ServedIs(s: State, c: Context, d: Device, dependencies: seq<Id>)
    ensures DependencyStage(s, c, d, dependencies) == Reason.Ok <==> forall x :: x in dependencies ==> Served(s, c, d, x)
    decreases |dependencies|
  {
    if dependencies != [] {
      ServedIs(s, c, d, dependencies[1..]);
      assert dependencies == [dependencies[0]] + dependencies[1..];
      assert Served(s, c, d, dependencies[0]) <==>
             (DependencySatisfied(s, c.request.scope.id, d.id, dependencies[0]) && dependencies[0] != c.request.fn &&
              dependencies[0] in s.ev.functions);
    }
  }

  lemma GrantedIs(s: State, cls: Class, kind: DeviceKind, host: Id, scope: Id, need: Mask, generation: nat, at: int)
    ensures AdmittingGrants(s, cls, kind, host, scope, need, generation, at) != {} <==> Granted(s, cls, kind, host, scope, need, generation, at)
  {
    hide AuthorityAdmits, Permits, EvidenceCurrent, Heard;
    forall g | g in s.grants
      ensures g in AdmittingGrants(s, cls, kind, host, scope, need, generation, at) <==>
              Heard(s.ev, s.grants[g].provenance, AuthorityEvidence) && Unspent(s.grants[g]) &&
              Permits(s.grants[g], Place, cls, kind, host, scope, need, generation, at)
    {
      GrantIs(s.grants[g], Place, cls, kind, host, scope, need, generation, at);
      HeardIs(s.ev, s.grants[g].provenance, AuthorityEvidence);
    }
  }

  lemma WantedIs(c: Context, d: Device)
    ensures AffinityStage(c, d) == Reason.Ok <==> Wanted(c, d)
  {
  }

  /** A device is eligible exactly when it is suitable, and then binds this capability generation. */
  lemma SuitableIs(s: State, c: Context, d: Device)
    ensures EvaluateDevice(s, c, d).Eligible() <==> Suitable(s, c, d)
    ensures Suitable(s, c, d) ==> EvaluateDevice(s, c, d).capabilityGeneration == Bound(s, c, d)
    ensures EvaluateDevice(s, c, d).mode == if Fallback(c, d) then HostFallback else Offloaded
  {
    hide CapabilityStage, Capable, Bound, CapacityStage, Roomy, Wanted, AffinityStage, Served, DependencyStage, Granted, AdmittingGrants,
         LivenessStage, Observed, ScopeConflict, FirstRefusal, Stages;
    EligibleStages(s, c, d);
    CapableIs(s, c, d);
    RoomyIs(s, c, d);
    WantedIs(c, d);
    ServedIs(s, c, d, c.request.dependencies);
    LivenessIs(s.ev, d.id, d.incarnation, c.now);
    GrantedIs(s, c.request.cls, d.kind, d.host, c.request.scope.id, c.fn.required + c.rule.required, c.policyGeneration, c.now);
  }
}
