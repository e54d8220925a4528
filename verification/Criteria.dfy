/** The conditions a decision rests on, written over the stored records themselves: fresh, heard,
    listed, permitted, matched, observed (src/fabric.cpp, src/authority.cpp, src/capability.cpp).
    The laws about whole operations are stated in these terms. */
module Criteria {
  import opened Units
  import opened Types
  import opened Ordered
  import opened Decisions

  // ---- The conditions ---------------------------------------------------------------------

  predicate Ended(s: Lifecycle) { s.Revoked? || s.Superseded? || s.Rejected? || s.Failed? }

  predicate Holder(s: Lifecycle) { s.Authorized? || s.Dispatched? || s.Acknowledged? || s.AppliedVerified? }

  predicate FreshAt(f: Freshness, at: int) { f.observedAt != 0 && 0 < f.validUntil && at < f.validUntil }

  /** Accepted from its source since this process started. */
  predicate Heard(ev: Evidence, p: Provenance, domain: Domain) {
    var key := SourceKey(p.source, domain);
    key in ev.sources && ev.sources[key].seen && ev.sources[key].restartFloor < p.sequence
  }

  /** The first entry of the list under its identifier. */
  predicate ListsDevice(devices: seq<Device>, d: Device) {
    exists i :: 0 <= i < |devices| && devices[i] == d && forall j :: 0 <= j < i ==> devices[j].id != d.id
  }

  /** The first rule of the list for its class. */
  predicate ListsRule(rules: seq<Rule>, rule: Rule) {
    exists i :: 0 <= i < |rules| && rules[i] == rule && forall j :: 0 <= j < i ==> rules[j].cls != rule.cls
  }

  predicate Unspent(g: Grant) { g.maxUses == 0 || g.used < g.maxUses }

  /** What a grant must say, its use budget aside. */
  predicate Permits(g: Grant, action: Action, cls: Class, kind: DeviceKind, host: Id, scope: Id, need: Mask,
                    policyGeneration: nat, at: int)
  {
    && !g.revoked && g.policyGeneration == policyGeneration && at < g.expiresAt && FreshAt(g.freshness, at)
    && action in g.actions && cls in g.classes && kind in g.kinds
    && (g.hostScope == 0 || g.hostScope == host) && (g.scope == 0 || g.scope == scope)
    && (g.ceiling == {} || need <= g.ceiling)
  }

  predicate NotBelow(v: Version, low: Version) { low.major < v.major || (low.major == v.major && low.minor <= v.minor) }

  predicate VersionWithin(v: Version, c: CapabilityRecord) { NotBelow(v, c.minVersion) && NotBelow(c.maxVersion, v) }

  /** The capability record speaks for this incarnation and supports everything required. */
  predicate Supports(c: CapabilityRecord, required: Mask, version: Version, incarnation: Incarnation, at: int) {
    && !c.revoked && c.incarnation == incarnation && FreshAt(c.freshness, at) && VersionWithin(version, c)
    && (forall s :: s in required ==> s in c.supported && s !in c.unsupported && s !in c.unknown)
  }

  /** A heard, fresh observation of exactly this incarnation reports this liveness. */
  predicate Observed(ev: Evidence, device: Id, incarnation: Incarnation, at: int, liveness: Liveness) {
    && device in ev.observations
    && var o := ev.observations[device];
       && o.device != 0 && o.incarnation == incarnation && Heard(ev, o.provenance, ObservationEvidence)
       && FreshAt(o.freshness, at) && o.liveness == liveness
  }

  // ---- The decision functions decide them -----------------------------------------------------

  lemma HeardIs(ev: Evidence, p: Provenance, domain: Domain)
    ensures EvidenceCurrent(ev, p, domain) <==> Heard(ev, p, domain)
  {
  }

  lemma {:induction false} DeviceIs(devices: seq<Device>, id: Id)
    ensures forall d :: ListsDevice(devices, d) && d.id == id <==> FindDevice(devices, id) == Some(d)
  {
    if devices != [] {
      DeviceIs(devices[1..], id);
      forall d ensures ListsDevice(devices, d) && d.id == id <==> FindDevice(devices, id) == Some(d) {
        if devices[0].id == id {
          assert ListsDevice(devices, devices[0]);
        } else if ListsDevice(devices, d) && d.id == id {
          var i :| 0 <= i < |devices| && devices[i] == d && forall j :: 0 <= j < i ==> devices[j].id != d.id;
          assert devices[1..][i - 1] == d && forall j :: 0 <= j < i - 1 ==> devices[1..][j].id != d.id;
        } else if ListsDevice(devices[1..], d) && d.id == id {
          var i :| 0 <= i < |devices[1..]| && devices[1..][i] == d && forall j :: 0 <= j < i ==> devices[1..][j].id != d.id;
          assert devices[i + 1] == d;
          forall j | 0 <= j < i + 1 ensures devices[j].id != d.id { if j > 0 { assert devices[j] == devices[1..][j - 1]; } }
        }
      }
    }
  }

  lemma {:induction false} RuleIs(rules: seq<Rule>, cls: Class)
    ensures forall rule :: ListsRule(rules, rule) && rule.cls == cls <==> FindRule(rules, cls) == Some(rule)
  {
    if rules != [] {
      RuleIs(rules[1..], cls);
      forall rule ensures ListsRule(rules, rule) && rule.cls == cls <==> FindRule(rules, cls) == Some(rule) {
        if rules[0].cls == cls {
          assert ListsRule(rules, rules[0]);
        } else if ListsRule(rules, rule) && rule.cls == cls {
          var i :| 0 <= i < |rules| && rules[i] == rule && forall j :: 0 <= j < i ==> rules[j].cls != rule.cls;
          assert rules[1..][i - 1] == rule && forall j :: 0 <= j < i - 1 ==> rules[1..][j].cls != rule.cls;
        } else if ListsRule(rules[1..], rule) && rule.cls == cls {
          var i :| 0 <= i < |rules[1..]| && rules[1..][i] == rule && forall j :: 0 <= j < i ==> rules[1..][j].cls != rule.cls;
          assert rules[i + 1] == rule;
          forall j | 0 <= j < i + 1 ensures rules[j].cls != rule.cls { if j > 0 { assert rules[j] == rules[1..][j - 1]; } }
        }
      }
    }
  }

  /** A grant is admitted exactly when it permits the action and has uses left. */
  lemma GrantIs(g: Grant, action: Action, cls: Class, kind: DeviceKind, host: Id, scope: Id, need: Mask, generation: nat, at: int)
    ensures AuthorityAdmits(g, action, cls, kind, host, scope, need, generation, at) == Reason.Ok <==>
            Permits(g, action, cls, kind, host, scope, need, generation, at) && Unspent(g)
    ensures AuthorityRecheck(g, action, cls, kind, host, scope, need, generation, at) == Reason.Ok <==>
            Permits(g, action, cls, kind, host, scope, need, generation, at)
  {
  }

  /** The reason of a refusal is true of the grant. */
  lemma GrantRefusalIsTrue(g: Grant, action: Action, cls: Class, kind: DeviceKind, host: Id, scope: Id, need: Mask, generation: nat, at: int)
    ensures
      var r := AuthorityAdmits(g, action, cls, kind, host, scope, need, generation, at);
      r == Reason.Ok || GrantFault(r, g, action, cls, kind, host, scope, need, generation, at)
    ensures
      var r := AuthorityRecheck(g, action, cls, kind, host, scope, need, generation, at);
      r == Reason.Ok || (!r.NotAuthorized? && GrantFault(r, g, action, cls, kind, host, scope, need, generation, at))
  {
  }

  predicate GrantFault(r: Reason, g: Grant, action: Action, cls: Class, kind: DeviceKind, host: Id, scope: Id, need: Mask,
                       generation: nat, at: int)
  {
    match r
    case AuthorityWithdrawn => g.revoked
    case PolicyStale => g.policyGeneration != generation
    case AuthorityExpired => at >= g.expiresAt
    case EvidenceStale => !FreshAt(g.freshness, at)
    case NotAuthorized => !Unspent(g)
    case AuthorityScopeMismatch =>
      || action !in g.actions || cls !in g.classes || kind !in g.kinds || (g.hostScope != 0 && g.hostScope != host)
      || (g.scope != 0 && g.scope != scope) || (g.ceiling != {} && !(need <= g.ceiling))
    case _ => false
  }

  lemma MatchIs(required: Mask, version: Version, c: CapabilityRecord, incarnation: Incarnation, at: int)
    ensures MatchCapability(required, version, c, incarnation, at).verdict.Eligible? <==> Supports(c, required, version, incarnation, at)
    ensures MatchCapability(required, version, c, incarnation, at).reason == Reason.Ok <==> Supports(c, required, version, incarnation, at)
  {
  }

  /** The reason of a mismatch is true of the capability record. */
  lemma MismatchIsTrue(required: Mask, version: Version, c: CapabilityRecord, incarnation: Incarnation, at: int)
    ensures
      var r := MatchCapability(required, version, c, incarnation, at).reason;
      r == Reason.Ok || CapabilityFault(r, required, version, c, incarnation, at)
  {
  }

  predicate CapabilityFault(r: Reason, required: Mask, version: Version, c: CapabilityRecord, incarnation: Incarnation, at: int) {
    match r
    case CapabilityUnsupported => c.revoked || exists s :: s in required && s in c.unsupported
    case IncarnationMismatch => c.incarnation != incarnation
    case CapabilityStale => !FreshAt(c.freshness, at)
    case CapabilityIncompatible => !VersionWithin(version, c)
    case CapabilityUnknown => exists s :: s in required && (s in c.unknown || s !in c.supported)
    case _ => false
  }

  lemma LivenessIs(ev: Evidence, device: Id, incarnation: Incarnation, at: int)
    ensures LivenessStage(ev, device, incarnation, at) == Reason.Ok <==> Observed(ev, device, incarnation, at, Alive)
    ensures LivenessStage(ev, device, incarnation, at) == LivenessDegraded <==> Observed(ev, device, incarnation, at, Liveness.Degraded)
    ensures LivenessStage(ev, device, incarnation, at) == LivenessDead <==> Observed(ev, device, incarnation, at, Dead)
  {
  }

  /** The reason of a liveness refusal is true of the stored observation. */
  lemma LivenessRefusalIsTrue(ev: Evidence, device: Id, incarnation: Incarnation, at: int)
    ensures
      var r := LivenessStage(ev, device, incarnation, at);
      r == Reason.Ok || r == LivenessDegraded || LivenessFault(r, ev, device, incarnation, at)
  {
  }

  predicate LivenessFault(r: Reason, ev: Evidence, device: Id, incarnation: Incarnation, at: int) {
    var known := device in ev.observations && ev.observations[device].device != 0;
    match r
    case LivenessUnknown => !known || ev.observations[device].liveness.Unknown?
    case IncarnationMismatch => known && ev.observations[device].incarnation != incarnation
    case EvidenceSuperseded => known && !Heard(ev, ev.observations[device].provenance, ObservationEvidence)
    case LivenessStale => known && !FreshAt(ev.observations[device].freshness, at)
    case LivenessDead => known && ev.observations[device].liveness.Dead?
    case _ => false
  }
}
