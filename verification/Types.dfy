/** The records the fabric decides on and stores (the headers under include/nof and
    src/detail/fabric_state.hpp).

    Identifiers are opaque ordered tokens, modelled as naturals whose order is the token
    order; 0 is the empty token. A generation of 0 is unset. Semantics masks are sets of
    semantic numbers. Digests are modelled as the content they were taken over, which is
    SHA-256 under the assumption that it does not collide. */
module Types {
  import opened Units

  type Id = nat
  type Class = nat
  type Mask = set<nat>

  datatype Result<+T> = Success(value: T) | Failure(reason: Reason)

  datatype Reason =
    | Ok | HostFallbackApplied | AppliedVerified
    | InvalidIdentifier | SemanticsMismatch | MalformedInput | ArithmeticOverflow | NotFound | AlreadyExists
    | SequenceRegression | UnknownIdentity
    | EvidenceMissing | EvidenceStale | EvidenceSuperseded | EvidenceConflicting | GenerationMismatch
    | IncarnationMismatch | TopologyStale | PolicyStale | CapabilityStale | CapabilityUnknown
    | ProvenanceMismatch | LivenessUnknown | LivenessStale | LivenessDegraded | LivenessDead
    | CapabilityUnsupported | CapabilityIncompatible | RefusedByPolicy | AuthorityMissing | AuthorityExpired
    | AuthorityScopeMismatch | AuthorityWithdrawn | NotAuthorized | AntiAffinityViolation
    | AffinityUnsatisfied | CapacityExhausted | DependencyUnresolved | DependencyCycle
    | HostFallbackNotPermitted | DeviceKindNotPermitted
    | NoEligibleTarget | ExclusiveConflict | TargetDisappeared | ReassignmentBudgetExhausted | PlanSuperseded
    | IllegalStateTransition | LeaseExpired | FencedAttempt | EpochStale | EffectRejected | EffectFailed
    | EffectUnknown | Revoked | Superseded | AttemptMismatch
    | StoreUnavailable | RecoveryRequired | RestartAuthorityReset | DuplicateDelivery
    | Cancelled | ShuttingDown | LimitExceeded

  // ---- Evidence ----------------------------------------------------------------

  datatype Provenance = Provenance(source: Id, sequence: nat)

  datatype Freshness = Freshness(observedAt: int, validUntil: int) {
    predicate IsSet() { observedAt != 0 && validUntil > 0 }
    predicate IsExpired(now: int) { !IsSet() || now >= validUntil }
  }

  datatype Incarnation = Incarnation(generation: nat, boot: Id)

  datatype DeviceKind = HostStack | Nic | SmartNic | Dpu

  datatype Version = Version(major: nat, minor: nat) {
    predicate AtMost(other: Version) {
      major < other.major || (major == other.major && minor <= other.minor)
    }
  }

  datatype FunctionDescriptor = FunctionDescriptor(id: Id, cls: Class, required: Mask, version: Version)

  datatype Device = Device(id: Id, host: Id, kind: DeviceKind, incarnation: Incarnation, capacity: Demand,
                           labels: set<Id>, decommissioned: bool)

  datatype Topology = Topology(generation: nat, provenance: Provenance, freshness: Freshness,
                               devices: seq<Device>)

  datatype CapabilityRecord = CapabilityRecord(
    device: Id, incarnation: Incarnation, cls: Class, supported: Mask, unsupported: Mask, unknown: Mask,
    minVersion: Version, maxVersion: Version, schema: nat, generation: nat, provenance: Provenance,
    freshness: Freshness, revoked: bool)

  datatype CapabilityReport = CapabilityReport(provenance: Provenance, records: seq<CapabilityRecord>)

  datatype KeyMode = PerClass | PerScope

  datatype Rule = Rule(
    cls: Class, required: Mask, allowedKinds: set<DeviceKind>, exclusiveKey: KeyMode, allowHostFallback: bool,
    requireAuthority: bool, requireFreshObservation: bool, requireCapability: bool,
    maxReassignmentsPerScope: nat, maxAssignmentsPerDevice: nat)

  datatype Policy = Policy(generation: nat, provenance: Provenance, freshness: Freshness, rules: seq<Rule>)

  datatype Liveness = Unknown | Alive | Degraded | Dead

  datatype Observation = Observation(device: Id, incarnation: Incarnation, liveness: Liveness,
                                     freshness: Freshness, provenance: Provenance)

  datatype ObservationReport = ObservationReport(topologyGeneration: nat, provenance: Provenance,
                                                 devices: seq<Observation>)

  datatype Action = Place | Replace | Revoke | Reauthorize

  datatype Grant = Grant(
    id: Id, policyGeneration: nat, classes: set<Class>, kinds: set<DeviceKind>, actions: set<Action>,
    hostScope: Id, scope: Id, ceiling: Mask, expiresAt: int, provenance: Provenance, freshness: Freshness,
    revoked: bool, maxUses: nat, used: nat)

  datatype Domain = TopologyEvidence | CapabilityEvidence | PolicyEvidence | ObservationEvidence | AuthorityEvidence

  datatype EvidenceDigest =
    | NoDigest
    | OfTopology(topology: Topology)
    | OfCapabilities(report: CapabilityReport)
    | OfPolicy(policy: Policy)
    | OfObservations(observations: ObservationReport)
    | OfGrant(grant: Grant)

  datatype SourceKey = SourceKey(source: Id, domain: Domain)

  datatype SourceState = SourceState(lastSequence: nat, lastDigest: EvidenceDigest, restartFloor: nat, seen: bool) {
    /** Evidence at or below the restart floor predates the last start. */
    predicate IsCurrent(sequence: nat) { seen && sequence > restartFloor }
  }

  // ---- Assignments --------------------------------------------------------------

  datatype Lifecycle =
    | Planned | Authorized | Dispatched | Acknowledged | AppliedVerified | Degraded | Suspended
    | Revoked | Superseded | Rejected | Failed

  predicate HoldsAuthority(s: Lifecycle) {
    s.Authorized? || s.Dispatched? || s.Acknowledged? || s.AppliedVerified?
  }

  predicate IsLive(s: Lifecycle) {
    HoldsAuthority(s) || s.Degraded? || s.Suspended? || s.Planned?
  }

  predicate IsTerminal(s: Lifecycle) {
    s.Revoked? || s.Superseded? || s.Rejected? || s.Failed?
  }

  datatype Exclusivity = Shared | Exclusive
  datatype Mode = Offloaded | HostFallback

  /** Fencing token, ordered lexicographically by (epoch, sequence). */
  datatype Fence = Fence(epoch: nat, sequence: nat) {
    predicate IsSet() { epoch != 0 && sequence != 0 }
    predicate Below(other: Fence) {
      epoch < other.epoch || (epoch == other.epoch && sequence < other.sequence)
    }
  }

  datatype Binding = Binding(topology: nat, capability: nat, policy: nat, assignment: nat, schema: nat)

  datatype Transition = Transition(from: Lifecycle, to: Lifecycle, reason: Reason, at: int, fence: Fence)

  datatype EffectOutcome = Applied | Rejected | Failed | Unknown

  datatype Effect = Effect(attempt: nat, fence: Fence, generation: nat, incarnation: Incarnation,
                           capabilityGeneration: nat, outcome: EffectOutcome, reason: Reason, observedAt: int)

  /** A governed scope: its derived identity (0 for the network-wide scope, whose identity
      is the empty token) and the host it belongs to. */
  datatype Scope = Scope(id: Id, domain: Id)

  /** An assignment identifier spells out a 64-bit ordinal. */
  datatype Assignment = Assignment(
    id: U64, generation: nat, fn: Id, cls: Class, scope: Scope, exclusivity: Exclusivity,
    exclusiveKey: KeyMode, mode: Mode, state: Lifecycle, device: Id, host: Id, kind: DeviceKind,
    incarnation: Incarnation, demand: Demand, binding: Binding, authority: Id, lease: nat, fence: Fence,
    attempt: nat, fingerprint: Fingerprint, stateReason: Reason, createdAt: int, updatedAt: int,
    history: seq<Transition>, effects: seq<Effect>)

  // ---- Requests -----------------------------------------------------------------

  datatype PlacementRequest = PlacementRequest(
    requestId: Id, fn: Id, cls: Class, scope: Scope, required: Mask, version: Version,
    exclusivity: Exclusivity, demand: Demand, preferredDevices: seq<Id>, preferredHosts: seq<Id>,
    antiAffinityDevices: seq<Id>, antiAffinityHosts: seq<Id>, requiredLabels: seq<Id>, dependencies: seq<Id>,
    minTopology: nat, minCapability: nat, minPolicy: nat, allowHostFallback: bool, requestReplacement: bool)

  datatype Plan = Plan(
    requestId: Id, fn: Id, cls: Class, scope: Scope, scopeId: Id, exclusivity: Exclusivity,
    exclusiveKey: KeyMode, mode: Mode, device: Id, host: Id, kind: DeviceKind, incarnation: Incarnation,
    demand: Demand, binding: Binding, authority: Id, effectiveRequirement: Mask)

  datatype EffectReport = EffectReport(
    requestId: Id, assignment: Id, attempt: nat, generation: nat, fence: Fence, incarnation: Incarnation,
    capabilityGeneration: nat, outcome: EffectOutcome, detailReason: Reason, observedAt: int)

  /** Request fingerprints, as the content that was hashed. */
  datatype Fingerprint =
    | NoFingerprint
    | OfRequest(request: PlacementRequest)
    | OfPlan(plan: Plan)
    | OfRevoke(revoked: Id, why: Reason)
    | OfReauthorize(reauthorized: Id)
    | OfEffect(effect: EffectReport)

  datatype Response = Recorded(record: Assignment) | Refused(code: Reason)

  datatype IdempotencyEntry = IdempotencyEntry(fingerprint: Fingerprint, response: Response, at: int)

  // ---- Journal records and state --------------------------------------------------

  datatype Record =
    | EpochStarted(epoch: U64, boot: Id)
    | FunctionRegistered(fn: FunctionDescriptor)
    | TopologyIngested(topology: Topology)
    | CapabilityIngested(capabilities: CapabilityReport)
    | PolicyIngested(policy: Policy)
    | ObservationsIngested(observations: ObservationReport)
    | AuthorityGranted(grant: Grant)
    | AuthorityWithdrawn(authority: Id, reason: Reason, withdrawnAt: int)
    | AssignmentStored(record: Assignment, requestId: Id, fingerprint: Fingerprint)
    | EffectRecorded(report: EffectReport, result: Assignment, effectFingerprint: Fingerprint)
    | ReassignmentRecorded(scope: Id, cls: Class, stamp: int)
    | RequestRecorded(refusedId: Id, refusedFingerprint: Fingerprint, code: Reason, refusedAt: int)
    | StoreSealed(sealed: nat)

  datatype ClassKey = ClassKey(scope: Id, cls: Class)
  datatype CapabilityKey = CapabilityKey(device: Id, cls: Class)

  /** The claims derived from the assignments: per-class and whole-scope exclusivity, and
      the committed demand per device. */
  datatype Index = Index(byClass: map<ClassKey, Id>, byScope: map<Id, Id>, committed: map<Id, Demand>)

  const EMPTY_INDEX := Index(map[], map[], map[])

  /** What adjacent runtimes told the fabric, and how far each source has been heard. */
  datatype Evidence = Evidence(
    functions: map<Id, FunctionDescriptor>,
    observations: map<Id, Observation>,
    capabilities: map<CapabilityKey, CapabilityRecord>,
    topology: Option<Topology>, topologyDigest: EvidenceDigest,
    policy: Option<Policy>, policyDigest: EvidenceDigest,
    sources: map<SourceKey, SourceState>)

  const NO_EVIDENCE := Evidence(map[], map[], map[], None, NoDigest, None, NoDigest, map[])

  /** Coordinator epoch: the current counter and boot, and the highest counter seen. */
  datatype Epoch = Epoch(counter: nat, boot: Id, highest: U64)

  datatype Counters = Counters(ordinal: U64, lease: U64, attempt: U64, fence: U64)

  /** The idempotency table and the arrival order of its keys. */
  datatype Table = Table(entries: map<Id, IdempotencyEntry>, order: seq<Id>)

  datatype State = State(
    epoch: Epoch, counters: Counters, ev: Evidence, grants: map<Id, Grant>, assignments: map<Id, Assignment>,
    index: Index, table: Table, reassignments: map<ClassKey, seq<int>>)

  const EMPTY_STATE := State(
    Epoch(0, 0, 0), Counters(0, 0, 0, 0), NO_EVIDENCE, map[], map[], EMPTY_INDEX, Table(map[], []), map[])

  /** The configured bounds the modelled code reads (include/nof/bounds.hpp), within what
      `validate_bounds` accepts. */
  datatype BoundsRaw = Bounds(maxHistory: nat, maxEffects: nat, maxIdempotency: nat, maxReassignments: nat,
                              maxSemantics: nat, maxCandidates: nat, maxFunctions: nat, maxGrants: nat)

  type Bounds = b: BoundsRaw |
    b.maxHistory > 0 && b.maxEffects > 0 && b.maxIdempotency > 0 && b.maxReassignments > 0 &&
    b.maxSemantics > 0 && b.maxCandidates > 0
    witness Bounds(32, 64, 8192, 16, 32, 8192, 65536, 65536)
}
