/** The authority state machine: every operation of the fabric as a function on the world
    (src/fabric.cpp). Each operation runs under one mutex, so it is one atomic step; the
    points at which it can be cut short are its journal commits. */
module Machine {
  import opened Units
  import opened Types
  import opened Ordered
  import opened Decisions
  import opened Ranking
  import opened Claims
  import opened Idempotency

  /** The fabric's memory, the durable journal, and the environment.
      `faults` decides which commits the store refuses (an exhausted list refuses none).
      `issued`, `freshId` and `freshFence` are history variables: every fencing token ever
      issued, in order, and whether the current identifier and fence are still unused. */
  datatype World = World(st: State, log: seq<Record>, faults: seq<bool>, issued: seq<Fence>,
                         freshId: bool, freshFence: bool, running: bool, accepted: bool)

  // ---- Journal and counters --------------------------------------------------------------

  predicate CommitFails(w: World) { w.faults != [] && w.faults[0] }

  /** A refused commit: only the environment moves. */
  function Fault(w: World): World { w.(faults := if w.faults == [] then [] else w.faults[1..]) }

  /** A durable commit of one record. */
  function Logged(w: World, r: Record): World { Fault(w).(log := w.log + [r]) }

  /** Raises the counters; a raised fence counter is an issued token. */
  function Raise(w: World, c: Counters): World {
    w.(st := w.st.(counters := c),
       issued := if c.fence > w.st.counters.fence then w.issued + [Fence(w.st.epoch.counter, c.fence)] else w.issued,
       freshId := w.freshId || c.ordinal > w.st.counters.ordinal,
       freshFence := w.freshFence || c.fence > w.st.counters.fence)
  }

  /** The longest prefix of (lease, attempt, fence) issuance that does not overflow, and
      whether it is all three. */
  function IssueTokens(c: Counters): (Counters, bool) {
    if c.lease == U64_MAX then (c, false)
    else if c.attempt == U64_MAX then (c.(lease := c.lease + 1), false)
    else if c.fence == U64_MAX then (c.(lease := c.lease + 1, attempt := c.attempt + 1), false)
    else (c.(lease := c.lease + 1, attempt := c.attempt + 1, fence := c.fence + 1), true)
  }

  // ---- Records and their effect on the state -----------------------------------------------

  function Last<T>(s: seq<T>, n: nat): (r: seq<T>)
    ensures |r| <= n && (|s| <= n ==> r == s)
  {
    if |s| > n then s[|s| - n..] else s
  }

  /** `trim_history`. */
  function Trim(b: Bounds, a: Assignment): Assignment {
    a.(history := Last(a.history, b.maxHistory), effects := Last(a.effects, b.maxEffects))
  }

  /** A lifecycle transition: state, reason, time stamp and one more history entry, trimmed. */
  function Moved(b: Bounds, a: Assignment, to: Lifecycle, reason: Reason, at: int): Assignment {
    Trim(b, a.(state := to, stateReason := reason, updatedAt := at,
               history := a.history + [Transition(a.state, to, reason, at, a.fence)]))
  }

  /** `mark_source`. */
  function Mark(sources: map<SourceKey, SourceState>, p: Provenance, domain: Domain, digest: EvidenceDigest): map<SourceKey, SourceState> {
    var key := SourceKey(p.source, domain);
    sources[key := SourceState(p.sequence, digest, if key in sources then sources[key].restartFloor else 0, true)]
  }

  function WithCapabilities(m: map<CapabilityKey, CapabilityRecord>, records: seq<CapabilityRecord>): map<CapabilityKey, CapabilityRecord>
    decreases |records|
  {
    if records == [] then m
    else WithCapabilities(m[CapabilityKey(records[0].device, records[0].cls) := records[0]], records[1..])
  }

  function WithObservations(m: map<Id, Observation>, devices: seq<Observation>): map<Id, Observation>
    decreases |devices|
  {
    if devices == [] then m else WithObservations(m[devices[0].device := devices[0]], devices[1..])
  }

  /** Replay of an evidence record. */
  function ApplyEvidence(ev: Evidence, r: Record): Evidence {
    match r
    case FunctionRegistered(f) => ev.(functions := ev.functions[f.id := f])
    case TopologyIngested(t) =>
      ev.(topology := Some(t), sources := Mark(ev.sources, t.provenance, TopologyEvidence, OfTopology(t)))
    case CapabilityIngested(c) =>
      ev.(capabilities := WithCapabilities(ev.capabilities, c.records),
          sources := Mark(ev.sources, c.provenance, CapabilityEvidence, OfCapabilities(c)))
    case PolicyIngested(p) =>
      ev.(policy := Some(p), sources := Mark(ev.sources, p.provenance, PolicyEvidence, OfPolicy(p)))
    case ObservationsIngested(o) =>
      ev.(observations := WithObservations(ev.observations, o.devices),
          sources := Mark(ev.sources, o.provenance, ObservationEvidence, OfObservations(o)))
    case AuthorityGranted(g) =>
      ev.(sources := Mark(ev.sources, g.provenance, AuthorityEvidence, OfGrant(g)))
    case _ => ev
  }

  function ApplyGrants(grants: map<Id, Grant>, r: Record): map<Id, Grant> {
    match r
    case AuthorityGranted(g) => grants[g.id := g]
    case AuthorityWithdrawn(id, _, _) => if id in grants then grants[id := grants[id].(revoked := true)] else grants
    case _ => grants
  }

  predicate IsEvidence(r: Record) {
    r.FunctionRegistered? || r.TopologyIngested? || r.CapabilityIngested? || r.PolicyIngested? ||
    r.ObservationsIngested? || r.AuthorityGranted? || r.AuthorityWithdrawn?
  }

  /** The live effect of evidence: as in replay, and the digest of the current topology or
      policy is kept as well. */
  function LearnEvidence(ev: Evidence, r: Record): Evidence {
    var e := ApplyEvidence(ev, r);
    match r
    case TopologyIngested(t) => e.(topologyDigest := OfTopology(t))
    case PolicyIngested(p) => e.(policyDigest := OfPolicy(p))
    case _ => e
  }

  function Learn(st: State, r: Record): State {
    st.(ev := LearnEvidence(st.ev, r), grants := ApplyGrants(st.grants, r))
  }

  function Answer(b: Bounds, st: State, id: Id, fp: Fingerprint, response: Response, at: int): State {
    st.(table := Remember(b.maxIdempotency, st.table, id, IdempotencyEntry(fp, response, at)))
  }

  function Stamps(st: State, key: ClassKey): seq<int> {
    if key in st.reassignments then st.reassignments[key] else []
  }

  /** `apply_record`: the effect of one journal record on the state. */
  function ApplyRecord(b: Bounds, st: State, r: Record): State {
    match r
    case EpochStarted(epoch, boot) =>
      st.(epoch := Epoch(epoch, boot, if epoch > st.epoch.highest then epoch else st.epoch.highest))
    case AssignmentStored(a, id, fp) => Answer(b, Insert(st, a), id, fp, Recorded(a), a.updatedAt)
    case EffectRecorded(report, a, fp) => Answer(b, Insert(st, a), report.requestId, fp, Recorded(a), report.observedAt)
    case ReassignmentRecorded(scope, cls, stamp) =>
      st.(reassignments := st.reassignments[ClassKey(scope, cls) := Stamps(st, ClassKey(scope, cls)) + [stamp]])
    case RequestRecorded(id, fp, code, at) => Answer(b, st, id, fp, Refused(code), at)
    case StoreSealed(_) => st
    case _ => st.(ev := ApplyEvidence(st.ev, r), grants := ApplyGrants(st.grants, r))
  }

  /** A stored assignment decodes only within the history and effect bounds. */
  predicate Decodable(b: Bounds, r: Record) {
    match r
    case AssignmentStored(a, _, _) => |a.history| <= b.maxHistory && |a.effects| <= b.maxEffects
    case EffectRecorded(_, a, _) => |a.history| <= b.maxHistory && |a.effects| <= b.maxEffects
    case _ => true
  }

  /** Replay of a whole journal. */
  function Replay(b: Bounds, st: State, log: seq<Record>): State {
    if log == [] then st else ApplyRecord(b, Replay(b, st, log[..|log| - 1]), log[|log| - 1])
  }

  // ---- Storing an assignment -----------------------------------------------------------------

  /** `store_assignment` after its commit succeeded. */
  function Put(b: Bounds, w: World, a: Assignment, id: Id, fp: Fingerprint, at: int): World {
    var l := Logged(w, AssignmentStored(a, id, fp));
    l.(st := Answer(b, Insert(w.st, a), id, fp, Recorded(a), at))
  }

  /** `store_assignment`: the journal first, then memory. */
  function Store(b: Bounds, w: World, a: Assignment, id: Id, fp: Fingerprint, at: int): (World, bool) {
    if CommitFails(w) then (Fault(w), false) else (Put(b, w, a, id, fp, at), true)
  }

  /** `store_effect` after its commit succeeded. */
  function PutEffect(b: Bounds, w: World, report: EffectReport, a: Assignment, at: int): World {
    var l := Logged(w, EffectRecorded(report, a, OfEffect(report)));
    l.(st := Answer(b, Insert(w.st, a), report.requestId, OfEffect(report), Recorded(a), at))
  }

  /** `note_reassignment` changes memory before it commits. */
  function NoteInMemory(b: Bounds, w: World, scope: Id, cls: Class, at: int): World {
    var key := ClassKey(scope, cls);
    w.(st := w.st.(reassignments := w.st.reassignments[key := Last(Stamps(w.st, key) + [at], b.maxReassignments * 8)]))
  }

  function ReassignmentCount(st: State, scope: Id, cls: Class, at: int): nat {
    CountUpTo(Stamps(st, ClassKey(scope, cls)), at)
  }

  function CountUpTo(stamps: seq<int>, at: int): nat {
    if stamps == [] then 0 else (if at >= stamps[0] then 1 else 0) + CountUpTo(stamps[1..], at)
  }

  datatype Outcome = Outcome(w: World, result: Result<Assignment>)

  /** `record_refusal`: the refusal is committed before it is remembered. */
  function Refuse(b: Bounds, w: World, id: Id, fp: Fingerprint, code: Reason, at: int): Outcome {
    if id == 0 then Outcome(w, Failure(code))
    else if CommitFails(w) then Outcome(Fault(w), Failure(StoreUnavailable))
    else Outcome(PutRefusal(b, w, id, fp, code, at), Failure(code))
  }

  function PutRefusal(b: Bounds, w: World, id: Id, fp: Fingerprint, code: Reason, at: int): World {
    var l := Logged(w, RequestRecorded(id, fp, code, at));
    l.(st := Answer(b, w.st, id, fp, Refused(code), at))
  }

  // ---- Redelivery ------------------------------------------------------------------------

  /** `replay_cached_assignment` decodes with the default bounds. */
  function Cached(e: IdempotencyEntry): Result<Assignment> {
    match e.response
    case Refused(code) => Failure(code)
    case Recorded(a) => if |a.history| <= 32 && |a.effects| <= 64 then Success(a) else Failure(LimitExceeded)
  }

  /** The common prologue: a known request identifier is answered from the table. */
  predicate Known(st: State, id: Id) { id != 0 && id in st.table.entries }

  function Redeliver(st: State, id: Id, fp: Fingerprint): Result<Assignment>
    requires Known(st, id)
  {
    var e := st.table.entries[id];
    if e.fingerprint == fp then Cached(e) else Failure(DuplicateDelivery)
  }

  // ---- Planning --------------------------------------------------------------------------

  datatype Planned = PlanMade(plan: Plan, replace: bool) | PlanRefused(why: Reason)

  /** The descriptor a request is evaluated with: the registered one united with the request. */
  function Descriptor(st: State, req: PlacementRequest): Result<FunctionDescriptor> {
    if req.fn in st.ev.functions then
      var f := st.ev.functions[req.fn];
      if f.cls != req.cls then Failure(SemanticsMismatch)
      else if (req.version.major != 0 || req.version.minor != 0) && req.version != f.version then Failure(SemanticsMismatch)
      else Success(FunctionDescriptor(req.fn, req.cls, f.required + req.required, f.version))
    else Success(FunctionDescriptor(req.fn, req.cls, req.required, req.version))
  }

  /** The evidence gate of `plan_locked`: Ok when topology and policy are present, accepted
      in this lifetime, unexpired and recent enough for the request. */
  function EvidenceGate(st: State, req: PlacementRequest, at: int): Reason {
    if st.ev.topology.None? then EvidenceMissing
    else if st.ev.policy.None? then PolicyStale
    else
      var t, p := st.ev.topology.value, st.ev.policy.value;
      if !EvidenceCurrent(st.ev, t.provenance, TopologyEvidence) then EvidenceSuperseded
      else if t.freshness.IsExpired(at) then TopologyStale
      else if !EvidenceCurrent(st.ev, p.provenance, PolicyEvidence) then EvidenceSuperseded
      else if p.freshness.IsExpired(at) then PolicyStale
      else if req.minTopology != 0 && t.generation < req.minTopology then GenerationMismatch
      else if req.minPolicy != 0 && p.generation < req.minPolicy then PolicyStale
      else Reason.Ok
  }

  /** The current exclusive holder the request would displace, or 0. */
  function Displaced(st: State, req: PlacementRequest): Id {
    if req.requestReplacement || req.exclusivity.Exclusive? then
      var k := ClassKey(req.scope.id, req.cls);
      if k in st.index.byClass then st.index.byClass[k]
      else if req.scope.id in st.index.byScope then st.index.byScope[req.scope.id]
      else 0
    else 0
  }

  function RankOf(st: State, req: PlacementRequest, e: Evaluation, d: Device): Candidate {
    Finalize(e.mode, e.kind, e.host, d.id, req.scope.domain, req.preferredHosts,
             CommittedFor(st.index.committed, d.id), d.capacity)
  }

  /** The ranked candidates whose eligibility is `wanted`, in topology order. */
  function Candidates(st: State, c: Context, devices: seq<Device>, wanted: bool): seq<Candidate> {
    if devices == [] then []
    else
      var e := EvaluateDevice(st, c, devices[0]);
      (if e.Eligible() == wanted then [RankOf(st, c.request, e, devices[0])] else []) +
      Candidates(st, c, devices[1..], wanted)
  }

  function RefusalReason(st: State, c: Context, devices: seq<Device>): Reason {
    match Best(Candidates(st, c, devices, false))
    case None => NoEligibleTarget
    case Some(best) =>
      match FindDevice(devices, best.device)
      case Some(d) => EvaluateDevice(st, c, d).reason
      case None => NoEligibleTarget
  }

  function PlanContext(st: State, req: PlacementRequest, f: FunctionDescriptor, rule: Rule, at: int): Context
    requires st.ev.policy.Some?
  {
    Context(f, rule, req, Displaced(st, req), st.ev.policy.value.generation, at)
  }

  /** The plan for a chosen device. */
  function PlanOn(st: State, c: Context, d: Device): Planned
    requires st.ev.topology.Some? && st.ev.policy.Some?
  {
    var e := EvaluateDevice(st, c, d);
    var req := c.request;
    var effective := c.fn.required + c.rule.required;
    var key := CapabilityKey(d.id, req.cls);
    var schema := if key in st.ev.capabilities then st.ev.capabilities[key].schema else 0;
    var authority := if c.rule.requireAuthority
                     then FindAuthority(st, req.cls, d.kind, d.host, req.scope.id, effective, c.policyGeneration, c.now)
                     else 0;
    if c.rule.requireAuthority && authority == 0 then PlanRefused(AuthorityMissing)
    else
      PlanMade(
        Plan(req.requestId, req.fn, req.cls, req.scope, req.scope.id, req.exclusivity, c.rule.exclusiveKey, e.mode,
             d.id, d.host, d.kind, d.incarnation, req.demand,
             Binding(st.ev.topology.value.generation, e.capabilityGeneration, c.policyGeneration, 1, schema),
             authority, effective),
        c.replacing != 0)
  }

  /** `plan_locked`. */
  function PlanFor(b: Bounds, st: State, req: PlacementRequest, cancelled: bool, at: int): Result<Planned> {
    if cancelled then Failure(Cancelled)
    else if req.fn == 0 then Failure(InvalidIdentifier)
    else if EvidenceGate(st, req, at) != Reason.Ok then Success(PlanRefused(EvidenceGate(st, req, at)))
    else
      match Descriptor(st, req)
      case Failure(reason) => Success(PlanRefused(reason))
      case Success(f) =>
        if |f.required| > b.maxSemantics then Failure(LimitExceeded)
        else
          match FindRule(st.ev.policy.value.rules, req.cls)
          case None => Success(PlanRefused(RefusedByPolicy))
          case Some(rule) =>
            if !req.requestReplacement && Displaced(st, req) != 0 then Success(PlanRefused(ExclusiveConflict))
            else Success(ChooseDevice(b, st, PlanContext(st, req, f, rule, at)))
  }

  function ChooseDevice(b: Bounds, st: State, c: Context): Planned
    requires st.ev.topology.Some? && st.ev.policy.Some?
  {
    var all := st.ev.topology.value.devices;
    var devices := if |all| < b.maxCandidates then all else all[..b.maxCandidates];
    match Best(Candidates(st, c, devices, true))
    case None => PlanRefused(RefusalReason(st, c, devices))
    case Some(best) =>
      match FindDevice(devices, best.device)
      case Some(d) => PlanOn(st, c, d)
      case None => PlanRefused(NoEligibleTarget)
  }

  // ---- Authorization -----------------------------------------------------------------------

  /** `cancelFrom` is the first cancellation checkpoint that observes the token set; the
      checkpoints are numbered in the order the code reaches them. */
  datatype Options = Options(requestId: Id, allowReplacement: bool, cancelFrom: nat)

  /** The request `authorize_locked` rebuilds from a plan; an accepted placement is
      fingerprinted by this request, not by the delivered one. */
  function Rebuilt(st: State, plan: Plan): PlacementRequest {
    var version := if plan.fn in st.ev.functions then st.ev.functions[plan.fn].version else Version(0, 0);
    PlacementRequest(plan.requestId, plan.fn, plan.cls, plan.scope, plan.effectiveRequirement, version,
                     plan.exclusivity, plan.demand, [], [], [], [], [], [], 0, 0, 0, plan.mode.HostFallback?, false)
  }

  /** The holder the placement supersedes: 0 for none, or a refusal. */
  function ReplacedHolder(st: State, plan: Plan, rule: Rule, opts: Options, at: int): Result<Id> {
    var holder := if plan.exclusivity.Exclusive?
                  then ScopeConflict(st.index, plan.scope.id, plan.cls, plan.exclusiveKey, 0) else 0;
    if holder == 0 then Success(0)
    else if !opts.allowReplacement then Failure(ExclusiveConflict)
    else if ReassignmentCount(st, plan.scope.id, plan.cls, at) >= rule.maxReassignmentsPerScope then
      Failure(ReassignmentBudgetExhausted)
    else Success(holder)
  }

  /** The generation and target checks of `authorize_locked`, up to the device it found. */
  function BoundTarget(st: State, plan: Plan, digest: Fingerprint): Result<Device> {
    if digest != OfPlan(plan) then Failure(PlanSuperseded)
    else if plan.scopeId != plan.scope.id then Failure(MalformedInput)
    else if st.ev.topology.None? || st.ev.policy.None? then Failure(EvidenceMissing)
    else if st.ev.topology.value.generation != plan.binding.topology then Failure(PlanSuperseded)
    else if st.ev.policy.value.generation != plan.binding.policy then Failure(PlanSuperseded)
    else
      match FindDevice(st.ev.topology.value.devices, plan.device)
      case None => Failure(TargetDisappeared)
      case Some(d) =>
        if d.decommissioned then Failure(TargetDisappeared)
        else if d.incarnation != plan.incarnation then Failure(Reason.IncarnationMismatch)
        else
          var key := CapabilityKey(plan.device, plan.cls);
          if plan.binding.capability != 0 && key !in st.ev.capabilities then Failure(CapabilityStale)
          else if plan.binding.capability != 0 && st.ev.capabilities[key].generation != plan.binding.capability then
            Failure(PlanSuperseded)
          else Success(d)
  }

  function AuthorizeContext(st: State, plan: Plan, rule: Rule, replacing: Id, at: int): Context
    requires st.ev.policy.Some?
  {
    var version := Rebuilt(st, plan).version;
    Context(FunctionDescriptor(plan.fn, plan.cls, plan.effectiveRequirement, version), rule, Rebuilt(st, plan),
            replacing, st.ev.policy.value.generation, at)
  }

  function PlanAuthority(st: State, plan: Plan, rule: Rule, at: int): Reason
    requires st.ev.policy.Some?
  {
    var effective := plan.effectiveRequirement + rule.required;
    var generation := st.ev.policy.value.generation;
    if !rule.requireAuthority then Reason.Ok
    else if plan.authority != 0 then
      if plan.authority !in st.grants then AuthorityMissing
      else AuthorityAdmits(st.grants[plan.authority], Place, plan.cls, plan.kind, plan.host, plan.scope.id, effective, generation, at)
    else if FindAuthority(st, plan.cls, plan.kind, plan.host, plan.scope.id, effective, generation, at) == 0 then AuthorityMissing
    else Reason.Ok
  }

  /** Everything `authorize_locked` checks before it commits; the value is the superseded
      holder, or 0. */
  function AuthorizeCheck(st: State, plan: Plan, digest: Fingerprint, opts: Options, at: int): Result<Id> {
    match BoundTarget(st, plan, digest)
    case Failure(r) => Failure(r)
    case Success(d) =>
      match FindRule(st.ev.policy.value.rules, plan.cls)
      case None => Failure(RefusedByPolicy)
      case Some(rule) =>
        match ReplacedHolder(st, plan, rule, opts, at)
        case Failure(r) => Failure(r)
        case Success(replacing) =>
          var e := EvaluateDevice(st, AuthorizeContext(st, plan, rule, replacing, at), d);
          if !e.Eligible() then Failure(e.reason)
          else if PlanAuthority(st, plan, rule, at) != Reason.Ok then Failure(PlanAuthority(st, plan, rule, at))
          else if opts.cancelFrom <= 2 then Failure(Cancelled)
          else Success(replacing)
  }

  /** The record a placement creates, from the counters just issued. */
  function NewRecord(b: Bounds, st: State, plan: Plan, opts: Options, at: int): Assignment {
    var fence := Fence(st.epoch.counter, st.counters.fence);
    var reason := if plan.mode.HostFallback? then HostFallbackApplied else Reason.Ok;
    var key := CapabilityKey(plan.device, plan.cls);
    var schema := if key in st.ev.capabilities then st.ev.capabilities[key].schema else plan.binding.schema;
    Trim(b, Assignment(
      st.counters.ordinal, 1, plan.fn, plan.cls, plan.scope, plan.exclusivity, plan.exclusiveKey, plan.mode,
      Lifecycle.Dispatched, plan.device, plan.host, plan.kind, plan.incarnation, plan.demand,
      plan.binding.(assignment := 1, schema := schema), plan.authority, st.counters.lease, fence,
      st.counters.attempt, if opts.requestId == 0 then OfPlan(plan) else OfRequest(Rebuilt(st, plan)), reason, at, at,
      [Transition(Lifecycle.Planned, Authorized, Reason.Ok, at, fence), Transition(Authorized, Dispatched, reason, at, fence)],
      []))
  }

  /** `authorize_locked`. */
  function Authorize(b: Bounds, w: World, plan: Plan, digest: Fingerprint, opts: Options, at: int): Outcome {
    AuthorizeWith(b, w, AuthorizeCheck(w.st, plan, digest, opts, at), plan, opts, at)
  }

  /** Issuance and commits, given what the checks decided. */
  function AuthorizeWith(b: Bounds, w: World, check: Result<Id>, plan: Plan, opts: Options, at: int): Outcome {
    if check.Failure? then Outcome(w, Failure(check.reason))
    else if w.st.counters.ordinal == U64_MAX then Outcome(w, Failure(ArithmeticOverflow))
    else
      var (c, all) := IssueTokens(w.st.counters.(ordinal := w.st.counters.ordinal + 1));
      if !all then Outcome(Raise(w, c), Failure(ArithmeticOverflow))
      else PlaceRecord(b, Raise(w, c), plan, check.value, opts, at)
  }

  /** The commits of a placement, once its tokens are issued. */
  function PlaceRecord(b: Bounds, w: World, plan: Plan, replacing: Id, opts: Options, at: int): Outcome {
    var a := NewRecord(b, w.st, plan, opts, at);
    if replacing != 0 && replacing in w.st.assignments then
      var (w', superseded) := Store(b, w, Moved(b, w.st.assignments[replacing], Lifecycle.Superseded, Reason.Superseded, at), 0, NoFingerprint, at);
      if !superseded then Outcome(w', Failure(StoreUnavailable)) else NoteAndCreate(b, w', w.st, plan, a, opts, at)
    else Create(b, w, w.st, plan, a, opts, at)
  }

  /** The reassignment is noted before the new record is stored. */
  function NoteAndCreate(b: Bounds, w: World, planned: State, plan: Plan, a: Assignment, opts: Options, at: int): Outcome {
    var noted := NoteInMemory(b, w, plan.scope.id, plan.cls, at);
    if CommitFails(noted) then Outcome(Fault(noted), Failure(StoreUnavailable))
    else Create(b, Logged(noted, ReassignmentRecorded(plan.scope.id, plan.cls, at)), planned, plan, a, opts, at)
  }

  /** The final commit of a placement. */
  function Create(b: Bounds, w: World, planned: State, plan: Plan, a: Assignment, opts: Options, at: int): Outcome {
    var (w', ok) := Store(b, w, a, opts.requestId,
                          if opts.requestId == 0 then NoFingerprint else OfRequest(Rebuilt(planned, plan)), at);
    if ok then Outcome(w'.(freshId := false, freshFence := false), Success(a)) else Outcome(w', Failure(StoreUnavailable))
  }

  // ---- The intent surface -------------------------------------------------------------------

  /** Guards shared by the mutating operations. */
  function Gate(w: World): Reason {
    if !w.running then ShuttingDown else if !w.accepted then RecoveryRequired else Reason.Ok
  }

  /** `apply_locked`. */
  function ApplyLocked(b: Bounds, w: World, req: PlacementRequest, opts: Options, at: int): Outcome {
    if opts.cancelFrom == 0 then Outcome(w, Failure(Cancelled))
    else if Known(w.st, req.requestId) then Outcome(w, Redeliver(w.st, req.requestId, OfRequest(req)))
    else
      match PlanFor(b, w.st, req, opts.cancelFrom <= 1, at)
      case Failure(r) => Outcome(w, Failure(r))
      case Success(PlanRefused(r)) => Refuse(b, w, req.requestId, OfRequest(req), r, at)
      case Success(PlanMade(plan, replace)) =>
        var effective := Options(if req.requestId != 0 then req.requestId else opts.requestId,
                                 opts.allowReplacement || req.requestReplacement || replace, opts.cancelFrom);
        var o := Authorize(b, w, plan, OfPlan(plan), effective, at);
        if o.result.Success? then o else Refuse(b, o.w, req.requestId, OfRequest(req), o.result.reason, at)
  }

  /** `apply`. */
  function Apply(b: Bounds, w: World, req: PlacementRequest, opts: Options, at: int): Outcome {
    if Gate(w) != Reason.Ok then Outcome(w, Failure(Gate(w))) else ApplyLocked(b, w, req, opts, at)
  }

  /** `apply_plan`; `digest` is the digest the caller's plan carries. */
  function ApplyPlan(b: Bounds, w: World, planned: Planned, digest: Fingerprint, opts: Options, at: int): Outcome {
    if Gate(w) != Reason.Ok then Outcome(w, Failure(Gate(w)))
    else
      match planned
      case PlanRefused(r) => Outcome(w, Failure(r))
      case PlanMade(plan, replace) =>
        if Known(w.st, opts.requestId) then Outcome(w, Redeliver(w.st, opts.requestId, digest))
        else
          var o := Authorize(b, w, plan, digest, opts.(allowReplacement := opts.allowReplacement || replace), at);
          if o.result.Success? then o else Refuse(b, o.w, opts.requestId, digest, o.result.reason, at)
  }

  /** The request `replace` derives from the record it replaces. */
  function ReplacementOf(a: Assignment, requestId: Id, placement: PlacementRequest): PlacementRequest {
    var p := placement.(requestReplacement := true,
                        requestId := if placement.requestId == 0 then requestId else placement.requestId);
    if p.fn == 0 then p.(fn := a.fn, cls := a.cls, scope := a.scope, exclusivity := a.exclusivity, demand := a.demand) else p
  }

  /** `replace`. */
  function ReplaceAssignment(b: Bounds, w: World, requestId: Id, current: Id, placement: PlacementRequest, cancelFrom: nat, at: int): Outcome {
    if Gate(w) != Reason.Ok then Outcome(w, Failure(Gate(w)))
    else if current !in w.st.assignments then Outcome(w, Failure(NotFound))
    else ApplyLocked(b, w, ReplacementOf(w.st.assignments[current], requestId, placement), Options(requestId, true, cancelFrom), at)
  }

  /** `revoke`. */
  function RevokeAssignment(b: Bounds, w: World, requestId: Id, id: Id, reason: Reason, authority: Id, cancelled: bool, at: int): Outcome {
    if Gate(w) != Reason.Ok then Outcome(w, Failure(Gate(w)))
    else if Known(w.st, requestId) then Outcome(w, Redeliver(w.st, requestId, OfRevoke(id, reason)))
    else if id !in w.st.assignments then Outcome(w, Failure(NotFound))
    else RevokeRecord(b, w, requestId, w.st.assignments[id], OfRevoke(id, reason), reason, authority, cancelled, at)
  }

  /** The part of `revoke` after the lookup. */
  function RevokeRecord(b: Bounds, w: World, requestId: Id, a: Assignment, fp: Fingerprint, reason: Reason, authority: Id,
                        cancelled: bool, at: int): Outcome {
    if a.state.Revoked? then Outcome(w, Success(a))
    else if cancelled then Outcome(w, Failure(Cancelled))
    else if RevokeAuthority(w.st, a, authority, at) != Reason.Ok then Outcome(w, Failure(RevokeAuthority(w.st, a, authority, at)))
    else
      var moved := Moved(b, a, Lifecycle.Revoked, reason, at);
      var (w', ok) := Store(b, w, moved, requestId, fp, at);
      Outcome(w', if ok then Success(moved) else Failure(StoreUnavailable))
  }

  function CurrentPolicyGeneration(st: State): nat {
    if st.ev.policy.Some? then st.ev.policy.value.generation else 0
  }

  function RevokeAuthority(st: State, a: Assignment, authority: Id, at: int): Reason {
    if !HoldsAuthority(a.state) || authority == 0 then Reason.Ok
    else if authority !in st.grants then AuthorityMissing
    else AuthorityAdmits(st.grants[authority], Action.Revoke, a.cls, a.kind, a.host, a.scope.id, {}, CurrentPolicyGeneration(st), at)
  }

  /** What `reauthorize` checks: neither exclusivity nor capacity is looked at again. */
  function ReauthorizeCheck(st: State, a: Assignment, authority: Id, at: int): Result<Lifecycle> {
    if !a.state.Suspended? && !a.state.Degraded? then Failure(IllegalStateTransition)
    else if authority == 0 || authority !in st.grants then Failure(AuthorityMissing)
    else
      var semantics := if a.fn in st.ev.functions then st.ev.functions[a.fn].required else {};
      var admitted := AuthorityAdmits(st.grants[authority], Action.Reauthorize, a.cls, a.kind, a.host, a.scope.id, semantics,
                                      CurrentPolicyGeneration(st), at);
      if admitted != Reason.Ok then Failure(admitted)
      else
        var validity := TargetValidity(st.ev, a, at, false);
        if validity == LivenessDegraded then Success(Lifecycle.Degraded)
        else if validity != Reason.Ok then Failure(validity)
        else Success(Dispatched)
  }

  /** The re-bound record, from the counters just issued. */
  function Rebound(b: Bounds, st: State, a: Assignment, to: Lifecycle, authority: Id, at: int): Assignment {
    var key := CapabilityKey(a.device, a.cls);
    var known := key in st.ev.capabilities;
    var binding := Binding(
      if st.ev.topology.Some? then st.ev.topology.value.generation else a.binding.topology,
      if known then st.ev.capabilities[key].generation else a.binding.capability,
      if st.ev.policy.Some? then st.ev.policy.value.generation else a.binding.policy,
      a.binding.assignment,
      if known then st.ev.capabilities[key].schema else a.binding.schema);
    var fence := Fence(st.epoch.counter, st.counters.fence);
    Moved(b, a.(lease := st.counters.lease, attempt := st.counters.attempt, fence := fence, authority := authority,
                binding := binding), to, Reason.Ok, at)
  }

  /** `reauthorize`. */
  function ReauthorizeAssignment(b: Bounds, w: World, requestId: Id, id: Id, authority: Id, at: int): Outcome {
    var fp := OfReauthorize(id);
    if Gate(w) != Reason.Ok then Outcome(w, Failure(Gate(w)))
    else if Known(w.st, requestId) then Outcome(w, Redeliver(w.st, requestId, fp))
    else if id !in w.st.assignments then Outcome(w, Failure(NotFound))
    else
      var a := w.st.assignments[id];
      if HoldsAuthority(a.state) then Outcome(w, Success(a))
      else
        match ReauthorizeCheck(w.st, a, authority, at)
        case Failure(r) => Outcome(w, Failure(r))
        case Success(to) =>
          var (c, all) := IssueTokens(w.st.counters);
          var w1 := Raise(w, c);
          if !all then Outcome(w1, Failure(ArithmeticOverflow))
          else
            var rebound := Rebound(b, w1.st, a, to, authority, at);
            var (w2, ok) := Store(b, w1, rebound, requestId, fp, at);
            if ok then Outcome(w2.(freshFence := false), Success(rebound)) else Outcome(w2, Failure(StoreUnavailable))
  }

  // ---- Effects -----------------------------------------------------------------------------

  predicate SameEffect(e: Effect, r: EffectReport) {
    e.attempt == r.attempt && e.fence == r.fence && e.outcome == r.outcome
  }

  /** The exact-match checks an effect report must pass. */
  function EffectMatches(st: State, a: Assignment, r: EffectReport): Reason {
    if !r.fence.IsSet() || r.fence != a.fence then FencedAttempt
    else if r.fence.epoch != st.epoch.counter then EpochStale
    else if r.attempt != a.attempt then AttemptMismatch
    else if r.generation != a.generation then GenerationMismatch
    else if r.incarnation != a.incarnation then Reason.IncarnationMismatch
    else if r.capabilityGeneration != a.binding.capability then GenerationMismatch
    else Reason.Ok
  }

  function EffectTarget(a: Assignment, outcome: EffectOutcome): Lifecycle {
    match outcome
    case Applied => Lifecycle.AppliedVerified
    case Rejected => Lifecycle.Rejected
    case Failed => Lifecycle.Failed
    case Unknown => a.state
  }

  function EffectReason(outcome: EffectOutcome): Reason {
    match outcome
    case Applied => Reason.AppliedVerified
    case Rejected => EffectRejected
    case Failed => EffectFailed
    case Unknown => EffectUnknown
  }

  /** The record after an accepted report: the effect list is trimmed with the effect in it,
      but the history is trimmed before its new entry is appended. */
  function WithEffect(b: Bounds, a: Assignment, r: EffectReport, at: int): Assignment {
    var effect := Effect(r.attempt, r.fence, r.generation, r.incarnation, r.capabilityGeneration, r.outcome,
                         r.detailReason, r.observedAt);
    var trimmed := Trim(b, a.(effects := a.effects + [effect]));
    var to, reason := EffectTarget(a, r.outcome), EffectReason(r.outcome);
    trimmed.(updatedAt := at, state := to, stateReason := reason,
             history := trimmed.history + [Transition(a.state, to, reason, at, a.fence)])
  }

  /** `report_effect`. */
  function ReportEffect(b: Bounds, w: World, r: EffectReport, at: int): Outcome {
    if Gate(w) != Reason.Ok then Outcome(w, Failure(Gate(w)))
    else if Known(w.st, r.requestId) then Outcome(w, Redeliver(w.st, r.requestId, OfEffect(r)))
    else if r.assignment !in w.st.assignments then Outcome(w, Failure(NotFound))
    else
      var a := w.st.assignments[r.assignment];
      if EffectMatches(w.st, a, r) != Reason.Ok then Outcome(w, Failure(EffectMatches(w.st, a, r)))
      else if exists i :: 0 <= i < |a.effects| && SameEffect(a.effects[i], r) then Outcome(w, Success(a))
      else if IsTerminal(a.state) then Outcome(w, Failure(IllegalStateTransition))
      else if r.outcome.Applied? && a.state.AppliedVerified? then Outcome(w, Success(a))
      else if r.outcome.Applied? && !a.state.Dispatched? && !a.state.Acknowledged? && !a.state.Degraded? then
        Outcome(w, Failure(IllegalStateTransition))
      else
        var a' := WithEffect(b, a, r, at);
        if CommitFails(w) then Outcome(Fault(w), Failure(StoreUnavailable))
        else Outcome(PutEffect(b, w, r, a', at), Success(a'))
  }

  // ---- Revalidation --------------------------------------------------------------------------

  datatype Tally = Tally(checked: nat, suspended: nat, degraded: nat) {
    function Unchanged(): nat {
      if checked > suspended + degraded then checked - suspended - degraded else 0
    }
  }

  datatype Revalidation = Revalidation(w: World, tally: Tally, failure: Option<Reason>)

  /** What revalidation does to one assignment: nothing, or a move to the given state. */
  function Demotion(st: State, a: Assignment, at: int): Option<Lifecycle> {
    var reason := Validity(st, a, at);
    if reason == Reason.Ok then None
    else if reason == LivenessDegraded then
      if a.state.Degraded? then None else Some(Lifecycle.Degraded)
    else Some(Lifecycle.Suspended)
  }

  /** The loop of `revalidate_locked` over the remaining identifiers. */
  function RevalidateFrom(b: Bounds, w: World, ids: seq<Id>, at: int, cancelFrom: nat, tally: Tally): Revalidation
    decreases |ids|
  {
    if ids == [] then Revalidation(w, tally, None)
    else if cancelFrom == 0 then Revalidation(w, tally, Some(Cancelled))
    else if ids[0] !in w.st.assignments || IsTerminal(w.st.assignments[ids[0]].state) then
      RevalidateFrom(b, w, ids[1..], at, cancelFrom - 1, tally)
    else
      var a := w.st.assignments[ids[0]];
      var seen := tally.(checked := tally.checked + 1);
      match Demotion(w.st, a, at)
      case None => RevalidateFrom(b, w, ids[1..], at, cancelFrom - 1, seen)
      case Some(to) =>
        var (w', ok) := Store(b, w, Moved(b, a, to, Validity(w.st, a, at), at), 0, NoFingerprint, at);
        if !ok then Revalidation(w', seen, Some(StoreUnavailable))
        else RevalidateFrom(b, w', ids[1..], at, cancelFrom - 1,
                            if to.Degraded? then seen.(degraded := seen.degraded + 1)
                            else seen.(suspended := seen.suspended + 1))
  }

  function LiveSet(st: State): set<Id> {
    set id | id in st.assignments && IsLive(st.assignments[id].state)
  }

  function LiveIds(st: State): seq<Id> { Sorted(LiveSet(st)) }

  /** `revalidate_locked`; an unset cancel token is a `cancelFrom` past the last identifier. */
  function RevalidateAll(b: Bounds, w: World, at: int, cancelFrom: nat): Revalidation {
    RevalidateFrom(b, w, LiveIds(w.st), at, cancelFrom, Tally(0, 0, 0))
  }

  function RevalidateNow(b: Bounds, w: World, at: int): (World, Result<()>) {
    var r := RevalidateAll(b, w, at, |LiveIds(w.st)| + 1);
    (r.w, if r.failure.None? then Success(()) else Failure(r.failure.value))
  }

  // ---- Evidence ingestion ---------------------------------------------------------------------

  /** `accept_evidence`: Ok to proceed, or Success(true) for an exact duplicate. */
  function AcceptEvidence(st: State, p: Provenance, domain: Domain, digest: EvidenceDigest): Result<bool> {
    var key := SourceKey(p.source, domain);
    if p.source == 0 || p.sequence == 0 then Failure(ProvenanceMismatch)
    else if key in st.ev.sources && st.ev.sources[key].seen then
      var known := st.ev.sources[key];
      if p.sequence < known.lastSequence then Failure(SequenceRegression)
      else if p.sequence == known.lastSequence then
        if known.lastDigest == digest then Success(true) else Failure(EvidenceConflicting)
      else Success(false)
    else Success(false)
  }

  /** Commit, learn, then revalidate every live assignment. */
  function Ingest(b: Bounds, w: World, r: Record, at: int): (World, Result<()>) {
    if CommitFails(w) then (Fault(w), Failure(StoreUnavailable))
    else
      var l := Logged(w, r);
      RevalidateNow(b, l.(st := Learn(w.st, r)), at)
  }

  predicate StrictlyOrdered(devices: seq<Device>) {
    forall i, j :: 0 <= i < j < |devices| ==> devices[i].id < devices[j].id
  }

  function TopologyCheck(st: State, t: Topology): Result<bool> {
    if !StrictlyOrdered(t.devices) || t.generation == 0 then Failure(MalformedInput)
    else
      match AcceptEvidence(st, t.provenance, TopologyEvidence, OfTopology(t))
      case Failure(r) => Failure(r)
      case Success(true) => Success(true)
      case Success(false) =>
        if st.ev.topology.Some? && t.generation < st.ev.topology.value.generation then Failure(EvidenceSuperseded)
        else if st.ev.topology.Some? && t.generation == st.ev.topology.value.generation &&
                st.ev.topologyDigest != OfTopology(t) then Failure(EvidenceConflicting)
        else Success(false)
  }

  function PolicyCheck(st: State, p: Policy): Result<bool> {
    if p.generation == 0 then Failure(MalformedInput)
    else
      match AcceptEvidence(st, p.provenance, PolicyEvidence, OfPolicy(p))
      case Failure(r) => Failure(r)
      case Success(true) => Success(true)
      case Success(false) =>
        if st.ev.policy.Some? && p.generation < st.ev.policy.value.generation then Failure(EvidenceSuperseded)
        else if st.ev.policy.Some? && p.generation == st.ev.policy.value.generation &&
                st.ev.policyDigest != OfPolicy(p) then Failure(EvidenceConflicting)
        else Success(false)
  }

  /** Same claim content, up to provenance, freshness and schema. */
  predicate SameClaim(a: CapabilityRecord, c: CapabilityRecord) {
    a.supported == c.supported && a.unsupported == c.unsupported && a.unknown == c.unknown &&
    a.minVersion == c.minVersion && a.maxVersion == c.maxVersion && a.revoked == c.revoked &&
    a.incarnation == c.incarnation
  }

  function CapabilityConflict(st: State, records: seq<CapabilityRecord>): Reason {
    if records == [] then Reason.Ok
    else
      var key := CapabilityKey(records[0].device, records[0].cls);
      if key !in st.ev.capabilities then CapabilityConflict(st, records[1..])
      else if records[0].generation < st.ev.capabilities[key].generation then EvidenceSuperseded
      else if records[0].generation == st.ev.capabilities[key].generation && !SameClaim(records[0], st.ev.capabilities[key]) then
        EvidenceConflicting
      else CapabilityConflict(st, records[1..])
  }

  function CapabilityCheck(st: State, c: CapabilityReport): Result<bool> {
    match AcceptEvidence(st, c.provenance, CapabilityEvidence, OfCapabilities(c))
    case Failure(r) => Failure(r)
    case Success(true) => Success(true)
    case Success(false) =>
      if CapabilityConflict(st, c.records) != Reason.Ok then Failure(CapabilityConflict(st, c.records)) else Success(false)
  }

  function ObservationTargets(t: Topology, devices: seq<Observation>): Reason {
    if devices == [] then Reason.Ok
    else
      match FindDevice(t.devices, devices[0].device)
      case None => UnknownIdentity
      case Some(d) =>
        if d.incarnation != devices[0].incarnation then Reason.IncarnationMismatch else ObservationTargets(t, devices[1..])
  }

  function ObservationCheck(st: State, o: ObservationReport): Result<bool> {
    if st.ev.topology.None? then Failure(EvidenceMissing)
    else if o.topologyGeneration != st.ev.topology.value.generation then Failure(TopologyStale)
    else if ObservationTargets(st.ev.topology.value, o.devices) != Reason.Ok then
      Failure(ObservationTargets(st.ev.topology.value, o.devices))
    else AcceptEvidence(st, o.provenance, ObservationEvidence, OfObservations(o))
  }

  function GrantCheck(b: Bounds, st: State, g: Grant): Result<bool> {
    if g.id == 0 then Failure(InvalidIdentifier)
    else if st.ev.policy.None? || g.policyGeneration != st.ev.policy.value.generation then Failure(PolicyStale)
    else
      match AcceptEvidence(st, g.provenance, AuthorityEvidence, OfGrant(g))
      case Failure(r) => Failure(r)
      case Success(true) => Success(true)
      case Success(false) =>
        if g.id in st.grants then if st.grants[g.id] == g then Success(true) else Failure(AlreadyExists)
        else if |st.grants| >= b.maxGrants then Failure(LimitExceeded)
        else Success(false)
  }

  /** The record an ingestion commits, once its checks pass. */
  function EvidenceCheck(b: Bounds, st: State, r: Record): Result<bool> {
    match r
    case FunctionRegistered(f) =>
      if f.id == 0 then Failure(InvalidIdentifier)
      else if |f.required| > b.maxSemantics then Failure(LimitExceeded)
      else if |st.ev.functions| >= b.maxFunctions && f.id !in st.ev.functions then Failure(LimitExceeded)
      else Success(f.id in st.ev.functions && st.ev.functions[f.id] == f)
    case TopologyIngested(t) => TopologyCheck(st, t)
    case CapabilityIngested(c) => CapabilityCheck(st, c)
    case PolicyIngested(p) => PolicyCheck(st, p)
    case ObservationsIngested(o) => ObservationCheck(st, o)
    case AuthorityGranted(g) => GrantCheck(b, st, g)
    case AuthorityWithdrawn(id, _, _) =>
      if id == 0 then Failure(InvalidIdentifier)
      else if id !in st.grants then Failure(NotFound)
      else Success(st.grants[id].revoked)
    case _ => Failure(MalformedInput)
  }

  /** Registration and grants do not trigger a revalidation; every other evidence does. */
  predicate Revalidates(r: Record) { !r.FunctionRegistered? && !r.AuthorityGranted? }

  /** `register_function`, `ingest_*`, `grant_authority` and `withdraw_authority`. A withdrawal
      is accepted even before the recovery is. */
  function Submit(b: Bounds, w: World, r: Record, at: int): (World, Result<()>) {
    if !w.running then (w, Failure(ShuttingDown))
    else if !r.AuthorityWithdrawn? && !w.accepted then (w, Failure(RecoveryRequired))
    else
      match EvidenceCheck(b, w.st, r)
      case Failure(reason) => (w, Failure(reason))
      case Success(true) => (w, Success(()))
      case Success(false) =>
        if Revalidates(r) then Ingest(b, w, r, at)
        else if CommitFails(w) then (Fault(w), Failure(StoreUnavailable))
        else
          var l := Logged(w, r);
          (l.(st := Learn(w.st, r)), Success(()))
  }

  // ---- Start ---------------------------------------------------------------------------------

  /** One record of `rebuild_indexes`. */
  function RebuildClaims(ix: Index, assignments: map<Id, Assignment>, ids: seq<Id>): Index
    requires forall id :: id in ids ==> id in assignments
    decreases |ids|
  {
    if ids == [] then ix else RebuildClaims(Acquire(ix, assignments[ids[0]]), assignments, ids[1..])
  }

  function AtLeast(c: U64, v: nat): U64 { if c < v <= U64_MAX then v else c }

  /** Counters are lifted from live records only. */
  function RebuildCounters(st: State, c: Counters, ids: seq<Id>): Counters
    requires forall id :: id in ids ==> id in st.assignments
    decreases |ids|
  {
    if ids == [] then c
    else
      var a := st.assignments[ids[0]];
      RebuildCounters(st, Counters(AtLeast(c.ordinal, a.id), AtLeast(c.lease, a.lease), AtLeast(c.attempt, a.attempt),
                                   if a.fence.epoch == st.epoch.counter then AtLeast(c.fence, a.fence.sequence) else c.fence),
                      ids[1..])
  }

  /** `rebuild_indexes`. */
  function Rebuild(st: State): State {
    var ids := LiveIds(st);
    st.(index := RebuildClaims(EMPTY_INDEX, st.assignments, ids), counters := RebuildCounters(st, st.counters, ids),
        grants := RefreshUsage(st.grants, st.assignments))
  }

  /** `apply_recovery_invariants`: everything heard so far falls below the restart floor. */
  function Floored(sources: map<SourceKey, SourceState>): map<SourceKey, SourceState> {
    map k | k in sources :: sources[k].(restartFloor := sources[k].lastSequence)
  }

  function Recover(st: State): State {
    st.(counters := st.counters.(fence := 0), ev := st.ev.(observations := map[], sources := Floored(st.ev.sources)))
  }

  /** The suspension loop of `start`. */
  function SuspendFrom(b: Bounds, w: World, ids: seq<Id>, at: int): (World, bool)
    decreases |ids|
  {
    if ids == [] then (w, true)
    else if ids[0] !in w.st.assignments || w.st.assignments[ids[0]].state.Suspended? then SuspendFrom(b, w, ids[1..], at)
    else
      var (w', ok) := Store(b, w, Moved(b, w.st.assignments[ids[0]], Lifecycle.Suspended, RestartAuthorityReset, at), 0, NoFingerprint, at);
      if !ok then (w', false) else SuspendFrom(b, w', ids[1..], at)
  }

  /** The state a new process recovers from a base state (empty, or a decoded snapshot) and
      the journal after it. */
  function Recovered(b: Bounds, base: State, tail: seq<Record>): State {
    Rebuild(Replay(b, base, tail))
  }

  /** Whether `start` gets as far as its new epoch: every record decodes, the epoch counter is
      not exhausted, and the epoch record is committed. */
  predicate Begins(b: Bounds, w: World, base: State, tail: seq<Record>) {
    && (forall i :: 0 <= i < |tail| ==> Decodable(b, tail[i]))
    && Recovered(b, base, tail).epoch.highest < U64_MAX && !CommitFails(w)
  }

  function Unstarted(b: Bounds, w: World, base: State, tail: seq<Record>): World {
    if exists i :: 0 <= i < |tail| && !Decodable(b, tail[i]) then w.(running := false)
    else if Recovered(b, base, tail).epoch.highest == U64_MAX then w.(st := Recovered(b, base, tail), running := false)
    else Fault(w).(st := Recovered(b, base, tail), running := false)
  }

  /** The world `start` builds before it suspends anything. */
  function Begun(b: Bounds, w: World, base: State, tail: seq<Record>, boot: Id): World
    requires Recovered(b, base, tail).epoch.highest < U64_MAX
  {
    var st := Recovered(b, base, tail);
    var next := st.epoch.highest + 1;
    var l := Logged(w, EpochStarted(next, boot));
    l.(st := Recover(st.(epoch := Epoch(next, boot, next))), freshId := false, freshFence := false)
  }

  /** Suspend everything that predates this process, and run if that succeeded. */
  function Launch(b: Bounds, begun: World, accept: bool, at: int): (World, bool) {
    var (w, ok) := SuspendFrom(b, begun, LiveIds(begun.st), at);
    (w.(running := ok, accepted := if ok then accept else w.accepted), ok)
  }

  /** `start` of a new process on a store: replay, rebuild, advance the epoch, fence and
      suspend everything that predates this process. */
  function Start(b: Bounds, w: World, base: State, tail: seq<Record>, boot: Id, accept: bool, at: int): (World, bool) {
    if Begins(b, w, base, tail) then Launch(b, Begun(b, w, base, tail, boot), accept, at)
    else (Unstarted(b, w, base, tail), false)
  }

  /** A crash: memory is lost and the journal survives up to some record. */
  function Crash(w: World, keep: nat): World {
    w.(st := EMPTY_STATE, log := if keep <= |w.log| then w.log[..keep] else w.log, running := false)
  }

  const EMPTY_WORLD := World(EMPTY_STATE, [], [], [], false, false, false, false)
}
