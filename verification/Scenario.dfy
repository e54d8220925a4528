/** A small deployment, brought up from an empty store, on which the promises that need a hypothesis
    are seen to fail without it. */
module Scenario {
  import opened Units
  import opened Types
  import opened Ordered
  import opened Decisions
  import opened Claims
  import opened Idempotency
  import opened Machine
  import opened Steps
  import opened Traces
  import opened Runs
  import opened Refinement
  import opened Revalidation
  import opened Agreement
  import opened Exclusion
  import opened Fences

  // ---- The deployment -------------------------------------------------------------------------

  const FRESH := Freshness(1, 1000)
  const SIZE := Demand(10, 10, 10, 10, 10)

  function NicDevice(id: Id): Device { Device(id, 1, Nic, Incarnation(1, 1), SIZE, {}, false) }

  const TOPOLOGY := Topology(1, Provenance(1, 1), FRESH, [NicDevice(1), NicDevice(2)])

  /** A rule that asks for nothing but a NIC; `watched` also asks for a fresh observation. */
  function LaxRule(cls: Class, watched: bool): Rule { Rule(cls, {}, {Nic}, PerClass, false, false, watched, false, 8, 100) }

  function PolicyOf(gen: nat): Policy {
    Policy(gen, Provenance(1, gen), FRESH, [LaxRule(1, false), LaxRule(2, false), LaxRule(3, false), LaxRule(4, true)])
  }

  /** A plan for a device of the deployment, bound to a policy generation. */
  function PlanOf(cls: Class, scope: Id, exclusivity: Exclusivity, key: KeyMode, device: Id, demand: Demand, gen: nat): Plan {
    Plan(0, 1, cls, Scope(scope, 1), scope, exclusivity, key, Offloaded, device, 1, Nic, Incarnation(1, 1), demand,
         Binding(1, 0, gen, 1, 0), 0, {})
  }

  const PLAIN := Options(0, true, 3)

  function Supply(plan: Plan): Event { Operate(ApplyPlanned(PlanMade(plan, false), OfPlan(plan), PLAIN), 1, []) }

  function Tell(r: Record): Event { Operate(SubmitEvidence(r), 1, []) }

  const BOOT := Boot(1, true, 1, [])

  /** Start, topology, first policy. */
  const SETUP := [BOOT, Tell(TopologyIngested(TOPOLOGY)), Tell(PolicyIngested(PolicyOf(1)))]

  // ---- Bringing it up ----------------------------------------------------------------------------

  lemma EmptyRecovers(b: Bounds)
    ensures Recovered(b, EMPTY_STATE, []) == EMPTY_STATE
  {
    NothingLive(EMPTY_STATE);
  }

  lemma Booted(b: Bounds)
    ensures Next(b, EMPTY_WORLD, BOOT) ==
      World(EMPTY_STATE.(epoch := Epoch(1, 1, 1)), [EpochStarted(1, 1)], [], [], false, false, true, true)
  {
    hide Recovered;
    EmptyRecovers(b);
    NothingLive(Begun(b, EMPTY_WORLD, EMPTY_STATE, [], 1).st);
  }

  /** Evidence told to a fabric without live assignments is learned, and nothing else happens. */
  lemma Told(b: Bounds, w: World, r: Record)
    requires w.running && w.accepted && w.st.assignments == map[] && EvidenceCheck(b, w.st, r) == Success(false)
    ensures Next(b, w, Tell(r)) == w.(faults := [], log := w.log + [r], st := Learn(w.st, r))
  {
    hide EvidenceCheck, LearnEvidence, ApplyGrants;
    var v := w.(faults := []);
    NothingLive(Logged(v, r).(st := Learn(w.st, r)).st);
  }

  /** Topology and policy are known, whether or not they were accepted in this lifetime. */
  predicate Stocked(st: State, gen: nat) {
    && st.ev.topology == Some(TOPOLOGY) && st.ev.policy == Some(PolicyOf(gen))
    && st.ev.functions == map[] && st.ev.capabilities == map[]
  }

  /** The state the deployment keeps while supplied plans, policies and observations arrive. */
  predicate Evident(st: State, gen: nat) {
    && Stocked(st, gen) && st.reassignments == map[] && st.grants == map[]
    && EvidenceCurrent(st.ev, Provenance(1, 1), TopologyEvidence)
    && SourceKey(1, PolicyEvidence) in st.ev.sources
    && (var s := st.ev.sources[SourceKey(1, PolicyEvidence)]; s.seen && s.lastSequence == gen && s.restartFloor == 0)
    && SourceKey(1, AuthorityEvidence) !in st.ev.sources
  }

  predicate Small(st: State) {
    && st.counters.ordinal < 100 && st.counters.lease < 100 && st.counters.attempt < 100 && st.counters.fence < 100
    && |st.assignments| < 50
  }

  predicate Ready(w: World, gen: nat) {
    w.running && w.accepted && w.faults == [] && Evident(w.st, gen) && Small(w.st) && Exclusively(w.st)
  }

  lemma SetUp(b: Bounds)
    ensures
      var w := RunAll(b, EMPTY_WORLD, SETUP);
      && Ready(w, 1) && w.st.assignments == map[] && w.st.index == EMPTY_INDEX && w.st.counters == Counters(0, 0, 0, 0)
      && w.st.epoch.counter == 1 && SourceKey(1, ObservationEvidence) !in w.st.ev.sources
      && w.log == [EpochStarted(1, 1), TopologyIngested(TOPOLOGY), PolicyIngested(PolicyOf(1))] && w.st.epoch.highest == 1
  {
    hide Start, Submit;
    var w1 := Next(b, EMPTY_WORLD, BOOT);
    Booted(b);
    Told(b, w1, TopologyIngested(TOPOLOGY));
    var w2 := Next(b, w1, SETUP[1]);
    Told(b, w2, PolicyIngested(PolicyOf(1)));
    RunsThree(b, EMPTY_WORLD, SETUP[0], SETUP[1], SETUP[2]);
  }

  lemma RunsThree(b: Bounds, w: World, e1: Event, e2: Event, e3: Event)
    ensures RunAll(b, w, [e1, e2, e3]) == Next(b, Next(b, Next(b, w, e1), e2), e3)
  {
    hide Next;
    assert [e1, e2, e3][..2] == [e1, e2] && [e1, e2][..1] == [e1] && [e1][..0] == [];
    assert RunAll(b, w, [e1]) == Next(b, w, e1) && RunAll(b, w, [e1, e2]) == Next(b, RunAll(b, w, [e1]), e2);
  }

  lemma RunsThen(b: Bounds, w: World, es: seq<Event>, e: Event)
    ensures RunAll(b, w, es + [e]) == Next(b, RunAll(b, w, es), e)
  {
    hide Next;
    assert (es + [e])[..|es|] == es;
  }

  // ---- Supplied plans ----------------------------------------------------------------------------

  lemma {:induction false} FewHolders(m: map<Id, Assignment>, some: set<Id>)
    requires some <= m.Keys
    ensures |some| <= |m|
  {
    assert m.Keys == some + (m.Keys - some) && |m| == |m.Keys|;
  }

  lemma DeploymentLookups(cls: Class, device: Id, gen: nat)
    requires 1 <= cls <= 4 && 1 <= device <= 2
    ensures FindRule(PolicyOf(gen).rules, cls) == Some(LaxRule(cls, cls == 4))
    ensures FindDevice(TOPOLOGY.devices, device) == Some(NicDevice(device))
  {
    var rules := PolicyOf(gen).rules;
    assert rules[1..][0] == LaxRule(2, false) && rules[1..][1..][0] == LaxRule(3, false) && rules[1..][1..][1..][0] == LaxRule(4, true);
    assert TOPOLOGY.devices[1..][0] == NicDevice(2);
  }

  /** A plan passes when its device has room, the rule's watch is satisfied and, if exclusive, the
      rule's own lookup excuses the holder it displaces. */
  lemma PlanPasses(st: State, gen: nat, plan: Plan, holder: Id)
    requires Stocked(st, gen) && Small(st) && 1 <= plan.cls <= 4 && 1 <= plan.device <= 2 && (holder != 0 ==> st.reassignments == map[])
    requires plan == PlanOf(plan.cls, plan.scope.id, plan.exclusivity, plan.exclusiveKey, plan.device, plan.demand, gen).(authority := plan.authority)
    requires CapacityAdmits(SIZE, CommittedFor(st.index.committed, plan.device), plan.demand)
    requires plan.cls == 4 ==> LivenessStage(st.ev, plan.device, Incarnation(1, 1), 1) == Reason.Ok
    requires holder == if plan.exclusivity.Exclusive? then ScopeConflict(st.index, plan.scope.id, plan.cls, plan.exclusiveKey, 0) else 0
    requires plan.exclusivity.Exclusive? ==> ScopeConflict(st.index, plan.scope.id, plan.cls, PerClass, holder) == 0
    ensures AuthorizeCheck(st, plan, OfPlan(plan), PLAIN, 1) == Success(holder)
  {
    DeploymentLookups(plan.cls, plan.device, gen);
    hide FindRule, FindDevice, ScopeConflict, LivenessStage, EvaluateDevice, CommittedFor, CapacityAdmits;
    assert holder != 0 ==> ReassignmentCount(st, plan.scope.id, plan.cls, 1) == 0;
    PlanIsEligible(st, gen, plan, holder);
  }

  lemma PlanIsEligible(st: State, gen: nat, plan: Plan, holder: Id)
    requires Stocked(st, gen) && Small(st) && 1 <= plan.cls <= 4 && 1 <= plan.device <= 2
    requires plan == PlanOf(plan.cls, plan.scope.id, plan.exclusivity, plan.exclusiveKey, plan.device, plan.demand, gen).(authority := plan.authority)
    requires CapacityAdmits(SIZE, CommittedFor(st.index.committed, plan.device), plan.demand)
    requires plan.cls == 4 ==> LivenessStage(st.ev, plan.device, Incarnation(1, 1), 1) == Reason.Ok
    requires plan.exclusivity.Exclusive? ==> ScopeConflict(st.index, plan.scope.id, plan.cls, PerClass, holder) == 0
    ensures EvaluateDevice(st, AuthorizeContext(st, plan, LaxRule(plan.cls, plan.cls == 4), holder, 1), NicDevice(plan.device)).Eligible()
  {
    hide ScopeConflict, LivenessStage, EvaluateDevice, CommittedFor, CapacityAdmits;
    var d, c := NicDevice(plan.device), AuthorizeContext(st, plan, LaxRule(plan.cls, plan.cls == 4), holder, 1);
    FewHolders(st.assignments, HoldersOn(st, d.id));
    EligibleStages(st, c, d);
  }

  function NextCounters(c: Counters): Counters
    requires c.ordinal < 100 && c.lease < 100 && c.attempt < 100 && c.fence < 100
  {
    Counters(c.ordinal + 1, c.lease + 1, c.attempt + 1, c.fence + 1)
  }

  /** The record a supplied plan becomes. */
  function RecordOf(b: Bounds, st: State, plan: Plan): Assignment
    requires Small(st)
  {
    NewRecord(b, st.(counters := NextCounters(st.counters)), plan, PLAIN, 1)
  }

  /** The plan can be supplied without displacing anybody. */
  predicate Suppliable(st: State, gen: nat, plan: Plan) {
    && 1 <= plan.cls <= 4 && 1 <= plan.device <= 2
    && plan == PlanOf(plan.cls, plan.scope.id, plan.exclusivity, plan.exclusiveKey, plan.device, plan.demand, gen).(authority := plan.authority)
    && CapacityAdmits(SIZE, CommittedFor(st.index.committed, plan.device), plan.demand)
    && (plan.cls == 4 ==> LivenessStage(st.ev, plan.device, Incarnation(1, 1), 1) == Reason.Ok)
    && (plan.exclusivity.Exclusive? ==>
          ScopeConflict(st.index, plan.scope.id, plan.cls, plan.exclusiveKey, 0) == 0 && plan.exclusiveKey.PerClass?)
  }

  /** Nothing displaced, nothing refused: one record is stored. */
  lemma SuppliedExactly(b: Bounds, w: World, plan: Plan)
    requires w.running && w.accepted && w.faults == [] && Small(w.st) && AuthorizeCheck(w.st, plan, OfPlan(plan), PLAIN, 1) == Success(0)
    ensures
      var w1, a := Raise(w, NextCounters(w.st.counters)), RecordOf(b, w.st, plan);
      ApplyPlan(b, w, PlanMade(plan, false), OfPlan(plan), PLAIN, 1) ==
      Outcome(Put(b, w1, a, 0, NoFingerprint, 1).(freshId := false, freshFence := false), Success(a))
  {
    hide AuthorizeCheck, NewRecord, Put;
  }

  lemma SuppliedStores(b: Bounds, w: World, gen: nat, plan: Plan)
    requires w.running && w.accepted && w.faults == [] && Stocked(w.st, gen) && Small(w.st) && Suppliable(w.st, gen, plan)
    ensures
      var v, a := Next(b, w, Supply(plan)), RecordOf(b, w.st, plan);
      && v.st == Insert(w.st.(counters := NextCounters(w.st.counters)), a) && v.log == w.log + [AssignmentStored(a, 0, NoFingerprint)]
      && v.running && v.accepted && v.faults == []
  {
    hide AuthorizeCheck, Insert, ScopeConflict, RecordOf, ApplyPlan, Put, LivenessStage, CapacityAdmits;
    var a, w1 := RecordOf(b, w.st, plan), Raise(w, NextCounters(w.st.counters));
    assert w.(faults := []) == w;
    PlanPasses(w.st, gen, plan, 0);
    SuppliedExactly(b, w, plan);
    PutQuietly(b, w1, a, NoFingerprint, 1);
  }

  lemma Supplied(b: Bounds, w: World, gen: nat, plan: Plan)
    requires Ready(w, gen) && Suppliable(w.st, gen, plan) && |w.st.assignments| < 49 && w.st.counters.ordinal < 99
    requires w.st.counters.lease < 99 && w.st.counters.attempt < 99 && w.st.counters.fence < 99
    ensures
      var v, a := Next(b, w, Supply(plan)), RecordOf(b, w.st, plan);
      && v.st == Insert(w.st.(counters := NextCounters(w.st.counters)), a) && v.log == w.log + [AssignmentStored(a, 0, NoFingerprint)]
      && Ready(v, gen)
  {
    hide Next, Insert, ScopeConflict, Exclusively, RecordOf, EvidenceCurrent, LivenessStage, CapacityAdmits;
    var a := RecordOf(b, w.st, plan);
    SuppliedStores(b, w, gen, plan);
    RecordFacts(b, w.st, plan);
    ReadyInserted(w.st, w.st.(counters := NextCounters(w.st.counters)), gen, a);
  }

  lemma ReadyInserted(s: State, t: State, gen: nat, a: Assignment)
    requires Evident(s, gen) && Small(s) && Exclusively(s) && t == s.(counters := t.counters) && |s.assignments| < 49 && a.id != 0
    requires t.counters.ordinal < 100 && t.counters.lease < 100 && t.counters.attempt < 100 && t.counters.fence < 100
    requires ClaimsExclusively(a) ==> ScopeConflict(s.index, a.scope.id, a.cls, a.exclusiveKey, 0) == 0
    ensures Evident(Insert(t, a), gen) && Small(Insert(t, a)) && Exclusively(Insert(t, a))
  {
    hide Insert, ScopeConflict, EvidenceCurrent, Exclusively;
    ExclusivelyIgnoresCounters(s, t);
    SuppliedKeepsExclusive(t, a);
    InsertFrame(t, a);
    InsertKeepsRest(t, a);
    InsertKeepsNotes(t, a);
  }

  /** Rewriting a record so that it holds no authority. */
  lemma ReadyRewritten(w: World, v: World, gen: nat, a: Assignment)
    requires Ready(w, gen) && v.running && v.accepted && v.faults == [] && v.st == Insert(w.st, a)
    requires |w.st.assignments| < 49 && a.id != 0 && !HoldsAuthority(a.state)
    ensures Ready(v, gen) && v.st.assignments == w.st.assignments[a.id := a] && v.st.epoch == w.st.epoch
    ensures v.st.ev == w.st.ev && v.st.counters == w.st.counters
  {
    hide Insert, Evident, Exclusively, GrantsAgree, ScopeConflict;
    ReadyInserted(w.st, w.st, gen, a);
    InsertFrame(w.st, a);
    InsertKeepsRest(w.st, a);
  }

  lemma RecordFacts(b: Bounds, st: State, plan: Plan)
    requires Small(st)
    ensures
      var a := RecordOf(b, st, plan);
      && a.id == st.counters.ordinal + 1 && a.state.Dispatched? && a.cls == plan.cls && a.scope == plan.scope
      && a.exclusivity == plan.exclusivity && a.exclusiveKey == plan.exclusiveKey && a.demand == plan.demand && a.device == plan.device
      && a.effects == [] && a.attempt == st.counters.attempt + 1 && a.fence == Fence(st.epoch.counter, st.counters.fence + 1)
      && a.kind == plan.kind && a.host == plan.host && a.fn == plan.fn && a.authority == plan.authority && a.incarnation == plan.incarnation
      && a.binding.topology == plan.binding.topology && a.binding.capability == plan.binding.capability && a.binding.policy == plan.binding.policy
      && a.generation == 1
  {
  }

  lemma ExclusivelyIgnoresCounters(s: State, t: State)
    requires Exclusively(s) && t.assignments == s.assignments && t.index == s.index
    ensures Exclusively(t)
  {
  }

  lemma SuppliedKeepsExclusive(st: State, a: Assignment)
    requires Exclusively(st) && a.id != 0
    requires ClaimsExclusively(a) ==> ScopeConflict(st.index, a.scope.id, a.cls, a.exclusiveKey, 0) == 0
    ensures Exclusively(Insert(st, a))
  {
    hide Insert, ScopeConflict;
    if ClaimsExclusively(a) { ConflictWeakens(st.index, a.scope.id, a.cls, a.exclusiveKey, a.id); }
    InsertUnconflicted(st, a);
  }

  lemma InsertKeepsNotes(st: State, a: Assignment)
    ensures Insert(st, a).reassignments == st.reassignments && (st.grants == map[] ==> Insert(st, a).grants == map[]) && |Insert(st, a).assignments| <= |st.assignments| + 1
  {
    hide Reindex;
    assert st.assignments[a.id := a].Keys == st.assignments.Keys + {a.id};
    assert |st.assignments[a.id := a].Keys| == |st.assignments[a.id := a]|;
    assert |st.assignments.Keys| == |st.assignments|;
  }

  // ---- Revalidation --------------------------------------------------------------------------------

  /** A record placed by a supplied plan under some policy generation. */
  predicate Plain(a: Assignment, gen: nat) {
    && 1 <= a.cls <= 4 && 1 <= a.device <= 2 && a.incarnation == Incarnation(1, 1) && a.kind.Nic?
    && a.binding.topology == 1 && a.binding.capability == 0 && a.binding.policy == gen && gen != 0
  }

  lemma MovedKeepsShape(b: Bounds, a: Assignment, to: Lifecycle, reason: Reason)
    ensures
      var moved := Moved(b, a, to, reason, 1);
      && moved.state == to && moved == a.(state := to, stateReason := reason, updatedAt := 1, history := moved.history, effects := moved.effects)
      && (forall gen :: Plain(a, gen) ==> Plain(moved, gen))
      && (|a.effects| <= b.maxEffects ==> moved.effects == a.effects)
      && |moved.history| == if |a.history| < b.maxHistory then |a.history| + 1 else b.maxHistory
  {
  }

  lemma PlainTarget(ev: Evidence, a: Assignment, gen: nat, exact: bool)
    requires ev.topology == Some(TOPOLOGY) && ev.policy.Some? && ev.policy == Some(PolicyOf(ev.policy.value.generation)) && Plain(a, gen)
    requires EvidenceCurrent(ev, Provenance(1, 1), TopologyEvidence)
    requires EvidenceCurrent(ev, Provenance(1, ev.policy.value.generation), PolicyEvidence)
    ensures TargetValidity(ev, a, 1, exact) == if a.cls == 4 then LivenessStage(ev, a.device, a.incarnation, 1) else Reason.Ok
  {
    hide EvidenceCurrent, FindRule, FindDevice, LivenessStage;
    DeploymentLookups(a.cls, a.device, ev.policy.value.generation);
  }

  lemma PlainValidity(st: State, gen: nat, a: Assignment, bound: nat)
    requires Evident(st, gen) && Plain(a, bound) && a.cls != 4 && a.authority == 0 && gen != 0 && a.fence.epoch == st.epoch.counter
    ensures Validity(st, a, 1) == if bound == gen then Reason.Ok else PolicyStale
  {
    hide TargetValidity;
    PlainTarget(st.ev, a, bound, true);
  }

  lemma OneRevised(b: Bounds, w: World, id: Id, to: Lifecycle, cancelFrom: nat)
    requires w.faults == [] && LiveSet(w.st) == {id} && cancelFrom > 0 && Demotion(w.st, w.st.assignments[id], 1) == Some(to)
    ensures
      var a := w.st.assignments[id];
      RevalidateAll(b, w, 1, cancelFrom).w == Put(b, w, Moved(b, a, to, Validity(w.st, a, 1), 1), 0, NoFingerprint, 1)
    ensures |LiveIds(w.st)| == 1
  {
    SortedIsUnique([id], {id});
    LiveIsStored(w.st, id);
    RevisedFirst(b, w, [id], to, cancelFrom, Tally(0, 0, 0));
  }

  /** One turn of the revalidation loop that moves its record. */
  lemma RevisedFirst(b: Bounds, w: World, ids: seq<Id>, to: Lifecycle, cancelFrom: nat, tally: Tally)
    requires w.faults == [] && ids != [] && cancelFrom > 0 && ids[0] in w.st.assignments && !IsTerminal(w.st.assignments[ids[0]].state)
    requires Demotion(w.st, w.st.assignments[ids[0]], 1) == Some(to)
    ensures
      var a, seen := w.st.assignments[ids[0]], tally.(checked := tally.checked + 1);
      RevalidateFrom(b, w, ids, 1, cancelFrom, tally) ==
      RevalidateFrom(b, Put(b, w, Moved(b, a, to, Validity(w.st, a, 1), 1), 0, NoFingerprint, 1), ids[1..], 1, cancelFrom - 1,
                     if to.Degraded? then seen.(degraded := seen.degraded + 1) else seen.(suspended := seen.suspended + 1))
  {
    hide Put, Moved, Demotion, Validity;
  }

  /** Evidence told to a fabric with one live assignment that it invalidates. */
  lemma ToldOne(b: Bounds, w: World, r: Record, id: Id, to: Lifecycle)
    requires w.running && w.accepted && Revalidates(r) && EvidenceCheck(b, w.st, r) == Success(false)
    requires LiveSet(w.st) == {id} && Demotion(Learn(w.st, r), w.st.assignments[id], 1) == Some(to)
    ensures
      var a, v, learned := w.st.assignments[id], Next(b, w, Tell(r)), Learn(w.st, r);
      && v.st == Insert(learned, Moved(b, a, to, Validity(learned, a, 1), 1)) && v.running && v.accepted && v.faults == []
  {
    hide EvidenceCheck, LearnEvidence, ApplyGrants, Demotion, Validity, Moved, Insert, Put, LiveIds, RevalidateFrom;
    var l := w.(faults := [], log := w.log + [r], st := Learn(w.st, r));
    assert Next(b, w, Tell(r)) == RevalidateAll(b, l, 1, |LiveIds(l.st)| + 1).w;
    OneRevised(b, l, id, to, |LiveIds(l.st)| + 1);
    PutQuietly(b, l, Moved(b, w.st.assignments[id], to, Validity(l.st, w.st.assignments[id], 1), 1), NoFingerprint, 1);
  }

  /** Evidence told to a fabric with one live assignment that it leaves as it is. */
  lemma ToldUnmoved(b: Bounds, w: World, r: Record, id: Id)
    requires w.running && w.accepted && Revalidates(r) && EvidenceCheck(b, w.st, r) == Success(false)
    requires LiveSet(w.st) == {id} && Demotion(Learn(w.st, r), w.st.assignments[id], 1).None?
    ensures
      var v := Next(b, w, Tell(r));
      v.st == Learn(w.st, r) && v.running && v.accepted && v.faults == []
  {
    hide EvidenceCheck, LearnEvidence, ApplyGrants, Demotion;
    var l := w.(faults := [], log := w.log + [r], st := Learn(w.st, r));
    SortedIsUnique([id], {id});
    LiveIsStored(w.st, id);
    assert LiveIds(l.st) == [id];
    LeftAlone(b, l, id, 2, Tally(0, 0, 0));
  }

  lemma LeftAlone(b: Bounds, w: World, id: Id, cancelFrom: nat, tally: Tally)
    requires id in w.st.assignments && Demotion(w.st, w.st.assignments[id], 1).None? && cancelFrom > 0
    ensures RevalidateFrom(b, w, [id], 1, cancelFrom, tally).w == w
  {
    hide Demotion;
    assert [id][1..] == [];
  }

  const SECOND_POLICY := Tell(PolicyIngested(PolicyOf(2)))

  lemma PolicyLearned(b: Bounds, st: State)
    requires Evident(st, 1)
    ensures EvidenceCheck(b, st, PolicyIngested(PolicyOf(2))) == Success(false) && Evident(Learn(st, PolicyIngested(PolicyOf(2))), 2)
  {
  }

  /** A new policy generation suspends the one record bound to the old one. */
  lemma PolicySuspends(b: Bounds, w: World, id: Id)
    requires Ready(w, 1) && LiveSet(w.st) == {id} && Plain(w.st.assignments[id], 1) && w.st.assignments[id].cls != 4 && w.st.assignments[id].authority == 0 && |w.st.assignments| < 49
    requires w.st.assignments[id].fence.epoch == w.st.epoch.counter
    ensures
      var a, v, learned := w.st.assignments[id], Next(b, w, SECOND_POLICY), Learn(w.st, PolicyIngested(PolicyOf(2)));
      && v.st == Insert(learned, Moved(b, a, Lifecycle.Suspended, PolicyStale, 1)) && Ready(v, 2) && Evident(learned, 2)
  {
    hide EvidenceCheck, Insert, Exclusively, EvidenceCurrent, Validity, ScopeConflict, Next, Moved, LiveSet, Plain;
    LiveIsStored(w.st, id);
    var r := PolicyIngested(PolicyOf(2));
    var a, learned := w.st.assignments[id], Learn(w.st, r);
    PolicyLearned(b, w.st);
    PlainValidity(learned, 2, a, 1);
    ToldOne(b, w, r, id, Lifecycle.Suspended);
    MovedKeepsShape(b, a, Lifecycle.Suspended, PolicyStale);
    ExclusivelyIgnoresCounters(w.st, learned);
    ExclusiveIsKeyed(w.st);
    hide Learn;
    ReadyInserted(learned, learned, 2, Moved(b, a, Lifecycle.Suspended, PolicyStale, 1));
  }

  lemma LiveIsStored(st: State, id: Id)
    requires id in LiveSet(st)
    ensures id in st.assignments && IsLive(st.assignments[id].state)
  {
  }

  lemma ExclusiveIsKeyed(st: State)
    requires Exclusively(st)
    ensures Keyed(st.assignments) && Sound(st)
  {
  }
}
