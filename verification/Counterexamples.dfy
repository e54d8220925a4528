/** Runs from an empty store in which a promise fails: what each exact condition shuts out. */
module Counterexamples {
  import opened Units
  import opened Types
  import opened Ordered
  import opened Decisions
  import opened Claims
  import opened Idempotency
  import opened Machine
  import opened Steps
  import opened Traces
  import opened Runs
  import opened Refinement
  import opened Revalidation
  import opened Agreement
  import opened Capacity
  import opened Restart
  import opened Holders
  import opened Exclusion
  import opened Dormancy
  import opened Identifiers
  import opened Audit
  import opened Effects
  import opened Criteria
  import opened Suitability
  import opened Choice
  import opened Withdrawal
  import opened Scenario

  function Claim(cls: Class, scope: Id, key: KeyMode, device: Id, gen: nat): Plan {
    PlanOf(cls, scope, Exclusive, key, device, ZERO_DEMAND, gen)
  }

  /** The claims after a new per-class holder. */
  lemma IndexAfter(st: State, a: Assignment)
    requires a.id !in st.assignments && ClaimsExclusively(a) && a.exclusiveKey.PerClass?
    ensures Insert(st, a).index.byClass == st.index.byClass[ClassKey(a.scope.id, a.cls) := a.id]
    ensures Insert(st, a).index.byScope == st.index.byScope
  {
    hide RefreshUsage;
  }

  lemma WeightlessInsert(st: State, a: Assignment, device: Id)
    requires a.demand == ZERO_DEMAND && CommittedFor(st.index.committed, device) == ZERO_DEMAND
    ensures CommittedFor(Insert(st, a).index.committed, device) == ZERO_DEMAND
  {
    hide Insert;
    var d := CommittedFor(Insert(st, a).index.committed, device);
    forall c: Component ensures d.Of(c) == 0 { InsertCommitted(st, a, device, c); }
    assert d.Of(Packets) == d.Of(Bytes) == d.Of(Flows) == d.Of(Queues) == d.Of(Memory) == 0;
  }

  lemma WeightlessFits()
    ensures CapacityAdmits(SIZE, ZERO_DEMAND, ZERO_DEMAND)
  {
    assert forall c: Component :: ZERO_DEMAND.Of(c) == 0 && SIZE.Of(c) == 10;
  }

  predicate Weightless(st: State) {
    CommittedFor(st.index.committed, 1) == ZERO_DEMAND && CommittedFor(st.index.committed, 2) == ZERO_DEMAND
  }

  // ---- Supplied plans --------------------------------------------------------------------------

  const FIRST := SETUP + [Supply(Claim(1, 7, PerClass, 1, 1))]
  const SECOND := FIRST + [Supply(Claim(2, 7, PerClass, 1, 1))]
  const THIRD := SECOND + [Supply(Claim(3, 7, PerScope, 1, 1))]

  lemma AfterSetup(b: Bounds)
    ensures
      var w := RunAll(b, EMPTY_WORLD, SETUP);
      && Ready(w, 1) && Weightless(w.st) && w.st.assignments == map[] && w.st.index == EMPTY_INDEX && w.st.counters == Counters(0, 0, 0, 0)
      && w.st.epoch.counter == 1
  {
    hide RunAll, Ready;
    SetUp(b);
  }

  lemma ReadyParts(w: World, gen: nat)
    requires Ready(w, gen)
    ensures Small(w.st) && Evident(w.st, gen) && Exclusively(w.st) && w.running && w.accepted && w.faults == []
  {
  }

  /** A weightless per-class claim is placed under the next identifier. */
  lemma ClaimPlaced(b: Bounds, es: seq<Event>, gen: nat, plan: Plan)
    requires
      var w := RunAll(b, EMPTY_WORLD, es);
      && Ready(w, gen) && Weightless(w.st) && |w.st.assignments| < 49
      && w.st.counters.ordinal < 99 && w.st.counters.lease < 99 && w.st.counters.attempt < 99 && w.st.counters.fence < 99
      && w.st.counters.ordinal + 1 !in w.st.assignments && 1 <= plan.cls <= 4 && 1 <= plan.device <= 2
      && plan == Claim(plan.cls, plan.scope.id, PerClass, plan.device, gen).(authority := plan.authority)
      && (plan.cls == 4 ==> LivenessStage(w.st.ev, plan.device, Incarnation(1, 1), 1) == Reason.Ok)
      && ScopeConflict(w.st.index, plan.scope.id, plan.cls, PerClass, 0) == 0
    ensures
      var w, v := RunAll(b, EMPTY_WORLD, es), RunAll(b, EMPTY_WORLD, es + [Supply(plan)]);
      && Small(w.st) && Ready(v, gen) && Weightless(v.st) && v.st.counters == NextCounters(w.st.counters)
      && v.st.assignments == w.st.assignments[w.st.counters.ordinal + 1 := RecordOf(b, w.st, plan)]
      && v.st.index.byClass == w.st.index.byClass[ClassKey(plan.scope.id, plan.cls) := w.st.counters.ordinal + 1]
      && v.st.index.byScope == w.st.index.byScope && v.st.ev == w.st.ev && v.st.epoch == w.st.epoch
      && v.log == w.log + [AssignmentStored(RecordOf(b, w.st, plan), 0, NoFingerprint)]
  {
    var w := RunAll(b, EMPTY_WORLD, es);
    hide RunAll, Ready, Insert, RecordOf, CapacityAdmits, Next, ScopeConflict, LivenessStage, Evident, Exclusively;
    WeightlessFits();
    RunsThen(b, EMPTY_WORLD, es, Supply(plan));
    ReadyParts(w, gen);
    Supplied(b, w, gen, plan);
    hide Small, Weightless;
    ClaimInserted(b, w.st, plan);
  }

  /** The state after a weightless per-class claim. */
  lemma ClaimInserted(b: Bounds, st: State, plan: Plan)
    requires Small(st) && Weightless(st) && st.counters.ordinal + 1 !in st.assignments
    requires plan.exclusivity.Exclusive? && plan.exclusiveKey.PerClass? && plan.demand == ZERO_DEMAND
    ensures
      var v := Insert(st.(counters := NextCounters(st.counters)), RecordOf(b, st, plan));
      && Weightless(v) && v.counters == NextCounters(st.counters)
      && v.assignments == st.assignments[st.counters.ordinal + 1 := RecordOf(b, st, plan)]
      && v.index.byClass == st.index.byClass[ClassKey(plan.scope.id, plan.cls) := st.counters.ordinal + 1]
      && v.index.byScope == st.index.byScope && v.ev == st.ev && v.epoch == st.epoch
  {
    hide Insert, RecordOf, GrantsAgree;
    RecordFacts(b, st, plan);
    var t, a := st.(counters := NextCounters(st.counters)), RecordOf(b, st, plan);
    IndexAfter(t, a);
    WeightlessInsert(t, a, 1);
    WeightlessInsert(t, a, 2);
    InsertFrame(t, a);
    InsertKeepsRest(t, a);
  }

  lemma AfterTwo(b: Bounds)
    ensures
      var w := RunAll(b, EMPTY_WORLD, SECOND);
      && Ready(w, 1) && Weightless(w.st) && w.st.counters == Counters(2, 2, 2, 2) && w.st.assignments.Keys == {1, 2}
      && w.st.index.byClass == map[ClassKey(7, 1) := 1, ClassKey(7, 2) := 2] && w.st.index.byScope == map[]
  {
    hide RunAll, Ready, RecordOf;
    AfterSetup(b);
    ClaimPlaced(b, SETUP, 1, Claim(1, 7, PerClass, 1, 1));
    ClaimPlaced(b, FIRST, 1, Claim(2, 7, PerClass, 1, 1));
  }

  /** With two per-class holders on a scope, a supplied whole-scope plan sees the first, excuses it,
      and is checked under the rule's per-class lookup, which does not see the second. */
  lemma TwoLookups(ix: Index)
    requires ix.byClass == map[ClassKey(7, 1) := 1, ClassKey(7, 2) := 2] && ix.byScope == map[]
    ensures ScopeConflict(ix, 7, 3, PerScope, 0) == 1
    ensures ScopeConflict(ix, 7, 3, PerClass, 1) == 0
    ensures ScopeConflict(ix, 7, 3, PerScope, 1) == 2
  {
    var all, others := ClassesHeldByOthers(ix, 7, 0), ClassesHeldByOthers(ix, 7, 1);
    assert ClassKey(7, 1) in ix.byClass && ClassKey(7, 2) in ix.byClass;
    assert all == {1, 2} && others == {2};
  }

  /** A run in which `apply_plan` ends with a whole-scope holder beside a per-class one. */
  lemma SuppliedPlanMakesTwoHolders(b: Bounds)
    ensures !MutuallyExclusive(RunAll(b, EMPTY_WORLD, THIRD).st.assignments)
  {
    var w, plan := RunAll(b, EMPTY_WORLD, SECOND), Claim(3, 7, PerScope, 1, 1);
    AfterTwo(b);
    TwoLookups(w.st.index);
    WeightlessFits();
    RunsThen(b, EMPTY_WORLD, SECOND, Supply(plan));
    hide RunAll, Ready, ScopeConflict, CapacityAdmits, MutuallyExclusive;
    ReadyParts(w, 1);
    PlanPasses(w.st, 1, plan, 1);
    DisplacingSucceeds(b, w, plan, 1);
    hide AuthorizeCheck, Authorize, Exclusively, Evident, Small;
    assert w.(faults := []) == w;
    PlacementIsSafeIff(b, w, plan, OfPlan(plan), PLAIN, 1);
  }

  /** Nothing refuses a commit, so a plan that passes is placed. */
  lemma DisplacingSucceeds(b: Bounds, w: World, plan: Plan, holder: Id)
    requires w.running && w.accepted && w.faults == [] && Small(w.st) && AuthorizeCheck(w.st, plan, OfPlan(plan), PLAIN, 1) == Success(holder)
    ensures Authorize(b, w, plan, OfPlan(plan), PLAIN, 1).result.Success?
    ensures Next(b, w, Supply(plan)) == Authorize(b, w, plan, OfPlan(plan), PLAIN, 1).w
  {
    hide AuthorizeCheck, NewRecord, Insert, Moved;
    assert w.(faults := []) == w;
  }

  // ---- The network-wide scope ---------------------------------------------------------------------

  const NETWORK := SETUP + [Supply(Claim(1, 0, PerClass, 1, 1))]
  const NETWORK_TWICE := NETWORK + [Supply(Claim(1, 0, PerClass, 1, 1))]

  /** A run in which one class of the network-wide scope is placed exclusively twice. */
  lemma NetworkWideClaimsAreUnchecked(b: Bounds)
    ensures
      var m := RunAll(b, EMPTY_WORLD, NETWORK_TWICE).st.assignments;
      MutuallyExclusive(m) && !NoCollision(m)
  {
    var plan := Claim(1, 0, PerClass, 1, 1);
    hide RunAll, Ready, RecordOf;
    AfterSetup(b);
    ClaimPlaced(b, SETUP, 1, plan);
    var w1 := RunAll(b, EMPTY_WORLD, SETUP);
    RecordFacts(b, w1.st, plan);
    ClaimPlaced(b, NETWORK, 1, plan);
    var w2 := RunAll(b, EMPTY_WORLD, NETWORK);
    RecordFacts(b, w2.st, plan);
    var w3 := RunAll(b, EMPTY_WORLD, NETWORK_TWICE);
    ReadyParts(w3, 1);
    assert Collide(w3.st.assignments[1], w3.st.assignments[2]);
  }

  // ---- Reauthorization ------------------------------------------------------------------------------

  /** The record of the first claim: what it claims and which token it carries. */
  predicate FirstClaim(a: Assignment) {
    && a.id == 1 && a.scope.id == 7 && a.cls == 1 && a.exclusivity.Exclusive? && a.exclusiveKey.PerClass? && a.device == 1
    && a.demand == ZERO_DEMAND && a.fence == Fence(1, 1) && a.attempt == 1 && a.generation == 1 && a.effects == [] && a.authority == 0 && Plain(a, 1)
  }

  lemma AfterFirst(b: Bounds)
    ensures
      var w := RunAll(b, EMPTY_WORLD, FIRST);
      && Ready(w, 1) && Weightless(w.st) && w.st.counters == Counters(1, 1, 1, 1) && w.st.epoch.counter == 1
      && w.st.assignments.Keys == {1} && FirstClaim(w.st.assignments[1]) && w.st.assignments[1].state.Dispatched?
      && w.st.index.byClass == map[ClassKey(7, 1) := 1] && w.st.index.byScope == map[]
  {
    hide RunAll, Ready, RecordOf;
    AfterSetup(b);
    ClaimPlaced(b, SETUP, 1, Claim(1, 7, PerClass, 1, 1));
    RecordFacts(b, RunAll(b, EMPTY_WORLD, SETUP).st, Claim(1, 7, PerClass, 1, 1));
  }

  /** A record that gives up the only claim. */
  lemma LastClaimReleased(st: State, a: Assignment)
    requires a.id in st.assignments && st.assignments[a.id].id == a.id && st.assignments[a.id].scope == a.scope && st.assignments[a.id].cls == a.cls && !HoldsAuthority(a.state)
    requires st.index.byClass == map[ClassKey(a.scope.id, a.cls) := a.id] && st.index.byScope == map[]
    ensures Insert(st, a).index.byClass == map[] && Insert(st, a).index.byScope == map[]
  {
    hide RefreshUsage;
    var k := ClassKey(a.scope.id, a.cls);
    assert map[k := a.id] - {k} == map[];
  }

  const LAPSED := FIRST + [SECOND_POLICY]

  /** The first holder is suspended by a new policy generation and its claim is free. */
  lemma AfterLapse(b: Bounds)
    ensures
      var w := RunAll(b, EMPTY_WORLD, LAPSED);
      && Ready(w, 2) && Weightless(w.st) && w.st.counters == Counters(1, 1, 1, 1) && w.st.epoch.counter == 1
      && w.st.assignments.Keys == {1} && FirstClaim(w.st.assignments[1]) && w.st.assignments[1].state.Suspended?
      && w.st.index.byClass == map[] && w.st.index.byScope == map[]
  {
    var w := RunAll(b, EMPTY_WORLD, FIRST);
    AfterFirst(b);
    RunsThen(b, EMPTY_WORLD, FIRST, SECOND_POLICY);
    hide RunAll, Ready, Insert, Next, Moved;
    assert LiveSet(w.st) == {1};
    PolicySuspends(b, w, 1);
    var learned, moved := Learn(w.st, PolicyIngested(PolicyOf(2))), Moved(b, w.st.assignments[1], Lifecycle.Suspended, PolicyStale, 1);
    MovedKeepsShape(b, w.st.assignments[1], Lifecycle.Suspended, PolicyStale);
    LastClaimReleased(learned, moved);
    WeightlessInsert(learned, moved, 1);
    WeightlessInsert(learned, moved, 2);
    InsertFrame(learned, moved);
    InsertKeepsRest(learned, moved);
  }

  const GRANT := Grant(9, 2, {1}, {Nic}, {Reauthorize}, 0, 0, {}, 1000, Provenance(1, 1), FRESH, false, 0, 0)
  const TAKEN := LAPSED + [Supply(Claim(1, 7, PerClass, 1, 2))]
  const GRANTED := TAKEN + [Tell(AuthorityGranted(GRANT))]
  const REGAINED := GRANTED + [Operate(ReauthorizeOne(0, 1, 9), 1, [])]

  /** The free claim is taken by a second holder. */
  lemma AfterTaken(b: Bounds)
    ensures
      var w := RunAll(b, EMPTY_WORLD, TAKEN);
      && Ready(w, 2) && w.st.counters == Counters(2, 2, 2, 2) && 1 in w.st.assignments && FirstClaim(w.st.assignments[1])
      && w.st.assignments[1].state.Suspended? && w.st.index.byClass == map[ClassKey(7, 1) := 2] && w.st.index.byScope == map[]
  {
    hide RunAll, Ready, RecordOf;
    AfterLapse(b);
    ClaimPlaced(b, LAPSED, 2, Claim(1, 7, PerClass, 1, 2));
  }

  lemma GrantTold(b: Bounds, w: World)
    requires Ready(w, 2) && b.maxGrants > 0
    ensures
      var v := Next(b, w, Tell(AuthorityGranted(GRANT)));
      && v == w.(log := w.log + [AuthorityGranted(GRANT)], st := Learn(w.st, AuthorityGranted(GRANT)))
      && v.st.grants == map[9 := GRANT]
  {
  }

  /** The suspended record passes every check `reauthorize` makes. */
  lemma FirstClaimReturns(b: Bounds, w: World)
    requires Ready(w, 2) && w.st.counters == Counters(2, 2, 2, 2) && 1 in w.st.assignments && FirstClaim(w.st.assignments[1])
    requires w.st.assignments[1].state.Suspended?
    ensures
      var v := w.(log := w.log + [AuthorityGranted(GRANT)], st := Learn(w.st, AuthorityGranted(GRANT)));
      var o := ReauthorizeAssignment(b, v, 0, 1, 9, 1);
      o.result.Success? && ClaimsExclusively(o.result.value)
  {
    hide Insert, TargetValidity, Exclusively;
    var v := w.(log := w.log + [AuthorityGranted(GRANT)], st := Learn(w.st, AuthorityGranted(GRANT)));
    var a := w.st.assignments[1];
    PlainTarget(v.st.ev, a, 1, false);
    assert ReauthorizeCheck(v.st, a, 9, 1) == Success(Dispatched);
  }

  /** A run in which `reauthorize` gives back a claim that somebody else holds by now. */
  lemma ReauthorizationMakesTwoHolders(b: Bounds)
    requires b.maxGrants > 0
    ensures !MutuallyExclusive(RunAll(b, EMPTY_WORLD, REGAINED).st.assignments)
  {
    var w := RunAll(b, EMPTY_WORLD, TAKEN);
    hide RunAll, Next, ReauthorizeAssignment, MutuallyExclusive, LearnEvidence, ApplyGrants, Exclusively, Plain, Evident, Small;
    AfterTaken(b);
    RunsThen(b, EMPTY_WORLD, TAKEN, Tell(AuthorityGranted(GRANT)));
    RunsThen(b, EMPTY_WORLD, GRANTED, Operate(ReauthorizeOne(0, 1, 9), 1, []));
    GrantTold(b, w);
    FirstClaimReturns(b, w);
    var v := RunAll(b, EMPTY_WORLD, GRANTED);
    ReauthorizedRun(b, v, 1, 9);
    ExclusivelyIgnoresCounters(w.st, v.st);
    ReauthorizeIsSafeIff(b, v, 0, 1, 9, 1);
  }

  lemma ReauthorizedRun(b: Bounds, w: World, id: Id, authority: Id)
    requires w.running && w.faults == []
    ensures Next(b, w, Operate(ReauthorizeOne(0, id, authority), 1, [])) == ReauthorizeAssignment(b, w, 0, id, authority, 1).w
  {
    hide ReauthorizeAssignment;
    assert w.(faults := []) == w;
  }

  // ---- A full history -------------------------------------------------------------------------------

  function Revalidations(n: nat): seq<Event> {
    if n == 0 then [] else Revalidations(n - 1) + [Operate(Revalidate(9), 1, [])]
  }

  function ReportOn(outcome: EffectOutcome): Event {
    Operate(Report(EffectReport(0, 1, 1, 1, Fence(1, 1), Incarnation(1, 1), 0, outcome, Reason.Ok, 1)), 1, [])
  }

  /** Every revalidation suspends the lapsed record again and adds to its history. */
  lemma {:induction false} IdleGrowsHistory(b: Bounds, n: nat)
    ensures
      var w := RunAll(b, EMPTY_WORLD, LAPSED + Revalidations(n));
      && Ready(w, 2) && w.st.assignments.Keys == {1} && FirstClaim(w.st.assignments[1]) && w.st.assignments[1].state.Suspended?
      && w.st.epoch.counter == 1 && |w.st.assignments[1].history| >= (if n < b.maxHistory then n else b.maxHistory)
  {
    hide RunAll, Ready, FirstClaim, RevalidateFrom, Insert, Moved;
    if n == 0 {
      assert LAPSED + Revalidations(0) == LAPSED;
      AfterLapse(b);
    } else {
      var es, e := LAPSED + Revalidations(n - 1), Operate(Revalidate(9), 1, []);
      IdleGrowsHistory(b, n - 1);
      assert LAPSED + Revalidations(n) == es + [e];
      RunsThen(b, EMPTY_WORLD, es, e);
      SuspendedAgain(b, RunAll(b, EMPTY_WORLD, es));
    }
  }

  lemma SuspendedAgain(b: Bounds, w: World)
    requires Ready(w, 2) && w.st.assignments.Keys == {1} && FirstClaim(w.st.assignments[1]) && w.st.assignments[1].state.Suspended?
    requires w.st.epoch.counter == 1
    ensures
      var v := Next(b, w, Operate(Revalidate(9), 1, []));
      && Ready(v, 2) && v.st.assignments.Keys == {1} && FirstClaim(v.st.assignments[1]) && v.st.assignments[1].state.Suspended?
      && v.st.epoch.counter == 1
      && |v.st.assignments[1].history| == if |w.st.assignments[1].history| < b.maxHistory then |w.st.assignments[1].history| + 1 else b.maxHistory
  {
    hide RevalidateAll, Insert, Moved, Put, Validity, Ready, Demotion, LiveSet, Next, Exclusively, Small;
    var a, v := w.st.assignments[1], Next(b, w, Operate(Revalidate(9), 1, []));
    ReadyParts(w, 2);
    RevalidationRun(b, w, 9);
    assert |w.st.assignments.Keys| == |w.st.assignments|;
    OneLive(w.st);
    PlainValidity(w.st, 2, a, 1);
    StaleIsDemoted(w.st, a);
    OneRevised(b, w, 1, Lifecycle.Suspended, 9);
    hide Evident, Plain;
    var moved := Moved(b, a, Lifecycle.Suspended, PolicyStale, 1);
    PutQuietly(b, w, moved, NoFingerprint, 1);
    MovedKeepsShape(b, a, Lifecycle.Suspended, PolicyStale);
    ReadyRewritten(w, v, 2, moved);
  }

  lemma OneLive(st: State)
    requires st.assignments.Keys == {1} && IsLive(st.assignments[1].state)
    ensures LiveSet(st) == {1}
  {
  }

  lemma StaleIsDemoted(st: State, a: Assignment)
    requires Validity(st, a, 1) == PolicyStale
    ensures Demotion(st, a, 1) == Some(Lifecycle.Suspended)
  {
  }

  /** Under any bound, a run whose last record does not decode: a lapsed record is revalidated until
      its history is full, then an effect is reported on it. No process starts on that journal. */
  lemma FullHistoryStopsDecoding(b: Bounds, keep: nat, boot: Id, accept: bool, at: int, faults: seq<bool>)
    requires keep >= |RunAll(b, EMPTY_WORLD, LAPSED + Revalidations(b.maxHistory) + [ReportOn(EffectOutcome.Unknown)]).log|
    ensures
      var es := LAPSED + Revalidations(b.maxHistory) + [ReportOn(EffectOutcome.Unknown)];
      var log := RunAll(b, EMPTY_WORLD, es).log;
      && log != [] && !Decodable(b, log[|log| - 1])
      && !RunAll(b, EMPTY_WORLD, es + [CrashAt(keep), Boot(boot, accept, at, faults)]).running
  {
    var before := LAPSED + Revalidations(b.maxHistory);
    var w := RunAll(b, EMPTY_WORLD, before);
    hide RunAll, Next;
    IdleGrowsHistory(b, b.maxHistory);
    RunsThen(b, EMPTY_WORLD, before, ReportOn(EffectOutcome.Unknown));
    FullReport(b, w);
    var es := before + [ReportOn(EffectOutcome.Unknown)];
    var more := [CrashAt(keep), Boot(boot, accept, at, faults)];
    assert more[0].CrashAt?;
    UndecodableStaysRefused(b, es, more, |RunAll(b, EMPTY_WORLD, es).log| - 1);
  }

  lemma FullReport(b: Bounds, w: World)
    requires Ready(w, 2) && 1 in w.st.assignments && FirstClaim(w.st.assignments[1]) && w.st.assignments[1].state.Suspended?
    requires w.st.epoch.counter == 1 && |w.st.assignments[1].history| >= b.maxHistory
    ensures
      var log := Next(b, w, ReportOn(EffectOutcome.Unknown)).log;
      log != [] && !Decodable(b, log[|log| - 1])
  {
    hide Insert, Evident, Small, Exclusively, EffectMatches, ReportEffect;
    var r, a := ReportOn(EffectOutcome.Unknown).op.report, w.st.assignments[1];
    TokenMatches(w.st, a, r);
    ReportStores(b, w, r);
  }

  lemma TokenMatches(st: State, a: Assignment, r: EffectReport)
    requires r == ReportOn(r.outcome).op.report && st.epoch.counter == 1 && a.fence == Fence(1, 1) && a.attempt == 1 && a.generation == 1
    requires a.incarnation == Incarnation(1, 1) && a.binding.capability == 0
    ensures EffectMatches(st, a, r) == Reason.Ok
  {
  }

  /** An acceptable report without a request identifier is stored. */
  lemma ReportStores(b: Bounds, w: World, r: EffectReport)
    requires w.running && w.accepted && w.faults == [] && r.requestId == 0 && r.assignment in w.st.assignments
    requires Acceptable(w.st, w.st.assignments[r.assignment], r)
    ensures
      var a, v := WithEffect(b, w.st.assignments[r.assignment], r, 1), Next(b, w, Operate(Report(r), 1, []));
      && v.st == Insert(w.st, a) && v.log == w.log + [EffectRecorded(r, a, OfEffect(r))]
      && v.running && v.accepted && v.faults == [] && v == ReportEffect(b, w, r, 1).w && ReportEffect(b, w, r, 1).result == Success(a)
  {
    hide Insert, EffectMatches, WithEffect;
    assert w.(faults := []) == w;
  }

  const VERIFIED := FIRST + [ReportOn(Applied)]
  const DISPLACED := VERIFIED + [ReportOn(EffectOutcome.Unknown)]

  /** With room for one effect, a run in which a record stays AppliedVerified while the effect that
      verified it is gone. */
  lemma OneEffectForgets(b: Bounds)
    requires b.maxEffects == 1
    ensures
      var m := RunAll(b, EMPTY_WORLD, DISPLACED).st.assignments;
      1 in m && m[1].state.AppliedVerified? && !Backed(m[1])
  {
    var w := RunAll(b, EMPTY_WORLD, FIRST);
    hide RunAll, Next, Backed;
    AfterFirst(b);
    RunsThen(b, EMPTY_WORLD, FIRST, ReportOn(Applied));
    AppliedOnce(b, w);
    var v := RunAll(b, EMPTY_WORLD, VERIFIED);
    RunsThen(b, EMPTY_WORLD, VERIFIED, ReportOn(EffectOutcome.Unknown));
    UnknownAfterApplied(b, v);
  }

  /** Verified by its only effect. */
  predicate Verified(w: World) {
    && w.running && w.accepted && w.faults == [] && w.st.epoch.counter == 1 && 1 in w.st.assignments
    && var a := w.st.assignments[1];
       && a.state.AppliedVerified? && a.id == 1 && a.fence == Fence(1, 1) && a.attempt == 1 && a.generation == 1
       && a.incarnation == Incarnation(1, 1) && a.binding.capability == 0 && |a.effects| == 1 && a.effects[0].outcome.Applied?
  }

  lemma AppliedOnce(b: Bounds, w: World)
    requires w.running && w.accepted && w.faults == [] && w.st.epoch.counter == 1
    requires 1 in w.st.assignments && FirstClaim(w.st.assignments[1]) && w.st.assignments[1].state.Dispatched?
    ensures Verified(Next(b, w, ReportOn(Applied)))
  {
    hide Insert, EffectMatches, ReportEffect, Next, Plain;
    var r, a := ReportOn(Applied).op.report, w.st.assignments[1];
    PlainIncarnation(a, 1);
    TokenMatches(w.st, a, r);
    ReportStores(b, w, r);
    InsertFrame(w.st, WithEffect(b, a, r, 1));
  }

  lemma UnknownAfterApplied(b: Bounds, w: World)
    requires Verified(w) && b.maxEffects == 1
    ensures
      var m := Next(b, w, ReportOn(EffectOutcome.Unknown)).st.assignments;
      1 in m && m[1].state.AppliedVerified? && !Backed(m[1])
  {
    hide Insert, Backed, EffectMatches, ReportEffect, Next, WithEffect;
    var r, a := ReportOn(EffectOutcome.Unknown).op.report, w.st.assignments[1];
    TokenMatches(w.st, a, r);
    ReportStores(b, w, r);
    OneEffectIsNotEnough(b, w.st, a, r, 1);
    WithEffectKeepsId(b, a, r, 1);
    InsertFrame(w.st, WithEffect(b, a, r, 1));
  }

  lemma WithEffectKeepsId(b: Bounds, a: Assignment, r: EffectReport, at: int)
    ensures WithEffect(b, a, r, at).id == a.id
  {
  }

  lemma PlainIncarnation(a: Assignment, gen: nat)
    requires Plain(a, gen)
    ensures a.incarnation == Incarnation(1, 1) && a.binding.capability == 0
  {
  }

  // ---- An effect on a degraded holder -------------------------------------------------------------

  function Seen(device: Id, sequence: nat, liveness: Liveness): Observation {
    Observation(device, Incarnation(1, 1), liveness, FRESH, Provenance(1, sequence))
  }

  /** Both devices are observed; the second is alive. */
  function Watch(sequence: nat, first: Liveness): Record {
    ObservationsIngested(ObservationReport(1, Provenance(1, sequence), [Seen(1, sequence, first), Seen(2, sequence, Alive)]))
  }

  /** The last report heard. */
  predicate Watching(ev: Evidence, sequence: nat) {
    && SourceKey(1, ObservationEvidence) in ev.sources
    && (var s := ev.sources[SourceKey(1, ObservationEvidence)]; s.seen && s.lastSequence == sequence && s.restartFloor == 0)
  }

  lemma WatchLearned(b: Bounds, st: State, sequence: nat, first: Liveness)
    requires Evident(st, 1) && sequence > 0 && (SourceKey(1, ObservationEvidence) in st.ev.sources ==> Watching(st.ev, sequence - 1))
    ensures
      var r := Watch(sequence, first);
      var learned := Learn(st, r);
      && EvidenceCheck(b, st, r) == Success(false) && Evident(learned, 1) && Watching(learned.ev, sequence)
      && (first.Alive? ==> LivenessStage(learned.ev, 1, Incarnation(1, 1), 1) == Reason.Ok)
      && (first.Degraded? ==> LivenessStage(learned.ev, 1, Incarnation(1, 1), 1) == LivenessDegraded)
      && LivenessStage(learned.ev, 2, Incarnation(1, 1), 1) == Reason.Ok
  {
    hide FindDevice, FindRule, ObservationTargets, WithObservations;
    TwoObservations(st.ev.observations, Seen(1, sequence, first), Seen(2, sequence, Alive));
  }

  lemma TwoObservations(m: map<Id, Observation>, first: Observation, second: Observation)
    requires first.device == 1 && second.device == 2 && first.incarnation == second.incarnation == Incarnation(1, 1)
    ensures WithObservations(m, [first, second]) == m[1 := first][2 := second]
    ensures ObservationTargets(TOPOLOGY, [first, second]) == Reason.Ok
  {
    DeploymentLookups(1, 1, 1);
    DeploymentLookups(1, 2, 1);
    hide FindDevice;
    assert [first, second][1..] == [second];
    assert WithObservations(m[1 := first], [second]) == m[1 := first][2 := second];
    assert ObservationTargets(TOPOLOGY, [second]) == Reason.Ok;
  }

  const WATCHED := SETUP + [Tell(Watch(1, Alive))]
  /** The claim names a grant, or none. */
  function Held(g: Id): seq<Event> { WATCHED + [Supply(Claim(4, 7, PerClass, 1, 1).(authority := g))] }

  function WeakenedRun(g: Id): seq<Event> { Held(g) + [Tell(Watch(2, Liveness.Degraded))] }

  const BESIDE := WeakenedRun(0) + [Supply(Claim(4, 7, PerClass, 2, 1))]
  const REVIVED := BESIDE + [ReportOn(Applied)]

  /** The watched claim on the first device. */
  predicate WatchedClaim(a: Assignment) {
    && a.id == 1 && a.scope.id == 7 && a.cls == 4 && a.exclusivity.Exclusive? && a.exclusiveKey.PerClass? && a.device == 1
    && a.demand == ZERO_DEMAND && a.fence == Fence(1, 1) && a.attempt == 1 && a.generation == 1 && a.effects == [] && Plain(a, 1)
  }

  lemma AfterWatched(b: Bounds)
    ensures
      var w := RunAll(b, EMPTY_WORLD, WATCHED);
      && Ready(w, 1) && Weightless(w.st) && w.st.assignments == map[] && w.st.index == EMPTY_INDEX && w.st.counters == Counters(0, 0, 0, 0)
      && w.st.epoch.counter == 1 && Watching(w.st.ev, 1) && LivenessStage(w.st.ev, 1, Incarnation(1, 1), 1) == Reason.Ok
  {
    var w := RunAll(b, EMPTY_WORLD, SETUP);
    hide RunAll, Next, EvidenceCurrent, LivenessStage, LearnEvidence, EvidenceCheck;
    SetUp(b);
    WatchLearned(b, w.st, 1, Alive);
    RunsThen(b, EMPTY_WORLD, SETUP, Tell(Watch(1, Alive)));
    Told(b, w, Watch(1, Alive));
    ExclusivelyIgnoresCounters(w.st, Learn(w.st, Watch(1, Alive)));
  }

  lemma AfterHeld(b: Bounds, g: Id)
    ensures
      var w := RunAll(b, EMPTY_WORLD, Held(g));
      && Ready(w, 1) && Weightless(w.st) && w.st.counters == Counters(1, 1, 1, 1) && w.st.epoch.counter == 1 && Watching(w.st.ev, 1)
      && w.st.assignments.Keys == {1} && WatchedClaim(w.st.assignments[1]) && w.st.assignments[1].state.Dispatched? && w.st.assignments[1].authority == g
      && w.st.index.byClass == map[ClassKey(7, 4) := 1] && w.st.index.byScope == map[]
  {
    hide RunAll, Ready, RecordOf, LivenessStage;
    AfterWatched(b);
    ClaimPlaced(b, WATCHED, 1, Claim(4, 7, PerClass, 1, 1).(authority := g));
    RecordFacts(b, RunAll(b, EMPTY_WORLD, WATCHED).st, Claim(4, 7, PerClass, 1, 1).(authority := g));
  }

  /** The holder is degraded by an observation, and its claim is free. */
  lemma AfterWeakened(b: Bounds, g: Id)
    ensures
      var w := RunAll(b, EMPTY_WORLD, WeakenedRun(g));
      && Ready(w, 1) && Weightless(w.st) && w.st.counters == Counters(1, 1, 1, 1) && w.st.epoch.counter == 1
      && LivenessStage(w.st.ev, 2, Incarnation(1, 1), 1) == Reason.Ok && LivenessStage(w.st.ev, 1, Incarnation(1, 1), 1) == LivenessDegraded
      && w.st.assignments.Keys == {1} && WatchedClaim(w.st.assignments[1]) && w.st.assignments[1].state.Degraded? && w.st.assignments[1].authority == g
      && w.st.index.byClass == map[] && w.st.index.byScope == map[]
  {
    hide RunAll, Next, LivenessStage, Ready, Weightless, WatchedClaim, Watching;
    AfterHeld(b, g);
    RunsThen(b, EMPTY_WORLD, Held(g), Tell(Watch(2, Liveness.Degraded)));
    Weakened(b, RunAll(b, EMPTY_WORLD, Held(g)));
  }

  lemma Weakened(b: Bounds, w: World)
    requires Ready(w, 1) && Weightless(w.st) && w.st.epoch.counter == 1 && Watching(w.st.ev, 1)
    requires w.st.assignments.Keys == {1} && WatchedClaim(w.st.assignments[1]) && w.st.assignments[1].state.Dispatched?
    requires w.st.index.byClass == map[ClassKey(7, 4) := 1] && w.st.index.byScope == map[]
    ensures
      var v := Next(b, w, Tell(Watch(2, Liveness.Degraded)));
      && Ready(v, 1) && Weightless(v.st) && v.st.counters == w.st.counters && v.st.epoch.counter == 1
      && LivenessStage(v.st.ev, 2, Incarnation(1, 1), 1) == Reason.Ok && LivenessStage(v.st.ev, 1, Incarnation(1, 1), 1) == LivenessDegraded
      && v.st.assignments.Keys == {1} && WatchedClaim(v.st.assignments[1]) && v.st.assignments[1].state.Degraded? && v.st.assignments[1].authority == w.st.assignments[1].authority
      && v.st.index.byClass == map[] && v.st.index.byScope == map[]
  {
    hide Next, Insert, Moved, LivenessStage, LearnEvidence, EvidenceCurrent, ScopeConflict, Exclusively, Small, Plain;
    WeakeningIs(b, w);
    var a, learned := w.st.assignments[1], Learn(w.st, Watch(2, Liveness.Degraded));
    assert |w.st.assignments| == |w.st.assignments.Keys|;
    var moved := Moved(b, a, Lifecycle.Degraded, LivenessDegraded, 1);
    MovedKeepsShape(b, a, Lifecycle.Degraded, LivenessDegraded);
    LastClaimReleased(learned, moved);
    WeightlessInsert(learned, moved, 1);
    WeightlessInsert(learned, moved, 2);
    ExclusivelyIgnoresCounters(w.st, learned);
    SmallReads(w.st, learned);
    hide Evident;
    ReadyRewritten(w.(st := learned), Next(b, w, Tell(Watch(2, Liveness.Degraded))), 1, moved);
  }

  lemma WeakeningIs(b: Bounds, w: World)
    requires Ready(w, 1) && Watching(w.st.ev, 1)
    requires w.st.assignments.Keys == {1} && WatchedClaim(w.st.assignments[1]) && w.st.assignments[1].state.Dispatched?
    ensures
      var v, learned := Next(b, w, Tell(Watch(2, Liveness.Degraded))), Learn(w.st, Watch(2, Liveness.Degraded));
      && v.st == Insert(learned, Moved(b, w.st.assignments[1], Lifecycle.Degraded, LivenessDegraded, 1))
      && v.running && v.accepted && v.faults == [] && Evident(learned, 1)
      && LivenessStage(learned.ev, 2, Incarnation(1, 1), 1) == Reason.Ok && LivenessStage(learned.ev, 1, Incarnation(1, 1), 1) == LivenessDegraded
  {
    hide Next, Insert, Moved, LivenessStage, LearnEvidence, EvidenceCheck, EvidenceCurrent, Validity, Demotion, Exclusively, LiveSet, Small;
    WatchLearned(b, w.st, 2, Liveness.Degraded);
    var learned := Learn(w.st, Watch(2, Liveness.Degraded));
    OneLive(w.st);
    EvidentIsFresh(learned);
    DegradedIsNoticed(learned, w.st.assignments[1]);
    hide Plain, Evident;
    ToldOne(b, w, Watch(2, Liveness.Degraded), 1, Lifecycle.Degraded);
  }

  lemma SmallReads(s: State, t: State)
    requires Small(s) && t.counters == s.counters && t.assignments == s.assignments
    ensures Small(t)
  {
  }

  /** The evidence of the deployment counts as heard. */
  predicate Fresh(ev: Evidence) {
    && ev.topology == Some(TOPOLOGY) && ev.policy == Some(PolicyOf(1))
    && EvidenceCurrent(ev, Provenance(1, 1), PolicyEvidence) && EvidenceCurrent(ev, Provenance(1, 1), TopologyEvidence)
  }

  lemma EvidentIsFresh(st: State)
    requires Evident(st, 1)
    ensures Fresh(st.ev)
  {
  }

  lemma DegradedIsNoticed(st: State, a: Assignment)
    requires Fresh(st.ev) && Plain(a, 1) && a.cls == 4 && LivenessStage(st.ev, a.device, Incarnation(1, 1), 1) == LivenessDegraded
    ensures Validity(st, a, 1) == LivenessDegraded
    ensures Demotion(st, a, 1) == if a.state.Degraded? then None else Some(Lifecycle.Degraded)
  {
    hide LivenessStage, TargetValidity, EvidenceCurrent;
    PlainTarget(st.ev, a, 1, true);
  }

  /** A run in which an Applied report makes a degraded record a holder beside its successor. */
  lemma AppliedReportMakesTwoHolders(b: Bounds)
    ensures !MutuallyExclusive(RunAll(b, EMPTY_WORLD, REVIVED).st.assignments)
  {
    var v := RunAll(b, EMPTY_WORLD, BESIDE);
    hide RunAll, Ready, RecordOf, LivenessStage, Next, ReportEffect, MutuallyExclusive, Plain;
    AfterWeakened(b, 0);
    ClaimPlaced(b, WeakenedRun(0), 1, Claim(4, 7, PerClass, 2, 1));
    RunsThen(b, EMPTY_WORLD, BESIDE, ReportOn(Applied));
    ReadyParts(v, 1);
    AppliedAccepted(b, v);
    hide Exclusively, Evident, Small;
    AppliedReportIsSafeIff(b, v, ReportOn(Applied).op.report, 1);
  }

  lemma AppliedAccepted(b: Bounds, w: World)
    requires w.running && w.accepted && w.faults == [] && w.st.epoch.counter == 1
    requires 1 in w.st.assignments && WatchedClaim(w.st.assignments[1]) && w.st.assignments[1].state.Degraded?
    ensures
      var r := ReportOn(Applied).op.report;
      var o := ReportEffect(b, w, r, 1);
      o.result.Success? && ClaimsExclusively(o.result.value) && Next(b, w, ReportOn(Applied)) == o.w
  {
    hide Insert, EffectMatches, ReportEffect, Next, Plain;
    var r, a := ReportOn(Applied).op.report, w.st.assignments[1];
    PlainIncarnation(a, 1);
    TokenMatches(w.st, a, r);
    ReportStores(b, w, r);
  }

  // ---- A demand released twice -----------------------------------------------------------------------

  const SIX := Demand(6, 6, 6, 6, 6)

  function Heavy(gen: nat): Plan { PlanOf(1, 7, Shared, PerClass, 1, SIX, gen) }

  const LOADED := SETUP + [Supply(Heavy(1))]
  const IDLED := LOADED + [SECOND_POLICY]
  const RELOADED := IDLED + [Supply(Heavy(2))]
  const RECHECKED := RELOADED + [Operate(Revalidate(9), 1, [])]
  const OVERLOADED := RECHECKED + [Supply(Heavy(2))]

  predicate HeavyRecord(a: Assignment, id: Id, gen: nat) {
    a.id == id && a.cls == 1 && a.device == 1 && a.demand == SIX && a.exclusivity.Shared? && a.authority == 0 && a.fence.epoch == 1 && Plain(a, gen)
  }

  lemma ZeroDemand(d: Demand)
    requires forall c: Component :: d.Of(c) == 0
    ensures d == ZERO_DEMAND
  {
    assert d.Of(Packets) == d.Of(Bytes) == d.Of(Flows) == d.Of(Queues) == d.Of(Memory) == 0;
  }

  lemma SixFits()
    ensures CapacityAdmits(SIZE, ZERO_DEMAND, SIX) && forall c: Component :: SIX.Of(c) == 6 && SIZE.Of(c) == 10 && ZERO_DEMAND.Of(c) == 0
  {
  }

  /** A heavy record is placed on an accounted-empty device. */
  lemma HeavyPlaced(b: Bounds, es: seq<Event>, gen: nat)
    requires
      var w := RunAll(b, EMPTY_WORLD, es);
      && Ready(w, gen) && gen != 0 && |w.st.assignments| < 49 && w.st.counters.ordinal < 99 && w.st.counters.lease < 99
      && w.st.counters.attempt < 99 && w.st.counters.fence < 99 && w.st.counters.ordinal + 1 !in w.st.assignments
      && CommittedFor(w.st.index.committed, 1) == ZERO_DEMAND && w.st.epoch.counter == 1
    ensures
      var w, v := RunAll(b, EMPTY_WORLD, es), RunAll(b, EMPTY_WORLD, es + [Supply(Heavy(gen))]);
      && Small(w.st) && Ready(v, gen) && v.st.counters == NextCounters(w.st.counters) && v.st.epoch.counter == 1
      && v.st.assignments == w.st.assignments[w.st.counters.ordinal + 1 := RecordOf(b, w.st, Heavy(gen))]
      && HeavyRecord(RecordOf(b, w.st, Heavy(gen)), w.st.counters.ordinal + 1, gen) && RecordOf(b, w.st, Heavy(gen)).state.Dispatched?
      && forall c: Component :: CommittedFor(v.st.index.committed, 1).Of(c) == 6
  {
    var w, plan := RunAll(b, EMPTY_WORLD, es), Heavy(gen);
    SixFits();
    RunsThen(b, EMPTY_WORLD, es, Supply(plan));
    hide RunAll, Ready, Insert, RecordOf, CapacityAdmits, Next, ScopeConflict, LivenessStage;
    ReadyParts(w, gen);
    Supplied(b, w, gen, plan);
    RecordFacts(b, w.st, plan);
    var t, a := w.st.(counters := NextCounters(w.st.counters)), RecordOf(b, w.st, plan);
    InsertFrame(t, a);
    InsertKeepsRest(t, a);
    forall c: Component ensures CommittedFor(Insert(t, a).index.committed, 1).Of(c) == 6 { InsertCommitted(t, a, 1, c); }
  }

  /** Suspending a heavy record subtracts its demand from the account, held or not. */
  lemma HeavyReleased(st: State, a: Assignment)
    requires a.id in st.assignments && st.assignments[a.id].demand == SIX && st.assignments[a.id].device == 1 && !HoldsAuthority(a.state)
    requires forall c: Component :: CommittedFor(st.index.committed, 1).Of(c) == 6
    ensures CommittedFor(Insert(st, a).index.committed, 1) == ZERO_DEMAND
  {
    hide Insert;
    SixFits();
    forall c: Component ensures CommittedFor(Insert(st, a).index.committed, 1).Of(c) == 0 { InsertCommitted(st, a, 1, c); }
    ZeroDemand(CommittedFor(Insert(st, a).index.committed, 1));
  }

  lemma AfterIdled(b: Bounds)
    ensures
      var w := RunAll(b, EMPTY_WORLD, IDLED);
      && Ready(w, 2) && w.st.counters == Counters(1, 1, 1, 1) && w.st.epoch.counter == 1 && w.st.assignments.Keys == {1}
      && HeavyRecord(w.st.assignments[1], 1, 1) && w.st.assignments[1].state.Suspended?
      && CommittedFor(w.st.index.committed, 1) == ZERO_DEMAND
  {
    hide RunAll, Ready, Insert, Next, Moved, RecordOf;
    AfterSetup(b);
    HeavyPlaced(b, SETUP, 1);
    var w := RunAll(b, EMPTY_WORLD, LOADED);
    RunsThen(b, EMPTY_WORLD, LOADED, SECOND_POLICY);
    assert w.st.assignments.Keys == {1} && LiveSet(w.st) == {1};
    PolicySuspends(b, w, 1);
    var learned, moved := Learn(w.st, PolicyIngested(PolicyOf(2))), Moved(b, w.st.assignments[1], Lifecycle.Suspended, PolicyStale, 1);
    MovedKeepsShape(b, w.st.assignments[1], Lifecycle.Suspended, PolicyStale);
    HeavyReleased(learned, moved);
    InsertFrame(learned, moved);
    InsertKeepsRest(learned, moved);
  }

  /** Two live records of which the revalidation moves the first only. */
  lemma FirstOfTwoRevised(b: Bounds, w: World)
    requires Ready(w, 2) && w.st.assignments.Keys == {1, 2} && w.st.epoch.counter == 1 && |w.st.assignments| < 49
    requires HeavyRecord(w.st.assignments[1], 1, 1) && w.st.assignments[1].state.Suspended?
    requires HeavyRecord(w.st.assignments[2], 2, 2) && w.st.assignments[2].state.Dispatched?
    ensures
      var v, moved := Next(b, w, Operate(Revalidate(9), 1, [])), Moved(b, w.st.assignments[1], Lifecycle.Suspended, PolicyStale, 1);
      v.st == Insert(w.st, moved) && Ready(v, 2)
  {
    hide Insert, Moved, Put, Validity, RevalidateAll, Ready, Plain, Next, Evident, Exclusively, Small;
    var a := w.st.assignments[1];
    var moved := Moved(b, a, Lifecycle.Suspended, PolicyStale, 1);
    ReadyParts(w, 2);
    RevalidationRun(b, w, 9);
    PutQuietly(b, w, moved, NoFingerprint, 1);
    MovedKeepsShape(b, a, Lifecycle.Suspended, PolicyStale);
    var next := Put(b, w, moved, 0, NoFingerprint, 1);
    ReadyRewritten(w, next, 2, moved);
    ReadyParts(next, 2);
    PlainValidity(w.st, 2, a, 1);
    PlainValidity(next.st, 2, w.st.assignments[2], 2);
    TwoTurns(b, w);
  }

  lemma RevalidationRun(b: Bounds, w: World, cancelFrom: nat)
    requires w.running && w.faults == []
    ensures Next(b, w, Operate(Revalidate(cancelFrom), 1, [])) == RevalidateAll(b, w, 1, cancelFrom).w
  {
    hide RevalidateAll;
    assert w.(faults := []) == w;
  }

  lemma TwoTurns(b: Bounds, w: World)
    requires w.faults == [] && w.st.assignments.Keys == {1, 2} && w.st.assignments[1].state.Suspended? && w.st.assignments[2].state.Dispatched?
    requires Validity(w.st, w.st.assignments[1], 1) == PolicyStale
    requires
      var v := Put(b, w, Moved(b, w.st.assignments[1], Lifecycle.Suspended, PolicyStale, 1), 0, NoFingerprint, 1);
      2 in v.st.assignments && Validity(v.st, v.st.assignments[2], 1) == Reason.Ok
    ensures RevalidateAll(b, w, 1, 9).w == Put(b, w, Moved(b, w.st.assignments[1], Lifecycle.Suspended, PolicyStale, 1), 0, NoFingerprint, 1)
  {
    hide Put, Moved, Validity, RevalidateFrom, LiveIds;
    TwoLive(w.st);
    RevisedFirst(b, w, [1, 2], Lifecycle.Suspended, 9, Tally(0, 0, 0));
    assert [1, 2][1..] == [2];
    LeftAlone(b, Put(b, w, Moved(b, w.st.assignments[1], Lifecycle.Suspended, PolicyStale, 1), 0, NoFingerprint, 1), 2, 8, Tally(1, 1, 0));
  }

  lemma TwoLive(st: State)
    requires st.assignments.Keys == {1, 2} && IsLive(st.assignments[1].state) && IsLive(st.assignments[2].state)
    ensures LiveIds(st) == [1, 2]
  {
    hide Sorted;
    assert LiveSet(st) == {1, 2};
    SortedIsUnique([1, 2], {1, 2});
  }

  lemma AfterRechecked(b: Bounds)
    ensures
      var w := RunAll(b, EMPTY_WORLD, RECHECKED);
      && Ready(w, 2) && w.st.counters == Counters(2, 2, 2, 2) && w.st.epoch.counter == 1 && w.st.assignments.Keys == {1, 2}
      && HeavyRecord(w.st.assignments[2], 2, 2) && w.st.assignments[2].state.Dispatched?
      && CommittedFor(w.st.index.committed, 1) == ZERO_DEMAND
  {
    hide RunAll, Ready, Insert, Next, Moved, RecordOf;
    AfterIdled(b);
    HeavyPlaced(b, IDLED, 2);
    var w := RunAll(b, EMPTY_WORLD, RELOADED);
    RunsThen(b, EMPTY_WORLD, RELOADED, Operate(Revalidate(9), 1, []));
    assert w.st.assignments.Keys == {1, 2} && |w.st.assignments.Keys| == |w.st.assignments|;
    FirstOfTwoRevised(b, w);
    var moved := Moved(b, w.st.assignments[1], Lifecycle.Suspended, PolicyStale, 1);
    MovedKeepsShape(b, w.st.assignments[1], Lifecycle.Suspended, PolicyStale);
    HeavyReleased(w.st, moved);
    InsertFrame(w.st, moved);
    InsertKeepsRest(w.st, moved);
  }

  /** A run in which a device of capacity ten is made to carry twelve: revalidating a suspended
      record gives its demand back a second time. */
  lemma DoubleReleaseOverloads(b: Bounds, c: Component)
    ensures Load(RunAll(b, EMPTY_WORLD, OVERLOADED).st.assignments, 1, c) >= 12 > SIZE.Of(c)
  {
    hide RunAll, Ready, RecordOf, Load;
    AfterRechecked(b);
    HeavyPlaced(b, RECHECKED, 2);
    SixFits();
    var m := RunAll(b, EMPTY_WORLD, OVERLOADED).st.assignments;
    LoadWithout(m, 2, 1, c);
    LoadWithout(m - {2}, 3, 1, c);
  }

  // ---- After a restart ---------------------------------------------------------------------------------

  const AGAIN := Boot(2, true, 1, [])

  /** A short journal of decodable records. */
  predicate Startable(b: Bounds, w: World) {
    |w.log| <= 99 && w.st.epoch.highest < U64_MAX && forall i :: 0 <= i < |w.log| ==> Decodable(b, w.log[i])
  }

  lemma RunsTwice(b: Bounds, w: World, es: seq<Event>, e1: Event, e2: Event)
    ensures RunAll(b, w, es + [e1, e2]) == Next(b, Next(b, RunAll(b, w, es), e1), e2)
  {
    hide Next;
    assert es + [e1, e2] == es + [e1] + [e2];
    RunsThen(b, w, es, e1);
    RunsThen(b, w, es + [e1], e2);
  }

  lemma ReplayMatches(b: Bounds, w: World)
    requires Consistent(b, w) && w.running
    ensures
      var st := Replay(b, EMPTY_STATE, w.log);
      && st.assignments == w.st.assignments && st.epoch == w.st.epoch && st.ev.topology == w.st.ev.topology
      && st.ev.policy == w.st.ev.policy && st.ev.functions == w.st.ev.functions && st.ev.capabilities == w.st.ev.capabilities
      && NamedLog(w.log)
  {
  }

  lemma NoneLive(st: State)
    requires LiveSet(st) == {}
    ensures LiveIds(st) == []
  {
  }

  /** What a start makes of a journal whose records are all finished. */
  lemma StartedIdle(b: Bounds, w: World)
    requires LiveSet(Replay(b, EMPTY_STATE, w.log)) == {} && w.faults == []
    requires Replay(b, EMPTY_STATE, w.log).epoch.highest < U64_MAX && forall i :: 0 <= i < |w.log| ==> Decodable(b, w.log[i])
    ensures
      var (v, ok) := Start(b, w, EMPTY_STATE, w.log, 2, true, 1);
      var st := Replay(b, EMPTY_STATE, w.log);
      && ok && v.running && v.accepted && v.faults == [] && v.st.assignments == st.assignments && v.st.counters == Counters(0, 0, 0, 0)
      && v.st.ev == st.ev.(observations := map[], sources := Floored(st.ev.sources))
  {
    hide Replay, Decodable, LiveSet, Floored;
    var st := Replay(b, EMPTY_STATE, w.log);
    ReplayKeepsCounters(b, EMPTY_STATE, w.log);
    NoneLive(st);
    RebuildKeepsAssignments(st);
    var begun := Begun(b, w, EMPTY_STATE, w.log, 2);
    assert LiveSet(begun.st) == LiveSet(st) by { LiveSetReads(begun.st, st); }
    NoneLive(begun.st);
  }

  lemma LiveSetReads(s: State, t: State)
    requires s.assignments == t.assignments
    ensures LiveSet(s) == LiveSet(t)
  {
  }

  /** The deployment after a crash and a restart, when nothing was live. */
  lemma Rebooted(b: Bounds, es: seq<Event>, gen: nat)
    requires
      var w := RunAll(b, EMPTY_WORLD, es);
      w.running && Stocked(w.st, gen) && LiveSet(w.st) == {} && Startable(b, w)
    ensures
      var w, v := RunAll(b, EMPTY_WORLD, es), RunAll(b, EMPTY_WORLD, es + [CrashAt(99), AGAIN]);
      && v.running && v.accepted && v.faults == [] && Stocked(v.st, gen) && Conservative(v.st)
      && v.st.counters == Counters(0, 0, 0, 0) && v.st.assignments == w.st.assignments
  {
    hide RunAll, Replay, Decodable, Start, Consistent, LiveSet, Conservative;
    var w := RunAll(b, EMPTY_WORLD, es);
    RunsTwice(b, EMPTY_WORLD, es, CrashAt(99), AGAIN);
    ReplayRefinesEveryRun(b, es);
    ReplayMatches(b, w);
    var crashed := Crash(w, 99).(faults := []);
    assert crashed.log == w.log;
    LiveSetReads(w.st, Replay(b, EMPTY_STATE, w.log));
    StartedIdle(b, crashed);
    RestartIsConservative(b, crashed, EMPTY_STATE, w.log, 2, true, 1);
  }

  /** A claim on a conservative restart is placed under the first identifier. */
  lemma ClaimAfterRestart(b: Bounds, w: World)
    requires w.running && w.accepted && w.faults == [] && Stocked(w.st, 1) && Conservative(w.st)
    requires w.st.counters == Counters(0, 0, 0, 0) && |w.st.assignments| < 49
    ensures
      var v := Next(b, w, Supply(Claim(1, 7, PerClass, 1, 1)));
      1 in v.st.assignments && HoldsAuthority(v.st.assignments[1].state) && v.st.ev == w.st.ev
  {
    hide Next, Insert, RecordOf, CapacityAdmits, ScopeConflict;
    var plan := Claim(1, 7, PerClass, 1, 1);
    WeightlessFits();
    NoClaimsNoConflict(w.st.index, 7, 1, PerClass, 0);
    SuppliedStores(b, w, 1, plan);
    RecordFacts(b, w.st, plan);
    InsertFrame(w.st.(counters := NextCounters(w.st.counters)), RecordOf(b, w.st, plan));
  }

  const UNHEARD := SETUP + [CrashAt(99), AGAIN]

  /** A run in which a supplied plan gains authority although neither the topology nor the policy it
      rests on was accepted since the restart. */
  lemma SuppliedPlanIsPlacedUnheard(b: Bounds)
    ensures
      var w, v := RunAll(b, EMPTY_WORLD, UNHEARD), RunAll(b, EMPTY_WORLD, UNHEARD + [Supply(Claim(1, 7, PerClass, 1, 1))]);
      Conservative(w.st) && Unheard(w.st.ev) && Unheard(v.st.ev) && !NoHolders(v.st.assignments)
  {
    hide RunAll, Next, Conservative, Unheard, Stocked, LiveSet, Startable;
    SetupStarts(b);
    RunsThen(b, EMPTY_WORLD, UNHEARD, Supply(Claim(1, 7, PerClass, 1, 1)));
    Rebooted(b, SETUP, 1);
    ClaimAfterRestart(b, RunAll(b, EMPTY_WORLD, UNHEARD));
    ConservativeIsUnheard(RunAll(b, EMPTY_WORLD, UNHEARD).st);
  }

  lemma SetupStarts(b: Bounds)
    ensures
      var w := RunAll(b, EMPTY_WORLD, SETUP);
      w.running && w.st.assignments == map[] && LiveSet(w.st) == {} && Stocked(w.st, 1) && Startable(b, w)
  {
    hide RunAll, Exclusively;
    SetUp(b);
  }

  lemma ConservativeIsUnheard(st: State)
    requires Conservative(st)
    ensures Unheard(st.ev)
  {
  }

  const REVOKED := FIRST + [Operate(RevokeOne(0, 1, Reason.Revoked, 0, false), 1, [])]
  const FORGOTTEN := REVOKED + [CrashAt(99), AGAIN]

  lemma AfterRevoked(b: Bounds)
    ensures
      var w := RunAll(b, EMPTY_WORLD, REVOKED);
      w.running && Stocked(w.st, 1) && w.st.assignments.Keys == {1} && w.st.assignments[1].state.Revoked? && Startable(b, w)
  {
    hide RunAll, Next, RecordOf, Exclusively;
    SetUp(b);
    AfterFirst(b);
    AfterSetup(b);
    var w, w0 := RunAll(b, EMPTY_WORLD, FIRST), RunAll(b, EMPTY_WORLD, SETUP);
    ClaimPlaced(b, SETUP, 1, Claim(1, 7, PerClass, 1, 1));
    RunsThen(b, EMPTY_WORLD, FIRST, Operate(RevokeOne(0, 1, Reason.Revoked, 0, false), 1, []));
    RecordDecodes(b, w0.st, Claim(1, 7, PerClass, 1, 1));
    RevokedOnce(b, w);
  }

  lemma RecordDecodes(b: Bounds, st: State, plan: Plan)
    requires Small(st)
    ensures |RecordOf(b, st, plan).history| <= b.maxHistory && |RecordOf(b, st, plan).effects| <= b.maxEffects
  {
  }

  lemma RevokedOnce(b: Bounds, w: World)
    requires w.running && w.accepted && w.faults == [] && w.st.assignments.Keys == {1} && FirstClaim(w.st.assignments[1])
    requires w.st.assignments[1].state.Dispatched?
    ensures
      var v, moved := Next(b, w, Operate(RevokeOne(0, 1, Reason.Revoked, 0, false), 1, [])), Moved(b, w.st.assignments[1], Lifecycle.Revoked, Reason.Revoked, 1);
      && v.running && v.st.assignments == map[1 := moved] && moved.state.Revoked? && v.st.ev == w.st.ev && v.st.epoch == w.st.epoch
      && v.log == w.log + [AssignmentStored(moved, 0, OfRevoke(1, Reason.Revoked))]
      && |moved.history| <= b.maxHistory && |moved.effects| <= b.maxEffects
  {
    hide Insert, Moved, Put;
    var moved := Moved(b, w.st.assignments[1], Lifecycle.Revoked, Reason.Revoked, 1);
    assert w.(faults := []) == w;
    MovedKeepsShape(b, w.st.assignments[1], Lifecycle.Revoked, Reason.Revoked);
    PutQuietly(b, w, moved, OfRevoke(1, Reason.Revoked), 1);
    InsertFrame(w.st, moved);
  }

  /** A run that brings a revoked assignment back: after the restart nothing live has a higher
      identifier, so the next placement takes the revoked one. */
  lemma RevokedIdentifierReturns(b: Bounds)
    ensures
      var w, v := RunAll(b, EMPTY_WORLD, FORGOTTEN), RunAll(b, EMPTY_WORLD, FORGOTTEN + [Supply(Claim(1, 7, PerClass, 1, 1))]);
      w.running && Finished(w.st.assignments, 1) && 1 in v.st.assignments && HoldsAuthority(v.st.assignments[1].state)
  {
    hide RunAll, Next, Startable, Stocked, Conservative;
    AfterRevoked(b);
    assert LiveSet(RunAll(b, EMPTY_WORLD, REVOKED).st) == {};
    Rebooted(b, REVOKED, 1);
    RunsThen(b, EMPTY_WORLD, FORGOTTEN, Supply(Claim(1, 7, PerClass, 1, 1)));
    var w := RunAll(b, EMPTY_WORLD, FORGOTTEN);
    assert |w.st.assignments| == |w.st.assignments.Keys|;
    ClaimAfterRestart(b, w);
  }

  // ---- Withdrawn grants ----------------------------------------------------------------------------------

  const PLACING := Grant(9, 1, {1, 4}, {Nic}, {Place}, 0, 0, {}, 1000, Provenance(1, 1), FRESH, false, 0, 0)
  const ISSUED := AuthorityGranted(PLACING)
  const TAKEN_BACK := Record.AuthorityWithdrawn(9, Reason.AuthorityWithdrawn, 1)

  /** A claim that names the grant. */
  const NAMING := Claim(1, 7, PerClass, 1, 1).(authority := 9)
  const WITHDRAWN := SETUP + [Tell(ISSUED), Tell(TAKEN_BACK)]

  lemma IssuedAndTakenBack(b: Bounds, st: State)
    requires Evident(st, 1) && b.maxGrants > 0
    ensures EvidenceCheck(b, st, ISSUED) == Success(false)
    ensures EvidenceCheck(b, Learn(st, ISSUED), TAKEN_BACK) == Success(false)
    ensures
      var after := Learn(Learn(st, ISSUED), TAKEN_BACK);
      && Withdrawn(after, 9) && Stocked(after, 1) && after.assignments == st.assignments && after.index == st.index
      && after.counters == st.counters && after.epoch == st.epoch && after.table == st.table
      && after.ev == Learn(st, ISSUED).ev && Learn(st, ISSUED).assignments == st.assignments
  {
  }

  /** A run in which a supplied plan puts a record under a grant that was withdrawn before. */
  lemma WithdrawnGrantIsNamed(b: Bounds)
    requires b.maxGrants > 0
    ensures
      var w, v := RunAll(b, EMPTY_WORLD, WITHDRAWN), RunAll(b, EMPTY_WORLD, WITHDRAWN + [Supply(NAMING)]);
      OutOfForce(w.st, 9) && Withdrawn(v.st, 9) && !Unused(v.st.assignments, 9)
  {
    var w0 := RunAll(b, EMPTY_WORLD, SETUP);
    hide RunAll, Next, EvidenceCheck, LearnEvidence, ApplyGrants, EvidenceCurrent, Exclusively, RecordOf, Insert, ScopeConflict, CapacityAdmits;
    SetUp(b);
    IssuedAndTakenBack(b, w0.st);
    RunsTwice(b, EMPTY_WORLD, SETUP, Tell(ISSUED), Tell(TAKEN_BACK));
    Told(b, w0, ISSUED);
    var w1 := Next(b, w0, Tell(ISSUED));
    Told(b, w1, TAKEN_BACK);
    var w := RunAll(b, EMPTY_WORLD, WITHDRAWN);
    RunsThen(b, EMPTY_WORLD, WITHDRAWN, Supply(NAMING));
    WeightlessFits();
    NoClaimsNoConflict(w.st.index, 7, 1, PerClass, 0);
    SuppliedStores(b, w, 1, NAMING);
    RecordFacts(b, w.st, NAMING);
    var t, a := w.st.(counters := NextCounters(w.st.counters)), RecordOf(b, w.st, NAMING);
    InsertFrame(t, a);
    assert Insert(t, a).grants[9].(used := 0) == t.grants[9].(used := 0);
  }

  function Forfeited(): seq<Event> { WeakenedRun(9) + [Tell(ISSUED), Tell(TAKEN_BACK)] }

  /** A run in which an Applied report on a degraded record gives authority back under a withdrawn grant. */
  lemma WithdrawnGrantIsRevived(b: Bounds)
    requires b.maxGrants > 0
    ensures
      var w, v := RunAll(b, EMPTY_WORLD, Forfeited()), RunAll(b, EMPTY_WORLD, Forfeited() + [ReportOn(Applied)]);
      OutOfForce(w.st, 9) && Withdrawn(v.st, 9) && !Unused(v.st.assignments, 9)
  {
    var w0 := RunAll(b, EMPTY_WORLD, WeakenedRun(9));
    hide RunAll, Next, Ready, Weightless, LivenessStage, WatchedClaim, OutOfForce, Withdrawn, Unused, Learn, EvidenceCheck, Stocked;
    AfterWeakened(b, 9);
    StillDegraded(b, w0);
    RunsTwice(b, EMPTY_WORLD, WeakenedRun(9), Tell(ISSUED), Tell(TAKEN_BACK));
    RunsThen(b, EMPTY_WORLD, Forfeited(), ReportOn(Applied));
    RevivedUnderWithdrawn(b, RunAll(b, EMPTY_WORLD, Forfeited()));
  }

  lemma StillDegraded(b: Bounds, w: World)
    requires Ready(w, 1) && b.maxGrants > 0 && w.st.assignments.Keys == {1} && WatchedClaim(w.st.assignments[1]) && w.st.assignments[1].state.Degraded?
    requires w.st.epoch.counter == 1 && LivenessStage(w.st.ev, 1, Incarnation(1, 1), 1) == LivenessDegraded
    ensures
      var v := Next(b, Next(b, w, Tell(ISSUED)), Tell(TAKEN_BACK));
      && v.running && v.accepted && v.faults == [] && OutOfForce(v.st, 9) && v.st.assignments == w.st.assignments && v.st.epoch.counter == 1
  {
    hide Next, EvidenceCheck, LivenessStage, LearnEvidence, ApplyGrants, EvidenceCurrent, Exclusively, LiveSet, Demotion, Fresh, Plain;
    IssuedAndTakenBack(b, w.st);
    GrantOnlyLearned(b, w);
    GrantKeepsWatch(w.st);
    var w1 := Next(b, w, Tell(ISSUED));
    OneLive(w.st);
    LiveSetReads(w.st, w1.st);
    DegradedIsNoticed(Learn(w1.st, TAKEN_BACK), w.st.assignments[1]);
    ToldUnmoved(b, w1, TAKEN_BACK, 1);
  }

  lemma GrantOnlyLearned(b: Bounds, w: World)
    requires w.running && w.accepted && EvidenceCheck(b, w.st, ISSUED) == Success(false)
    ensures Next(b, w, Tell(ISSUED)) == w.(faults := [], log := w.log + [ISSUED], st := Learn(w.st, ISSUED))
  {
    hide EvidenceCheck, Learn;
  }

  lemma GrantKeepsWatch(st: State)
    requires Evident(st, 1)
    ensures LivenessStage(Learn(st, ISSUED).ev, 1, Incarnation(1, 1), 1) == LivenessStage(st.ev, 1, Incarnation(1, 1), 1)
    ensures Fresh(Learn(st, ISSUED).ev)
  {
    EvidentIsFresh(st);
    var key := SourceKey(1, AuthorityEvidence);
    var now := Learn(st, ISSUED).ev;
    assert now == st.ev.(sources := st.ev.sources[key := now.sources[key]]);
    hide LearnEvidence, Evident;
    AuthorityAside(st.ev, now, now.sources[key]);
  }

  /** Only the source of grants was heard. */
  lemma AuthorityAside(ev: Evidence, now: Evidence, s: SourceState)
    requires now == ev.(sources := ev.sources[SourceKey(1, AuthorityEvidence) := s])
    ensures LivenessStage(now, 1, Incarnation(1, 1), 1) == LivenessStage(ev, 1, Incarnation(1, 1), 1)
    ensures Fresh(ev) ==> Fresh(now)
  {
    forall p: Provenance, domain: Domain | !domain.AuthorityEvidence?
      ensures EvidenceCurrent(now, p, domain) <==> EvidenceCurrent(ev, p, domain)
    {
      CurrentAside(ev, now, s, p, domain);
    }
    hide EvidenceCurrent;
  }

  lemma CurrentAside(ev: Evidence, now: Evidence, s: SourceState, p: Provenance, domain: Domain)
    requires now == ev.(sources := ev.sources[SourceKey(1, AuthorityEvidence) := s]) && !domain.AuthorityEvidence?
    ensures EvidenceCurrent(now, p, domain) <==> EvidenceCurrent(ev, p, domain)
  {
  }

  lemma RevivedUnderWithdrawn(b: Bounds, w: World)
    requires w.running && w.accepted && w.faults == [] && w.st.epoch.counter == 1 && OutOfForce(w.st, 9)
    requires 1 in w.st.assignments && WatchedClaim(w.st.assignments[1]) && w.st.assignments[1].state.Degraded? && w.st.assignments[1].authority == 9
    ensures
      var v := Next(b, w, ReportOn(Applied));
      Withdrawn(v.st, 9) && !Unused(v.st.assignments, 9)
  {
    hide Insert, EffectMatches, ReportEffect, Next, Plain;
    var r, a := ReportOn(Applied).op.report, w.st.assignments[1];
    PlainIncarnation(a, 1);
    TokenMatches(w.st, a, r);
    ReportStores(b, w, r);
    var c := WithEffect(b, a, r, 1);
    InsertFrame(w.st, c);
    assert Insert(w.st, c).assignments[1] == c && c.state.AppliedVerified? && c.authority == 9;
    assert Insert(w.st, c).grants[9].(used := 0) == w.st.grants[9].(used := 0);
  }

  // ---- Replacing a shared assignment -----------------------------------------------------------------

  const SHARED := PlanOf(1, 7, Shared, PerClass, 1, ZERO_DEMAND, 1)
  const ALONE := SETUP + [Supply(SHARED)]

  /** A replacement that leaves everything to the record it names. */
  const SAME_AGAIN := PlacementRequest(0, 0, 0, Scope(0, 0), {}, Version(0, 0), Shared, ZERO_DEMAND, [], [], [], [], [], [], 0, 0, 0, false, true)
  const REPLACING := ReplaceWith(0, 1, SAME_AGAIN, 3)

  lemma AfterAlone(b: Bounds)
    ensures
      var w := RunAll(b, EMPTY_WORLD, ALONE);
      && Ready(w, 1) && Weightless(w.st) && w.st.counters == Counters(1, 1, 1, 1) && w.st.assignments.Keys == {1}
      && w.st.index.byClass == map[] && w.st.index.byScope == map[]
      && var a := w.st.assignments[1];
         a.fn == 1 && a.cls == 1 && a.scope == Scope(7, 1) && a.exclusivity.Shared? && a.demand == ZERO_DEMAND && a.state.Dispatched?
  {
    var w := RunAll(b, EMPTY_WORLD, SETUP);
    hide RunAll, Ready, Insert, RecordOf, CapacityAdmits, Next, ScopeConflict, LivenessStage;
    AfterSetup(b);
    ReadyParts(w, 1);
    WeightlessFits();
    RunsThen(b, EMPTY_WORLD, SETUP, Supply(SHARED));
    Supplied(b, w, 1, SHARED);
    RecordFacts(b, w.st, SHARED);
    var t, a := w.st.(counters := NextCounters(w.st.counters)), RecordOf(b, w.st, SHARED);
    SharedInsert(t, a);
    WeightlessInsert(t, a, 1);
    WeightlessInsert(t, a, 2);
    InsertFrame(t, a);
    InsertKeepsRest(t, a);
    RecordSubject(b, w.st, SHARED);
  }

  lemma RecordSubject(b: Bounds, st: State, plan: Plan)
    requires Small(st)
    ensures RecordOf(b, st, plan).fn == plan.fn
  {
  }

  lemma SharedInsert(st: State, a: Assignment)
    requires a.id !in st.assignments && a.exclusivity.Shared?
    ensures Insert(st, a).index.byClass == st.index.byClass && Insert(st, a).index.byScope == st.index.byScope
  {
    hide RefreshUsage;
  }

  /** What the replacement asks for. */
  const ASKED := SAME_AGAIN.(fn := 1, cls := 1, scope := Scope(7, 1))

  function AskedContext(): Context {
    Context(FunctionDescriptor(1, 1, {}, Version(0, 0)), LaxRule(1, false), ASKED, 0, 1, 1)
  }

  lemma AskedIsPlannable(b: Bounds, st: State)
    requires Evident(st, 1) && Small(st) && Weightless(st) && st.index.byClass == map[] && st.index.byScope == map[]
    ensures Plannable(b, st, ASKED, 1, AskedContext())
    ensures forall c :: Plannable(b, st, ASKED, 1, c) ==> c == AskedContext()
  {
    hide FindRule, ListsRule, Exclusively;
    DeploymentLookups(1, 1, 1);
    RuleIs(PolicyOf(1).rules, 1);
  }

  lemma FirstIsSuitable(st: State, d: Device)
    requires Evident(st, 1) && Small(st) && Weightless(st) && d == NicDevice(1)
    ensures Suitable(st, AskedContext(), d)
  {
    var c := AskedContext();
    WeightlessFits();
    FewHolders(st.assignments, HoldersOn(st, d.id));
    RoomyIs(st, c, d);
    assert Wanted(c, d) && Capable(st, c, d);
    hide Heard, Observed, Roomy, Wanted, Capable;
  }

  /** The plan for the replacement is one the deployment passes. */
  lemma AskedIsPlanned(b: Bounds, st: State)
    requires Evident(st, 1) && Small(st) && Weightless(st) && st.index.byClass == map[] && st.index.byScope == map[]
    ensures
      var planned := PlanFor(b, st, ASKED, false, 1);
      && planned.Success? && planned.value.PlanMade?
      && AuthorizeCheck(st, planned.value.plan, OfPlan(planned.value.plan), PLAIN, 1) == Success(0)
  {
    hide PlanFor, Plannable, Suitable, NotPassedOver, AuthorizeCheck, Considered;
    AskedIsPlannable(b, st);
    FirstIsConsidered(b, st);
    FirstIsSuitable(st, NicDevice(1));
    PlannedIff(b, st, ASKED, 1);
    PlanIs(b, st, ASKED, 1);
    var plan := PlanFor(b, st, ASKED, false, 1).value.plan;
    var d :| d in Considered(b, st) && Suitable(st, AskedContext(), d) && Names(st, AskedContext(), d, plan);
    ConsideredIsNic(b, st, d);
    hide Names;
    NamedPasses(st, d, plan);
  }

  lemma FirstIsConsidered(b: Bounds, st: State)
    requires Evident(st, 1)
    ensures NicDevice(1) in Considered(b, st)
  {
    assert TOPOLOGY.devices[0] == NicDevice(1);
    assert |TOPOLOGY.devices| > b.maxCandidates ==> TOPOLOGY.devices[..b.maxCandidates][0] == NicDevice(1);
  }

  lemma ConsideredIsNic(b: Bounds, st: State, d: Device)
    requires Evident(st, 1) && d in Considered(b, st)
    ensures d == NicDevice(1) || d == NicDevice(2)
  {
  }

  lemma NamedPasses(st: State, d: Device, plan: Plan)
    requires Evident(st, 1) && Small(st) && Weightless(st) && (d == NicDevice(1) || d == NicDevice(2)) && Names(st, AskedContext(), d, plan)
    ensures AuthorizeCheck(st, plan, OfPlan(plan), PLAIN, 1) == Success(0)
  {
    WeightlessFits();
    hide AuthorizeCheck;
    PlanPasses(st, 1, plan, 0);
  }

  /** A run in which a replaced assignment keeps its authority beside its replacement. */
  lemma ReplacedSharedKeepsAuthority(b: Bounds)
    ensures
      var m := RunAll(b, EMPTY_WORLD, ALONE + [Operate(REPLACING, 1, [])]).st.assignments;
      m.Keys == {1, 2} && Holder(m[1].state) && Holder(m[2].state)
  {
    var w := RunAll(b, EMPTY_WORLD, ALONE);
    hide RunAll, Ready, PlanFor, AuthorizeCheck, NewRecord, Weightless, Evident, Exclusively, Authorize;
    AfterAlone(b);
    ReadyParts(w, 1);
    RunsThen(b, EMPTY_WORLD, ALONE, Operate(REPLACING, 1, []));
    AskedIsPlanned(b, w.st);
    var planned := PlanFor(b, w.st, ASKED, false, 1).value;
    DisplacingSucceeds(b, w, planned.plan, 0);
    ReplacingIsAuthorize(b, w, planned);
    AuthorizeStores(b, w, planned.plan, OfPlan(planned.plan), PLAIN, 1);
  }

  lemma ReplacingIsAuthorize(b: Bounds, w: World, planned: Planned)
    requires w.running && w.accepted && w.faults == [] && 1 in w.st.assignments
    requires
      var a := w.st.assignments[1];
      a.fn == 1 && a.cls == 1 && a.scope == Scope(7, 1) && a.exclusivity.Shared? && a.demand == ZERO_DEMAND
    requires planned.PlanMade? && PlanFor(b, w.st, ASKED, false, 1) == Success(planned)
    requires Authorize(b, w, planned.plan, OfPlan(planned.plan), PLAIN, 1).result.Success?
    ensures Next(b, w, Operate(REPLACING, 1, [])) == Authorize(b, w, planned.plan, OfPlan(planned.plan), PLAIN, 1).w
  {
    hide PlanFor, Authorize;
    assert w.(faults := []) == w;
    assert ReplacementOf(w.st.assignments[1], 0, SAME_AGAIN) == ASKED;
  }
}
