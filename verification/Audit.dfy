/** The exclusivity section of `collect_invariants` (src/export.cpp): claims counted per scope and
    per class in one pass, and what a clean report means. */
module Audit {
  import opened Units
  import opened Types
  import opened Decisions
  import opened Claims
  import opened Machine
  import opened Runs
  import opened Steps
  import opened Traces
  import opened Refinement
  import opened Agreement
  import opened Capacity
  import opened Restart
  import opened Holders
  import opened Exclusion
  import opened Dormancy
  import opened Effects

  datatype Violation = ScopeUniqueness | ClassUniqueness | KeyModeMix

  function WholeHolders(m: map<Id, Assignment>, scope: Id): set<Id> {
    set id | id in m && ClaimsExclusively(m[id]) && m[id].exclusiveKey.PerScope? && m[id].scope.id == scope
  }

  function ClassHolders(m: map<Id, Assignment>, k: ClassKey): set<Id> {
    set id | id in m && ClaimsExclusively(m[id]) && m[id].exclusiveKey.PerClass? && ClassKey(m[id].scope.id, m[id].cls) == k
  }

  /** Two holders of one exclusive claim, the network-wide scope included. */
  predicate Collide(a: Assignment, c: Assignment) {
    && ClaimsExclusively(a) && ClaimsExclusively(c) && a.scope.id == c.scope.id
    && (a.cls == c.cls || a.exclusiveKey.PerScope? || c.exclusiveKey.PerScope?)
  }

  predicate NoCollision(m: map<Id, Assignment>) {
    forall i, j :: i in m && j in m && i != j ==> !Collide(m[i], m[j])
  }

  function Count<K>(counts: map<K, nat>, k: K): nat { if k in counts then counts[k] else 0 }

  function Bump<K>(counts: map<K, nat>, k: K): map<K, nat> { counts[k := Count(counts, k) + 1] }

  // ---- The counting pass --------------------------------------------------------------------

  /** The counters hold exactly the holders among `done`, and no entry is zero. */
  ghost predicate Tallied(m: map<Id, Assignment>, done: set<Id>, whole: map<Id, nat>, classes: map<ClassKey, nat>) {
    && (forall s :: Count(whole, s) == |WholeHolders(m, s) * done|)
    && (forall k :: Count(classes, k) == |ClassHolders(m, k) * done|)
    && (forall s :: s in whole ==> whole[s] > 0) && (forall k :: k in classes ==> classes[k] > 0)
  }

  lemma GrowsBy(holders: set<Id>, done: set<Id>, id: Id)
    requires id !in done
    ensures |holders * (done + {id})| == |holders * done| + if id in holders then 1 else 0
  {
    if id in holders {
      assert holders * (done + {id}) == holders * done + {id};
    } else {
      assert holders * (done + {id}) == holders * done;
    }
  }

  function BumpWhole(whole: map<Id, nat>, a: Assignment): map<Id, nat> {
    if ClaimsExclusively(a) && a.exclusiveKey.PerScope? then Bump(whole, a.scope.id) else whole
  }

  function BumpClass(classes: map<ClassKey, nat>, a: Assignment): map<ClassKey, nat> {
    if ClaimsExclusively(a) && a.exclusiveKey.PerClass? then Bump(classes, ClassKey(a.scope.id, a.cls)) else classes
  }

  lemma WholeGrows(m: map<Id, Assignment>, done: set<Id>, whole: map<Id, nat>, id: Id, s: Id)
    requires id in m && id !in done && Count(whole, s) == |WholeHolders(m, s) * done|
    ensures Count(BumpWhole(whole, m[id]), s) == |WholeHolders(m, s) * (done + {id})|
  {
    GrowsBy(WholeHolders(m, s), done, id);
  }

  lemma ClassGrows(m: map<Id, Assignment>, done: set<Id>, classes: map<ClassKey, nat>, id: Id, k: ClassKey)
    requires id in m && id !in done && Count(classes, k) == |ClassHolders(m, k) * done|
    ensures Count(BumpClass(classes, m[id]), k) == |ClassHolders(m, k) * (done + {id})|
  {
    GrowsBy(ClassHolders(m, k), done, id);
  }

  lemma TallyGrows(m: map<Id, Assignment>, done: set<Id>, whole: map<Id, nat>, classes: map<ClassKey, nat>, id: Id)
    requires Tallied(m, done, whole, classes) && id in m && id !in done
    ensures Tallied(m, done + {id}, BumpWhole(whole, m[id]), BumpClass(classes, m[id]))
  {
    hide WholeHolders, ClassHolders;
    forall s ensures Count(BumpWhole(whole, m[id]), s) == |WholeHolders(m, s) * (done + {id})| {
      WholeGrows(m, done, whole, id, s);
    }
    forall k ensures Count(BumpClass(classes, m[id]), k) == |ClassHolders(m, k) * (done + {id})| {
      ClassGrows(m, done, classes, id, k);
    }
  }

  method CountClaims(m: map<Id, Assignment>) returns (whole: map<Id, nat>, classes: map<ClassKey, nat>)
    ensures Tallied(m, m.Keys, whole, classes)
  {
    whole, classes := map[], map[];
    var done: set<Id> := {};
    assert Tallied(m, done, whole, classes) by {
      assert forall s :: WholeHolders(m, s) * done == {};
      assert forall k :: ClassHolders(m, k) * done == {};
    }
    hide *;
    while done != m.Keys
      invariant done <= m.Keys && Tallied(m, done, whole, classes)
      decreases m.Keys - done
    {
      assert exists i :: i in m.Keys && i !in done;
      var id :| id in m.Keys && id !in done;
      TallyGrows(m, done, whole, classes, id);
      whole, classes, done := BumpWhole(whole, m[id]), BumpClass(classes, m[id]), done + {id};
    }
  }

  // ---- The report -----------------------------------------------------------------------------

  predicate AtMostOnce<K>(counts: map<K, nat>) { forall k :: k in counts ==> counts[k] <= 1 }

  predicate Unmixed(whole: map<Id, nat>, classes: map<ClassKey, nat>) {
    forall s, k :: s in whole && k in classes ==> k.scope != s
  }

  method ReportRepeated<K(!new, ==)>(counts: map<K, nat>, v: Violation) returns (violations: seq<Violation>)
    ensures violations == [] <==> AtMostOnce(counts)
  {
    violations := [];
    var done: set<K> := {};
    while done != counts.Keys
      invariant done <= counts.Keys
      invariant violations == [] <==> forall k :: k in done ==> counts[k] <= 1
      decreases counts.Keys - done
    {
      assert exists i :: i in counts.Keys && i !in done;
      var k :| k in counts.Keys && k !in done;
      if counts[k] > 1 { violations := violations + [v]; }
      done := done + {k};
    }
  }

  method ReportMixed(whole: map<Id, nat>, classes: map<ClassKey, nat>) returns (violations: seq<Violation>)
    ensures violations == [] <==> Unmixed(whole, classes)
  {
    violations := [];
    var done: set<ClassKey> := {};
    while done != classes.Keys
      invariant done <= classes.Keys
      invariant violations == [] <==> forall k :: k in done ==> k.scope !in whole
      decreases classes.Keys - done
    {
      assert exists i :: i in classes.Keys && i !in done;
      var k :| k in classes.Keys && k !in done;
      if k.scope in whole { violations := violations + [KeyModeMix]; }
      done := done + {k};
    }
  }

  lemma TwoInSet(s: set<Id>)
    ensures |s| <= 1 <==> forall x, y :: x in s && y in s ==> x == y
  {
    if |s| <= 1 {
      forall x, y | x in s && y in s ensures x == y {
        if x != y {
          assert {x, y} <= s;
          SubsetSize({x, y}, s);
        }
      }
    } else {
      var x :| x in s;
      assert |s - {x}| > 0;
      var y :| y in s - {x};
    }
  }

  lemma SubsetSize(a: set<Id>, s: set<Id>)
    requires a <= s
    ensures |a| <= |s|
  {
    assert s == a + (s - a);
  }

  lemma CleanTallies(m: map<Id, Assignment>, whole: map<Id, nat>, classes: map<ClassKey, nat>)
    requires Tallied(m, m.Keys, whole, classes)
    ensures AtMostOnce(whole) && AtMostOnce(classes) && Unmixed(whole, classes) <==> NoCollision(m)
  {
    if AtMostOnce(whole) && AtMostOnce(classes) && Unmixed(whole, classes) {
      forall i, j | i in m && j in m && i != j ensures !Collide(m[i], m[j]) {
        if Collide(m[i], m[j]) { CollisionShows(m, whole, classes, i, j); }
      }
    }
    if NoCollision(m) { NoCollisionIsClean(m, whole, classes); }
  }

  lemma NoCollisionIsClean(m: map<Id, Assignment>, whole: map<Id, nat>, classes: map<ClassKey, nat>)
    requires Tallied(m, m.Keys, whole, classes) && NoCollision(m)
    ensures AtMostOnce(whole) && AtMostOnce(classes) && Unmixed(whole, classes)
  {
    forall s | s in whole ensures Count(whole, s) > 0 {}
    forall k | k in classes ensures Count(classes, k) > 0 {}
    hide Tallied, WholeHolders, ClassHolders, NoCollision;
    forall s | s in whole ensures whole[s] <= 1 && WholeHolders(m, s) != {} {
      WholeCount(m, whole, classes, s);
      LoneWhole(m, s);
    }
    forall k | k in classes ensures classes[k] <= 1 && ClassHolders(m, k) != {} {
      ClassCount(m, whole, classes, k);
      LoneClass(m, k);
    }
    forall s, k | s in whole && k in classes ensures k.scope != s { NotBoth(m, s, k); }
  }

  lemma LoneWhole(m: map<Id, Assignment>, s: Id)
    requires NoCollision(m)
    ensures |WholeHolders(m, s)| <= 1
  {
    TwoInSet(WholeHolders(m, s));
  }

  lemma LoneClass(m: map<Id, Assignment>, k: ClassKey)
    requires NoCollision(m)
    ensures |ClassHolders(m, k)| <= 1
  {
    TwoInSet(ClassHolders(m, k));
  }

  lemma NotBoth(m: map<Id, Assignment>, s: Id, k: ClassKey)
    requires NoCollision(m) && WholeHolders(m, s) != {} && ClassHolders(m, k) != {}
    ensures k.scope != s
  {
    var i :| i in WholeHolders(m, s);
    var j :| j in ClassHolders(m, k);
    assert i != j;
  }

  lemma WholeCount(m: map<Id, Assignment>, whole: map<Id, nat>, classes: map<ClassKey, nat>, s: Id)
    requires Tallied(m, m.Keys, whole, classes)
    ensures Count(whole, s) == |WholeHolders(m, s)|
  {
    assert WholeHolders(m, s) * m.Keys == WholeHolders(m, s);
  }

  lemma ClassCount(m: map<Id, Assignment>, whole: map<Id, nat>, classes: map<ClassKey, nat>, k: ClassKey)
    requires Tallied(m, m.Keys, whole, classes)
    ensures Count(classes, k) == |ClassHolders(m, k)|
  {
    assert ClassHolders(m, k) * m.Keys == ClassHolders(m, k);
  }

  lemma CountedMember<K>(counts: map<K, nat>, k: K, holders: set<Id>, i: Id)
    requires Count(counts, k) == |holders| && i in holders
    ensures k in counts
  {
  }

  lemma CountedTwice<K(!new)>(counts: map<K, nat>, k: K, holders: set<Id>, i: Id, j: Id)
    requires Count(counts, k) == |holders| && i in holders && j in holders && i != j
    ensures !AtMostOnce(counts)
  {
    TwoInSet(holders);
    CountedMember(counts, k, holders, i);
  }

  /** A colliding pair is seen by one of the three checks. */
  lemma CollisionShows(m: map<Id, Assignment>, whole: map<Id, nat>, classes: map<ClassKey, nat>, i: Id, j: Id)
    requires Tallied(m, m.Keys, whole, classes) && i in m && j in m && i != j && Collide(m[i], m[j])
    ensures !(AtMostOnce(whole) && AtMostOnce(classes) && Unmixed(whole, classes))
  {
    hide Tallied, AtMostOnce, Count;
    var s := m[i].scope.id;
    var ki, kj := ClassKey(s, m[i].cls), ClassKey(s, m[j].cls);
    WholeCount(m, whole, classes, s);
    ClassCount(m, whole, classes, ki);
    ClassCount(m, whole, classes, kj);
    if m[i].exclusiveKey.PerScope? && m[j].exclusiveKey.PerScope? {
      CountedTwice(whole, s, WholeHolders(m, s), i, j);
    } else if m[i].exclusiveKey.PerScope? {
      CountedMember(whole, s, WholeHolders(m, s), i);
      CountedMember(classes, kj, ClassHolders(m, kj), j);
    } else if m[j].exclusiveKey.PerScope? {
      CountedMember(whole, s, WholeHolders(m, s), j);
      CountedMember(classes, ki, ClassHolders(m, ki), i);
    } else {
      CountedTwice(classes, ki, ClassHolders(m, ki), i, j);
    }
  }

  /** The report is clean exactly when no two exclusive holders collide. */
  method AuditExclusivity(m: map<Id, Assignment>) returns (violations: seq<Violation>)
    ensures violations == [] <==> NoCollision(m)
  {
    hide *;
    var whole, classes := CountClaims(m);
    CleanTallies(m, whole, classes);
    var a := ReportRepeated(whole, ScopeUniqueness);
    var b := ReportRepeated(classes, ClassUniqueness);
    var c := ReportMixed(whole, classes);
    violations := a + b + c;
  }

  // ---- The network-wide scope ---------------------------------------------------------------------

  /** No two holders collide on the network-wide scope. */
  predicate NetworkApart(m: map<Id, Assignment>) {
    forall i, j :: i in m && j in m && i != j && m[i].scope.id == 0 ==> !Collide(m[i], m[j])
  }

  /** No network-wide holder other than `but` stands in the way of a claim. */
  predicate NetworkClear(m: map<Id, Assignment>, cls: Class, key: KeyMode, but: Id) {
    forall id :: id in m && id != but && ClaimsExclusively(m[id]) && m[id].scope.id == 0 ==>
      m[id].cls != cls && key.PerClass? && m[id].exclusiveKey.PerClass?
  }

  /** The code never compares network-wide claims: an accepted plan for that scope leaves the report
      clean exactly when no network-wide holder stood in its way. */
  lemma NetworkPlacementIsCleanIff(b: Bounds, w: World, plan: Plan, digest: Fingerprint, opts: Options, at: int)
    requires NetworkApart(w.st.assignments) && Keyed(w.st.assignments) && !HoldsBefore(w, w.st.counters.ordinal + 1)
    requires plan.exclusivity.Exclusive? && plan.scope.id == 0 && Authorize(b, w, plan, digest, opts, at).result.Success?
    ensures NetworkApart(Authorize(b, w, plan, digest, opts, at).w.st.assignments) <==>
            NetworkClear(w.st.assignments, plan.cls, plan.exclusiveKey, 0)
  {
    hide Authorize, AuthorizeCheck;
    AuthorizeStores(b, w, plan, digest, opts, at);
    AuthorizeFacts(w.st, plan, digest, opts, at);
    var a, m := Authorize(b, w, plan, digest, opts, at).result.value, w.st.assignments;
    var n := m[a.id := a];
    assert Authorize(b, w, plan, digest, opts, at).w.st.assignments == n;
    if NetworkApart(n) {
      forall id | id in m && id != 0 && ClaimsExclusively(m[id]) && m[id].scope.id == 0
        ensures m[id].cls != plan.cls && plan.exclusiveKey.PerClass? && m[id].exclusiveKey.PerClass?
      {
        assert !Collide(n[a.id], n[id]);
      }
    }
  }

  /** The class and key mode of the exclusive network-wide claim an operation would take up. */
  function NetworkClaim(st: State, op: Operation): Option<(Class, KeyMode)> {
    match op
    case ApplyRequest(req, _) => RequestClaim(st, req)
    case ApplyPlanned(planned, _, _) =>
      if planned.PlanMade? && planned.plan.exclusivity.Exclusive? && planned.plan.scope.id == 0
      then Some((planned.plan.cls, planned.plan.exclusiveKey)) else None
    case ReplaceWith(id, current, placement, _) =>
      if current in st.assignments then RequestClaim(st, ReplacementOf(st.assignments[current], id, placement)) else None
    case ReauthorizeOne(_, id, _) => RecordClaim(st, id)
    case Report(r) => RecordClaim(st, r.assignment)
    case _ => None
  }

  function RequestClaim(st: State, req: PlacementRequest): Option<(Class, KeyMode)> {
    if req.exclusivity.Exclusive? && req.scope.id == 0 && st.ev.policy.Some? && FindRule(st.ev.policy.value.rules, req.cls).Some?
    then Some((req.cls, FindRule(st.ev.policy.value.rules, req.cls).value.exclusiveKey)) else None
  }

  function RecordClaim(st: State, id: Id): Option<(Class, KeyMode)> {
    if id in st.assignments && st.assignments[id].exclusivity.Exclusive? && st.assignments[id].scope.id == 0
    then Some((st.assignments[id].cls, st.assignments[id].exclusiveKey)) else None
  }

  /** The record an operation is about, 0 for a new one. */
  function Subject(op: Operation): Id {
    match op
    case ReauthorizeOne(_, id, _) => id
    case Report(r) => r.assignment
    case _ => 0
  }

  /** The caller's hypothesis: no network-wide holder stands in the operation's way. */
  predicate Apart(w: World, e: Event) {
    e.Operate? && NetworkClaim(w.st, e.op).Some? ==>
      NetworkClear(w.st.assignments, NetworkClaim(w.st, e.op).value.0, NetworkClaim(w.st, e.op).value.1, Subject(e.op))
  }

  predicate AllApart(b: Bounds, w: World, es: seq<Event>) { forall i :: 0 <= i < |es| ==> Apart(RunAll(b, w, es[..i]), es[i]) }

  lemma AppliedClaim(b: Bounds, w: World, req: PlacementRequest, opts: Options, at: int)
    requires Keyed(w.st.assignments) && !Known(w.st, req.requestId) && ApplyLocked(b, w, req, opts, at).result.Success?
    ensures
      var a := ApplyLocked(b, w, req, opts, at).result.value;
      a.exclusivity.Exclusive? && a.scope.id == 0 ==> RequestClaim(w.st, req) == Some((a.cls, a.exclusiveKey))
  {
    hide ApplyLocked, PlanFor, Authorize;
    ApplyIsAuthorize(b, w, req, opts, at);
    OwnPlanClaims(b, w.st, req, at);
    var planned := PlanFor(b, w.st, req, false, at).value;
    PlacementShrinks(b, w, planned.plan, OfPlan(planned.plan), OwnOptions(req, opts, planned.replace), at);
  }

  /** What gains authority gains the claim the operation announced. */
  lemma GainedClaim(b: Bounds, w: World, op: Operation, at: int)
    requires Sound(w.st) && Gained(b, w, op, at).Some?
    ensures
      var a := Gained(b, w, op, at).value;
      && (Subject(op) == 0 || a.id == Subject(op))
      && (a.exclusivity.Exclusive? && a.scope.id == 0 ==> NetworkClaim(w.st, op) == Some((a.cls, a.exclusiveKey)))
  {
    hide ApplyLocked, ApplyPlan, ReauthorizeAssignment, ReportEffect, RevokeAssignment, Acceptable, ReauthorizeCheck, RequestClaim;
    SoundMeansKeyed(w.st);
    match op
    case ApplyRequest(req, opts) => AppliedClaim(b, w, req, opts, at);
    case ApplyPlanned(planned, digest, opts) =>
      PlanIsAuthorize(b, w, planned, digest, opts, at);
      PlacementShrinks(b, w, planned.plan, digest, PlanOptions(planned, opts), at);
    case ReplaceWith(id, current, placement, cancelFrom) =>
      if current in w.st.assignments {
        AppliedClaim(b, w, ReplacementOf(w.st.assignments[current], id, placement), Options(id, true, cancelFrom), at);
      }
    case ReauthorizeOne(id, target, authority) => ReauthorizeWrites(b, w, id, target, authority, at);
    case Report(r) => ReportWrites(b, w, r, at);
    case _ =>
  }

  lemma ApartStep(m: map<Id, Assignment>, n: map<Id, Assignment>, gained: Option<Assignment>, but: Id)
    requires NetworkApart(m) && Keyed(n) && Accounted(m, n, gained)
    requires gained.Some? && gained.value.exclusivity.Exclusive? && gained.value.scope.id == 0 ==>
               NetworkClear(m, gained.value.cls, gained.value.exclusiveKey, but) && (but == 0 || but == gained.value.id)
    requires 0 !in m
    ensures NetworkApart(n)
  {
    forall i, j | i in n && j in n && i != j && n[i].scope.id == 0 ensures !Collide(n[i], n[j]) {
      if gained.None? || (i != gained.value.id && j != gained.value.id) {
        assert i in m && j in m && m[i].scope.id == 0 ==> !Collide(m[i], m[j]);
      }
    }
  }

  lemma ApartAfter(b: Bounds, w: World, op: Operation, at: int)
    requires Sound(w.st) && NetworkApart(w.st.assignments) && Apart(w, Operate(op, at, w.faults))
    ensures NetworkApart(Exec(b, w, op, at).st.assignments)
  {
    hide Exec, Gained, NetworkApart, Shrinks, NetworkClear, NetworkClaim;
    HoldersChange(b, w, op, at);
    if Gained(b, w, op, at).Some? { GainedClaim(b, w, op, at); }
    ExecKeepsSound(b, w, op, at);
    ApartStep(w.st.assignments, Exec(b, w, op, at).st.assignments, Gained(b, w, op, at), Subject(op));
  }

  /** In every run whose operations meet no conflicting holder in the indexes and none on the
      network-wide scope, the exclusivity report of a running fabric is clean. */
  lemma {:induction false} ApartRunsAuditClean(b: Bounds, es: seq<Event>)
    requires AllSafe(b, EMPTY_WORLD, es) && AllApart(b, EMPTY_WORLD, es)
    ensures RunAll(b, EMPTY_WORLD, es).running ==> NoCollision(RunAll(b, EMPTY_WORLD, es).st.assignments)
  {
    hide RunAll, AllSafe, AllApart;
    CrashAnywhereExclusion(b, es);
    NetworkStaysApart(b, es);
    var w := RunAll(b, EMPTY_WORLD, es);
    if w.running {
      ExclusiveParts(w.st);
      forall i, j | i in w.st.assignments && j in w.st.assignments && i != j
        ensures !Collide(w.st.assignments[i], w.st.assignments[j])
      {
        assert !Overlap(w.st.assignments[i], w.st.assignments[j]);
      }
    }
  }

  lemma {:induction false} NetworkStaysApart(b: Bounds, es: seq<Event>)
    requires AllApart(b, EMPTY_WORLD, es)
    ensures RunAll(b, EMPTY_WORLD, es).running ==> NetworkApart(RunAll(b, EMPTY_WORLD, es).st.assignments)
  {
    hide Exec, Start, Consistent, NetworkApart, Apart;
    if es != [] {
      var before, e := es[..|es| - 1], es[|es| - 1];
      forall i | 0 <= i < |before| ensures Apart(RunAll(b, EMPTY_WORLD, before[..i]), before[i]) { assert before[..i] == es[..i]; }
      NetworkStaysApart(b, before);
      var w := RunAll(b, EMPTY_WORLD, before);
      ReplayRefinesEveryRun(b, before);
      ConsistentParts(b, w);
      match e
      case Operate(op, at, faults) =>
        if w.running {
          ApartIgnoresFaults(w, op, at, faults);
          ApartAfter(b, w.(faults := faults), op, at);
        }
      case CrashAt(_) =>
      case Boot(boot, accept, at, faults) =>
        if !w.running {
          var v := w.(faults := faults);
          StartRunsOnlyIfOk(b, v, boot, accept, at);
          if Start(b, v, EMPTY_STATE, v.log, boot, accept, at).1 {
            RestartIsConservative(b, v, EMPTY_STATE, v.log, boot, accept, at);
            RestIsApart(Start(b, v, EMPTY_STATE, v.log, boot, accept, at).0.st);
          }
        }
    }
  }

  lemma ApartIgnoresFaults(w: World, op: Operation, at: int, faults: seq<bool>)
    ensures Apart(w, Operate(op, at, faults)) <==> Apart(w.(faults := faults), Operate(op, at, faults))
  {
  }

  lemma RestIsApart(st: State)
    requires Conservative(st)
    ensures NetworkApart(st.assignments)
  {
  }
}
