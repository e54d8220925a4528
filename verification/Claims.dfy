/** The derived indexes: exclusivity claims, committed demand and grant use counters, and the
    one function that moves them, `insert_assignment` (src/fabric.cpp). */
module Claims {
  import opened Units
  import opened Types
  import opened Ordered
  import opened Decisions

  // ---- The operations -----------------------------------------------------------------

  predicate ClaimsExclusively(a: Assignment) {
    a.exclusivity.Exclusive? && HoldsAuthority(a.state)
  }

  /** `acquire_claims`. */
  function Acquire(ix: Index, a: Assignment): Index {
    Index(
      if ClaimsExclusively(a) && a.exclusiveKey.PerClass? then ix.byClass[ClassKey(a.scope.id, a.cls) := a.id]
      else ix.byClass,
      if ClaimsExclusively(a) && a.exclusiveKey.PerScope? then ix.byScope[a.scope.id := a.id] else ix.byScope,
      if HoldsAuthority(a.state)
      then ix.committed[a.device := AddDemand(CommittedFor(ix.committed, a.device), a.demand)] else ix.committed)
  }

  /** `release_claims`: the demand is subtracted whether or not the record held authority. */
  function Release(ix: Index, a: Assignment): Index {
    var k := ClassKey(a.scope.id, a.cls);
    Index(
      if k in ix.byClass && ix.byClass[k] == a.id then ix.byClass - {k} else ix.byClass,
      if a.scope.id in ix.byScope && ix.byScope[a.scope.id] == a.id then ix.byScope - {a.scope.id} else ix.byScope,
      ix.committed[a.device := SubDemand(CommittedFor(ix.committed, a.device), a.demand)])
  }

  /** The live assignments that consume a grant. */
  function Users(assignments: map<Id, Assignment>, grant: Id): set<Id> {
    set id | id in assignments && HoldsAuthority(assignments[id].state) && grant != 0 && assignments[id].authority == grant
  }

  /** `refresh_authority_usage`. */
  function RefreshUsage(grants: map<Id, Grant>, assignments: map<Id, Assignment>): map<Id, Grant> {
    map g | g in grants :: grants[g].(used := |Users(assignments, g)|)
  }

  function Reindex(ix: Index, assignments: map<Id, Assignment>, a: Assignment): Index {
    Acquire(if a.id in assignments then Release(ix, assignments[a.id]) else ix, a)
  }

  /** `insert_assignment`. */
  function Insert(s: State, a: Assignment): State {
    var assignments := s.assignments[a.id := a];
    s.(assignments := assignments, index := Reindex(s.index, s.assignments, a),
       grants := RefreshUsage(s.grants, assignments))
  }

  /** What an insertion leaves alone. */
  predicate SameEvidence(s: State, t: State) {
    s.epoch == t.epoch && s.ev == t.ev && GrantsAgree(s.grants, t.grants)
  }

  /** Equal up to the derived use counter. */
  predicate GrantsAgree(g: map<Id, Grant>, h: map<Id, Grant>) {
    g.Keys == h.Keys && forall id :: id in g ==> g[id].(used := 0) == h[id].(used := 0)
  }

  lemma InsertFrame(s: State, a: Assignment)
    ensures Insert(s, a).assignments == s.assignments[a.id := a]
    ensures SameEvidence(Insert(s, a), s)
  {
    assert GrantsAgree(RefreshUsage(s.grants, s.assignments[a.id := a]), s.grants);
  }

  // ---- Exclusivity ----------------------------------------------------------------------

  /** Two assignments that must not both hold exclusive authority. The network-wide scope
      has the empty identity and is never compared. */
  predicate Overlap(a: Assignment, b: Assignment) {
    && ClaimsExclusively(a) && ClaimsExclusively(b)
    && a.scope.id == b.scope.id && a.scope.id != 0
    && (a.cls == b.cls || a.exclusiveKey.PerScope? || b.exclusiveKey.PerScope?)
  }

  /** At most one exclusive holder per scope and class, and none beside a whole-scope holder. */
  predicate MutuallyExclusive(assignments: map<Id, Assignment>) {
    forall i, j :: i in assignments && j in assignments && i != j ==> !Overlap(assignments[i], assignments[j])
  }

  predicate Keyed(assignments: map<Id, Assignment>) {
    forall id :: id in assignments ==> assignments[id].id == id && id != 0
  }

  predicate ClassEntry(assignments: map<Id, Assignment>, k: ClassKey, id: Id) {
    id in assignments && ClaimsExclusively(assignments[id]) && assignments[id].exclusiveKey.PerClass? &&
    k == ClassKey(assignments[id].scope.id, assignments[id].cls)
  }

  predicate ScopeEntry(assignments: map<Id, Assignment>, k: Id, id: Id) {
    id in assignments && ClaimsExclusively(assignments[id]) && assignments[id].exclusiveKey.PerScope? &&
    k == assignments[id].scope.id
  }

  /** Every index entry names a holder of exactly that claim. */
  predicate IndexSound(assignments: map<Id, Assignment>, ix: Index) {
    && (forall k :: k in ix.byClass ==> ClassEntry(assignments, k, ix.byClass[k]))
    && (forall k :: k in ix.byScope ==> ScopeEntry(assignments, k, ix.byScope[k]))
  }

  predicate Indexed(ix: Index, a: Assignment) {
    if a.exclusiveKey.PerClass? then
      ClassKey(a.scope.id, a.cls) in ix.byClass && ix.byClass[ClassKey(a.scope.id, a.cls)] == a.id
    else a.scope.id in ix.byScope && ix.byScope[a.scope.id] == a.id
  }

  /** Every exclusive holder on an identified scope is found by its claim. */
  predicate IndexComplete(assignments: map<Id, Assignment>, ix: Index) {
    forall id :: id in assignments && ClaimsExclusively(assignments[id]) && assignments[id].scope.id != 0 ==>
      Indexed(ix, assignments[id])
  }

  /** Soundness of the two indexes is kept by every insertion, whatever is inserted. */
  lemma InsertKeepsSound(s: State, a: Assignment)
    requires Keyed(s.assignments) && a.id != 0 && IndexSound(s.assignments, s.index)
    ensures Keyed(Insert(s, a).assignments) && IndexSound(Insert(s, a).assignments, Insert(s, a).index)
  {
    InsertFrame(s, a);
    var assignments, ix := s.assignments[a.id := a], Reindex(s.index, s.assignments, a);
    forall k | k in ix.byClass ensures ClassEntry(assignments, k, ix.byClass[k]) {
      if k in s.index.byClass { assert ClassEntry(s.assignments, k, s.index.byClass[k]); }
    }
    forall k | k in ix.byScope ensures ScopeEntry(assignments, k, ix.byScope[k]) {
      if k in s.index.byScope { assert ScopeEntry(s.assignments, k, s.index.byScope[k]); }
    }
    hide Reindex;
  }

  /** A conflicting holder other than the one being replaced: what a scan of every
      assignment would report. */
  predicate ConflictingHolder(s: State, scope: Id, cls: Class, key: KeyMode, replacing: Id, id: Id) {
    && id in s.assignments && id != replacing && ClaimsExclusively(s.assignments[id])
    && scope != 0 && s.assignments[id].scope.id == scope
    && (s.assignments[id].cls == cls || key.PerScope? || s.assignments[id].exclusiveKey.PerScope?)
  }

  /** The index lookup answers exactly what a scan of all holders would. */
  lemma ConflictLookupIsExact(s: State, scope: Id, cls: Class, key: KeyMode, replacing: Id)
    requires Keyed(s.assignments) && IndexSound(s.assignments, s.index) && IndexComplete(s.assignments, s.index)
    ensures ScopeConflict(s.index, scope, cls, key, replacing) != 0 <==>
            exists id :: ConflictingHolder(s, scope, cls, key, replacing, id)
    ensures ScopeConflict(s.index, scope, cls, key, replacing) != 0 ==>
            ConflictingHolder(s, scope, cls, key, replacing, ScopeConflict(s.index, scope, cls, key, replacing))
  {
    var found := ScopeConflict(s.index, scope, cls, key, replacing);
    if found != 0 {
      assert ConflictingHolder(s, scope, cls, key, replacing, found);
    }
    forall id | ConflictingHolder(s, scope, cls, key, replacing, id)
      ensures ScopeConflict(s.index, scope, cls, key, replacing) != 0
    {
      assert Indexed(s.index, s.assignments[id]);
      if key.PerScope? && s.assignments[id].exclusiveKey.PerClass? {
        assert s.assignments[id].cls in ClassesHeldByOthers(s.index, scope, replacing);
      }
    }
  }

  /** Inserting a record that overlaps no other holder keeps exclusivity and completeness;
      and if it overlaps one, exclusivity is lost: the condition is exact. */
  lemma InsertKeepsExclusive(s: State, a: Assignment)
    requires Keyed(s.assignments) && a.id != 0 && IndexSound(s.assignments, s.index) && IndexComplete(s.assignments, s.index)
    requires MutuallyExclusive(s.assignments)
    ensures MutuallyExclusive(Insert(s, a).assignments) <==>
            forall id :: id in s.assignments && id != a.id ==> !Overlap(a, s.assignments[id])
    ensures MutuallyExclusive(Insert(s, a).assignments) ==> IndexComplete(Insert(s, a).assignments, Insert(s, a).index)
  {
    InsertFrame(s, a);
    var t := Insert(s, a);
    if MutuallyExclusive(t.assignments) {
      forall id | id in s.assignments && id != a.id ensures !Overlap(a, s.assignments[id]) {
        assert t.assignments[a.id] == a && t.assignments[id] == s.assignments[id];
      }
      forall id | id in t.assignments && ClaimsExclusively(t.assignments[id]) && t.assignments[id].scope.id != 0
        ensures Indexed(t.index, t.assignments[id])
      {
        if id != a.id {
          assert Indexed(s.index, s.assignments[id]);
          assert !Overlap(t.assignments[a.id], t.assignments[id]);
        }
      }
    }
  }

  // ---- Committed demand -----------------------------------------------------------------

  /** What one assignment loads onto a device. */
  function Contribution(a: Assignment, device: Id, c: Component): nat {
    if HoldsAuthority(a.state) && a.device == device then a.demand.Of(c) else 0
  }

  /** The real load: the unbounded sum over all authority holders on the device. */
  ghost function Load(m: map<Id, Assignment>, device: Id, c: Component): nat {
    if m == map[] then 0
    else
      var id :| id in m;
      Contribution(m[id], device, c) + Load(m - {id}, device, c)
  }

  lemma {:induction false} LoadWithout(m: map<Id, Assignment>, id: Id, device: Id, c: Component)
    requires id in m
    ensures Load(m, device, c) == Contribution(m[id], device, c) + Load(m - {id}, device, c)
    decreases |m|
  {
    var pick :| pick in m && Load(m, device, c) == Contribution(m[pick], device, c) + Load(m - {pick}, device, c);
    if pick != id {
      LoadWithout(m - {pick}, id, device, c);
      LoadWithout(m - {id}, pick, device, c);
      assert m - {pick} - {id} == m - {id} - {pick};
    }
  }

  lemma LoadUpdate(m: map<Id, Assignment>, a: Assignment, device: Id, c: Component)
    ensures Load(m[a.id := a], device, c) ==
            Load(m, device, c) + Contribution(a, device, c) -
            (if a.id in m then Contribution(m[a.id], device, c) else 0)
  {
    var n := m[a.id := a];
    LoadWithout(n, a.id, device, c);
    assert n - {a.id} == m - {a.id};
    if a.id in m {
      LoadWithout(m, a.id, device, c);
    } else {
      assert m - {a.id} == m;
    }
  }

  lemma NoHoldersNoLoad(m: map<Id, Assignment>, device: Id, c: Component)
    requires forall id :: id in m ==> !HoldsAuthority(m[id].state)
    ensures Load(m, device, c) == 0
    decreases |m|
  {
    if m != map[] {
      var id :| id in m;
      LoadWithout(m, id, device, c);
      NoHoldersNoLoad(m - {id}, device, c);
    }
  }

  /** The accounted demand never exceeds the real load, on any device, in any component. */
  ghost predicate NeverOvercounted(s: State) {
    forall device: Id, c: Component :: CommittedFor(s.index.committed, device).Of(c) <= Load(s.assignments, device, c)
  }

  /** The accounted demand is exactly the real load. */
  ghost predicate Conserved(s: State, device: Id, c: Component) {
    CommittedFor(s.index.committed, device).Of(c) == Load(s.assignments, device, c)
  }

  /** The general law of one insertion: subtract the old demand, clamped, then add the new
      one if it holds authority, an overflowing sum being stored as zero. */
  lemma InsertCommitted(s: State, a: Assignment, device: Id, c: Component)
    ensures
      var released := if a.id in s.assignments && s.assignments[a.id].device == device
                      then SubClamped(CommittedFor(s.index.committed, device).Of(c), s.assignments[a.id].demand.Of(c))
                      else CommittedFor(s.index.committed, device).Of(c);
      CommittedFor(Insert(s, a).index.committed, device).Of(c) ==
      if HoldsAuthority(a.state) && a.device == device then AddOrZero(released, a.demand.Of(c)) else released
  {
  }

  /** However often a demand is subtracted twice, the accounting errs on one side only. */
  lemma InsertNeverOvercounts(s: State, a: Assignment)
    requires NeverOvercounted(s)
    ensures NeverOvercounted(Insert(s, a))
  {
    InsertFrame(s, a);
    forall device: Id, c: Component
      ensures CommittedFor(Insert(s, a).index.committed, device).Of(c) <= Load(Insert(s, a).assignments, device, c)
    {
      InsertCommitted(s, a, device, c);
      LoadUpdate(s.assignments, a, device, c);
      if a.id in s.assignments {
        LoadWithout(s.assignments, a.id, device, c);
      }
    }
  }

  /** When an insertion conserves: the replaced record was absent or held authority (or had
      nothing to subtract), and the new sum fits. The condition is exact. */
  predicate ConservingInsert(s: State, a: Assignment, device: Id, c: Component) {
    && (a.id in s.assignments && s.assignments[a.id].device == device ==>
          || HoldsAuthority(s.assignments[a.id].state)
          || s.assignments[a.id].demand.Of(c) == 0
          || CommittedFor(s.index.committed, device).Of(c) == 0)
    && (HoldsAuthority(a.state) && a.device == device ==>
          var before := if a.id in s.assignments then Contribution(s.assignments[a.id], device, c) else 0;
          CommittedFor(s.index.committed, device).Of(c) - before + a.demand.Of(c) <= U64_MAX)
  }

  lemma InsertConserves(s: State, a: Assignment, device: Id, c: Component)
    requires Conserved(s, device, c)
    ensures Conserved(Insert(s, a), device, c) <==> ConservingInsert(s, a, device, c)
  {
    InsertFrame(s, a);
    InsertCommitted(s, a, device, c);
    LoadUpdate(s.assignments, a, device, c);
    if a.id in s.assignments {
      LoadWithout(s.assignments, a.id, device, c);
    }
  }
}
