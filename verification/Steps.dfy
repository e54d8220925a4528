/** Every operation as a sequence of micro-steps. A micro-step is one refused or successful
    commit together with the memory change that belongs to it, so the points between
    micro-steps are exactly the points at which a crash can cut an operation short.
    Properties of whole runs are then proved once per micro-step. */
module Steps {
  import opened Units
  import opened Types
  import opened Ordered
  import opened Decisions
  import opened Claims
  import opened Machine

  datatype Micro =
    | Faulted                                                          // the store refused a commit
    | Counted(counters: Counters)                                      // tokens issued
    | Learned(r: Record)                                               // evidence committed
    | Placed(a: Assignment, vetted: bool, id: Id, fp: Fingerprint, at: int)
    | Left(target: Id, to: Lifecycle, reason: Reason, id: Id, fp: Fingerprint, at: int)
    | Reentered(target: Id, to: Lifecycle, authority: Id, id: Id, fp: Fingerprint, at: int)
    | Reported(report: EffectReport, at: int)
    | Noted(scope: Id, cls: Class, at: int)                            // reassignment, in memory
    | NoteLogged(scope: Id, cls: Class, at: int)                       // and in the journal
    | RefusalLogged(id: Id, fp: Fingerprint, code: Reason, at: int)

  function Do(b: Bounds, w: World, m: Micro): World
    requires Legal(b, w, m)
  {
    match m
    case Faulted => Fault(w)
    case Counted(c) => Raise(w, c)
    case Learned(r) => var l := Logged(w, r); l.(st := Learn(w.st, r))
    case Placed(a, _, id, fp, at) => Put(b, w, a, id, fp, at).(freshId := false, freshFence := false)
    case Left(target, to, reason, id, fp, at) => Put(b, w, Moved(b, w.st.assignments[target], to, reason, at), id, fp, at)
    case Reentered(target, to, authority, id, fp, at) =>
      Put(b, w, Rebound(b, w.st, w.st.assignments[target], to, authority, at), id, fp, at).(freshFence := false)
    case Reported(r, at) => PutEffect(b, w, r, WithEffect(b, w.st.assignments[r.assignment], r, at), at)
    case Noted(scope, cls, at) => NoteInMemory(b, w, scope, cls, at)
    case NoteLogged(scope, cls, at) => Logged(w, ReassignmentRecorded(scope, cls, at))
    case RefusalLogged(id, fp, code, at) => PutRefusal(b, w, id, fp, code, at)
  }

  /** An effect report that passes every check of `report_effect`. */
  predicate Acceptable(st: State, a: Assignment, r: EffectReport) {
    && EffectMatches(st, a, r) == Reason.Ok
    && !(exists i :: 0 <= i < |a.effects| && SameEffect(a.effects[i], r))
    && !IsTerminal(a.state)
    && (r.outcome.Applied? ==> a.state.Dispatched? || a.state.Acknowledged? || a.state.Degraded?)
  }

  /** A freshly placed record carries the tokens just issued. */
  predicate FreshRecord(b: Bounds, st: State, a: Assignment) {
    && a.id == st.counters.ordinal && a.id != 0
    && a.state.Dispatched? && a.effects == [] && |a.history| <= b.maxHistory
    && a.fence == Fence(st.epoch.counter, st.counters.fence) && a.attempt == st.counters.attempt
  }

  /** What the operation has established when it takes the micro-step. */
  predicate Legal(b: Bounds, w: World, m: Micro) {
    match m
    case Faulted => true
    case Counted(c) =>
      var k := w.st.counters;
      c.ordinal >= k.ordinal && c.lease >= k.lease && c.attempt >= k.attempt && (c.fence == k.fence || c.fence == k.fence + 1)
    case Learned(r) => IsEvidence(r) && EvidenceCheck(b, w.st, r) == Success(false)
    case Placed(a, vetted, _, _, _) =>
      FreshRecord(b, w.st, a) && w.freshId && w.freshFence &&
      (vetted && a.exclusivity.Exclusive? ==> ScopeConflict(w.st.index, a.scope.id, a.cls, a.exclusiveKey, 0) == 0)
    case Left(target, to, _, _, _, _) =>
      target in w.st.assignments &&
      (to.Revoked? || (!IsTerminal(w.st.assignments[target].state) && (to.Superseded? || to.Suspended? || to.Degraded?)))
    case Reentered(target, to, _, _, _, _) =>
      w.freshFence && target in w.st.assignments && (to.Dispatched? || to.Degraded?) &&
      (w.st.assignments[target].state.Suspended? || w.st.assignments[target].state.Degraded?)
    case Reported(r, _) => r.assignment in w.st.assignments && Acceptable(w.st, w.st.assignments[r.assignment], r)
    case Noted(_, _, _) => true
    case NoteLogged(_, _, _) => true
    case RefusalLogged(id, _, _, _) => id != 0
  }

  /** The micro-steps that can put a record under authority, and traces without them. */
  predicate MayGain(m: Micro) { m.Placed? || m.Reentered? || m.Reported? }

  predicate Quiet(tr: seq<Micro>) { forall i :: 0 <= i < |tr| ==> !MayGain(tr[i]) }

  /** The record a micro-step stores, if any. */
  function Written(b: Bounds, w: World, m: Micro): Option<Assignment>
    requires Legal(b, w, m)
  {
    match m
    case Placed(a, _, _, _, _) => Some(a)
    case Left(target, to, reason, _, _, at) => Some(Moved(b, w.st.assignments[target], to, reason, at))
    case Reentered(target, to, authority, _, _, at) => Some(Rebound(b, w.st, w.st.assignments[target], to, authority, at))
    case Reported(r, at) => Some(WithEffect(b, w.st.assignments[r.assignment], r, at))
    case _ => None
  }

  /** What `t` shares with `s` after `a` was inserted into it. */
  predicate InsertedInto(s: State, a: Assignment, t: State) {
    && t.assignments == Insert(s, a).assignments && t.index == Insert(s, a).index
    && t.counters == s.counters && t.ev == s.ev && t.epoch == s.epoch
  }

  lemma PutInserts(b: Bounds, w: World, a: Assignment, id: Id, fp: Fingerprint, at: int)
    ensures InsertedInto(w.st, a, Put(b, w, a, id, fp, at).st)
    ensures Put(b, w, a, id, fp, at).freshId == w.freshId && Put(b, w, a, id, fp, at).freshFence == w.freshFence
  {
    hide Reindex, RefreshUsage;
  }

  lemma PutEffectInserts(b: Bounds, w: World, r: EffectReport, a: Assignment, at: int)
    ensures InsertedInto(w.st, a, PutEffect(b, w, r, a, at).st)
    ensures PutEffect(b, w, r, a, at).freshId == w.freshId && PutEffect(b, w, r, a, at).freshFence == w.freshFence
  {
    hide Reindex, RefreshUsage;
  }

  /** A micro-step inserts the record it stores and otherwise leaves assignments and claims alone. */
  lemma DoWrites(b: Bounds, w: World, m: Micro)
    requires Legal(b, w, m)
    ensures Written(b, w, m).Some? ==> InsertedInto(w.st, Written(b, w, m).value, Do(b, w, m).st)
    ensures Written(b, w, m).None? ==> Do(b, w, m).st.assignments == w.st.assignments && Do(b, w, m).st.index == w.st.index
    ensures !m.Learned? ==> Do(b, w, m).st.ev == w.st.ev
    ensures !m.Counted? ==> Do(b, w, m).st.counters == w.st.counters
    ensures Do(b, w, m).freshId == if m.Placed? then false else if m.Counted? then Raise(w, m.counters).freshId else w.freshId
  {
    hide Put, PutEffect, Moved, Rebound, WithEffect, Insert, LearnEvidence, ApplyGrants, ScopeConflict, EffectMatches, Acceptable, InsertedInto;
    match m
    case Placed(a, _, id, fp, at) => PutInserts(b, w, a, id, fp, at); Tokenless(w.st, a, Put(b, w, a, id, fp, at).st, Do(b, w, m).st);
    case Left(target, to, reason, id, fp, at) =>
      PutInserts(b, w, Moved(b, w.st.assignments[target], to, reason, at), id, fp, at);
      Tokenless(w.st, Written(b, w, m).value, Do(b, w, m).st, Do(b, w, m).st);
    case Reentered(target, to, authority, id, fp, at) =>
      var a := Rebound(b, w.st, w.st.assignments[target], to, authority, at);
      PutInserts(b, w, a, id, fp, at);
      Tokenless(w.st, a, Put(b, w, a, id, fp, at).st, Do(b, w, m).st);
    case Reported(r, at) =>
      PutEffectInserts(b, w, r, WithEffect(b, w.st.assignments[r.assignment], r, at), at);
      Tokenless(w.st, Written(b, w, m).value, Do(b, w, m).st, Do(b, w, m).st);
    case _ =>
  }

  lemma Tokenless(s: State, a: Assignment, t: State, u: State)
    requires InsertedInto(s, a, t) && t == u
    ensures InsertedInto(s, a, u) && u.ev == s.ev && u.counters == s.counters
  {
  }

  predicate LegalRun(b: Bounds, w: World, tr: seq<Micro>)
    decreases |tr|
  {
    tr == [] || (Legal(b, w, tr[0]) && LegalRun(b, Do(b, w, tr[0]), tr[1..]))
  }

  function Run(b: Bounds, w: World, tr: seq<Micro>): World
    requires LegalRun(b, w, tr)
    decreases |tr|
  {
    if tr == [] then w else Run(b, Do(b, w, tr[0]), tr[1..])
  }

  /** Every step of the run satisfies a caller-visible hypothesis: the placement was vetted
      with the rule's own key mode, and an assignment that regains authority meets no
      conflicting holder in the indexes. */
  predicate Guarded(w: World, m: Micro)
  {
    match m
    case Placed(_, vetted, _, _, _) => vetted
    case Reentered(target, to, _, _, _, _) => Unconflicted(w.st, target)
    case Reported(r, _) => r.outcome.Applied? ==> Unconflicted(w.st, r.assignment)
    case _ => true
  }

  /** The check the code leaves out when an assignment regains authority: the indexes name
      no other holder that conflicts with it. */
  predicate Unconflicted(st: State, id: Id) {
    id in st.assignments && !HoldsAuthority(st.assignments[id].state) && st.assignments[id].exclusivity.Exclusive? ==>
      ScopeConflict(st.index, st.assignments[id].scope.id, st.assignments[id].cls, st.assignments[id].exclusiveKey, id) == 0
  }

  predicate GuardedRun(b: Bounds, w: World, tr: seq<Micro>)
    requires LegalRun(b, w, tr)
    decreases |tr|
  {
    tr == [] || (Guarded(w, tr[0]) && GuardedRun(b, Do(b, w, tr[0]), tr[1..]))
  }

  lemma {:induction false} RunJoins(b: Bounds, w: World, tr: seq<Micro>, more: seq<Micro>)
    requires LegalRun(b, w, tr) && LegalRun(b, Run(b, w, tr), more)
    ensures LegalRun(b, w, tr + more) && Run(b, w, tr + more) == Run(b, Run(b, w, tr), more)
    ensures GuardedRun(b, w, tr + more) <==> GuardedRun(b, w, tr) && GuardedRun(b, Run(b, w, tr), more)
    decreases |tr|
  {
    hide Do, Legal, Guarded;
    if tr == [] {
      assert tr + more == more;
    } else {
      RunJoins(b, Do(b, w, tr[0]), tr[1..], more);
      assert (tr + more)[1..] == tr[1..] + more;
    }
  }

  lemma RunOne(b: Bounds, w: World, m: Micro)
    requires Legal(b, w, m)
    ensures LegalRun(b, w, [m]) && Run(b, w, [m]) == Do(b, w, m)
    ensures GuardedRun(b, w, [m]) <==> Guarded(w, m)
  {
    assert [m][1..] == [];
    assert LegalRun(b, Do(b, w, m), []);
  }

  lemma RunThen(b: Bounds, w: World, m: Micro, tr: seq<Micro>)
    requires Legal(b, w, m) && LegalRun(b, Do(b, w, m), tr)
    ensures LegalRun(b, w, [m] + tr) && Run(b, w, [m] + tr) == Run(b, Do(b, w, m), tr)
    ensures GuardedRun(b, w, [m] + tr) <==> Guarded(w, m) && GuardedRun(b, Do(b, w, m), tr)
  {
    assert ([m] + tr)[1..] == tr;
  }
}
