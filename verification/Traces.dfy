/** The decomposition of each operation into legal micro-steps. */
module Traces {
  import opened Units
  import opened Types
  import opened Ordered
  import opened Decisions
  import opened Claims
  import opened Machine
  import opened Steps

  /** What every reachable memory satisfies, whatever was inserted. */
  predicate Sound(st: State) {
    Keyed(st.assignments) && IndexSound(st.assignments, st.index)
  }

  /** A plan's key mode is at least as narrow as the rule it will be checked under. */
  predicate Vetted(st: State, plan: Plan) {
    st.ev.policy.Some? && FindRule(st.ev.policy.value.rules, plan.cls).Some? &&
    (plan.exclusiveKey.PerScope? ==> FindRule(st.ev.policy.value.rules, plan.cls).value.exclusiveKey.PerScope?)
  }

  /** What the code leaves out for a supplied plan: once the holder it displaces is gone, the
      indexes show no other holder that conflicts with the plan's own claim. A caller can look
      this up before the call. */
  predicate Unopposed(st: State, plan: Plan, digest: Fingerprint, opts: Options, at: int) {
    AuthorizeCheck(st, plan, digest, opts, at).Success? && plan.exclusivity.Exclusive? ==>
      ScopeConflict(st.index, plan.scope.id, plan.cls, plan.exclusiveKey, AuthorizeCheck(st, plan, digest, opts, at).value) == 0
  }

  // ---- Placement -----------------------------------------------------------------------------

  /** Once the superseded holder is stored, the indexes show no conflict for the new claim. */
  lemma LeavingClearsConflict(s: State, a: Assignment, scope: Id, cls: Class, key: KeyMode, checked: KeyMode)
    requires Sound(s) && a.id in s.assignments && !HoldsAuthority(a.state)
    requires a.scope == s.assignments[a.id].scope && a.cls == s.assignments[a.id].cls
    requires key.PerScope? ==> checked.PerScope?
    requires ScopeConflict(s.index, scope, cls, checked, a.id) == 0
    ensures ScopeConflict(Insert(s, a).index, scope, cls, key, 0) == 0
  {
    var t := Insert(s, a);
    InsertFrame(s, a);
    if scope != 0 {
      assert scope in s.index.byScope ==> ScopeEntry(s.assignments, scope, s.index.byScope[scope]);
      assert scope !in t.index.byScope;
      forall c | ClassKey(scope, c) in t.index.byClass
        ensures key.PerClass? && c != cls
      {
        var k := ClassKey(scope, c);
        assert ClassEntry(s.assignments, k, s.index.byClass[k]);
        assert s.index.byClass[k] != a.id;
        assert checked.PerScope? ==> ClassesHeldByOthers(s.index, scope, a.id) == {};
      }
      assert key.PerScope? ==> ClassesHeldByOthers(t.index, scope, 0) == {};
    }
  }

  lemma AuthorizeFacts(st: State, plan: Plan, digest: Fingerprint, opts: Options, at: int)
    requires AuthorizeCheck(st, plan, digest, opts, at).Success?
    ensures st.ev.policy.Some? && FindRule(st.ev.policy.value.rules, plan.cls).Some?
    ensures plan.exclusivity.Exclusive? ==>
              AuthorizeCheck(st, plan, digest, opts, at).value == ScopeConflict(st.index, plan.scope.id, plan.cls, plan.exclusiveKey, 0)
    ensures AuthorizeCheck(st, plan, digest, opts, at).value != 0 ==> plan.exclusivity.Exclusive?
    ensures plan.exclusivity.Exclusive? ==>
              ScopeConflict(st.index, plan.scope.id, plan.cls, FindRule(st.ev.policy.value.rules, plan.cls).value.exclusiveKey,
                            AuthorizeCheck(st, plan, digest, opts, at).value) == 0
  {
    var d := BoundTarget(st, plan, digest).value;
    var rule := FindRule(st.ev.policy.value.rules, plan.cls).value;
    var replacing := ReplacedHolder(st, plan, rule, opts, at).value;
    EligibleStages(st, AuthorizeContext(st, plan, rule, replacing, at), d);
  }

  /** A holder reported by the indexes is a stored, unfinished assignment. */
  lemma ConflictIsHolder(st: State, scope: Id, cls: Class, key: KeyMode, replacing: Id)
    requires Sound(st) && ScopeConflict(st.index, scope, cls, key, replacing) != 0
    ensures
      var h := ScopeConflict(st.index, scope, cls, key, replacing);
      h in st.assignments && HoldsAuthority(st.assignments[h].state) && st.assignments[h].id == h
  {
    var h := ScopeConflict(st.index, scope, cls, key, replacing);
    if scope in st.index.byScope && st.index.byScope[scope] == h {
      assert ScopeEntry(st.assignments, scope, h);
    } else {
      var k :| k in st.index.byClass && st.index.byClass[k] == h;
      assert ClassEntry(st.assignments, k, h);
    }
  }

  lemma NewRecordIsFresh(b: Bounds, st: State, plan: Plan, opts: Options, at: int)
    requires st.counters.ordinal != 0
    ensures FreshRecord(b, st, NewRecord(b, st, plan, opts, at))
  {
  }

  lemma CreateTrace(b: Bounds, w: World, planned: State, plan: Plan, a: Assignment, opts: Options, at: int, vetted: bool) returns (tr: seq<Micro>)
    requires FreshRecord(b, w.st, a) && w.freshId && w.freshFence
    requires vetted && a.exclusivity.Exclusive? ==> ScopeConflict(w.st.index, a.scope.id, a.cls, a.exclusiveKey, 0) == 0
    ensures LegalRun(b, w, tr) && Run(b, w, tr) == Create(b, w, planned, plan, a, opts, at).w
    ensures vetted ==> GuardedRun(b, w, tr)
    ensures Create(b, w, planned, plan, a, opts, at).result.Failure? ==> Quiet(tr)
  {
    if CommitFails(w) {
      tr := [Faulted];
      RunOne(b, w, Faulted);
    } else {
      var fp := if opts.requestId == 0 then NoFingerprint else OfRequest(Rebuilt(planned, plan));
      var m := Placed(a, vetted, opts.requestId, fp, at);
      tr := [m];
      RunOne(b, w, m);
    }
  }

  lemma NoteTrace(b: Bounds, w: World, planned: State, plan: Plan, a: Assignment, opts: Options, at: int, vetted: bool) returns (tr: seq<Micro>)
    requires FreshRecord(b, w.st, a) && w.freshId && w.freshFence
    requires vetted && a.exclusivity.Exclusive? ==> ScopeConflict(w.st.index, a.scope.id, a.cls, a.exclusiveKey, 0) == 0
    ensures LegalRun(b, w, tr) && Run(b, w, tr) == NoteAndCreate(b, w, planned, plan, a, opts, at).w
    ensures vetted ==> GuardedRun(b, w, tr)
    ensures NoteAndCreate(b, w, planned, plan, a, opts, at).result.Failure? ==> Quiet(tr)
  {
    var note := Noted(plan.scope.id, plan.cls, at);
    var noted := Do(b, w, note);
    var rest: seq<Micro>;
    if CommitFails(noted) {
      rest := [Faulted];
      RunOne(b, noted, Faulted);
    } else {
      var logged := NoteLogged(plan.scope.id, plan.cls, at);
      var create := CreateTrace(b, Do(b, noted, logged), planned, plan, a, opts, at, vetted);
      rest := [logged] + create;
      RunThen(b, noted, logged, create);
    }
    RunThen(b, w, note, rest);
    tr := [note] + rest;
  }

  /** The placement after tokens are issued, superseding a holder first. */
  lemma SupersedeTrace(b: Bounds, w: World, holder: Id, plan: Plan, a: Assignment, opts: Options, at: int, checked: KeyMode) returns (tr: seq<Micro>)
    requires Sound(w.st) && holder in w.st.assignments && HoldsAuthority(w.st.assignments[holder].state)
    requires FreshRecord(b, w.st, a) && w.freshId && w.freshFence
    requires a.scope == plan.scope && a.cls == plan.cls && a.exclusiveKey == plan.exclusiveKey
    requires ScopeConflict(w.st.index, plan.scope.id, plan.cls, checked, holder) == 0
    ensures LegalRun(b, w, tr)
    ensures
      var (w2, ok) := Store(b, w, Moved(b, w.st.assignments[holder], Lifecycle.Superseded, Reason.Superseded, at), 0, NoFingerprint, at);
      && Run(b, w, tr) == (if !ok then w2 else NoteAndCreate(b, w2, w.st, plan, a, opts, at).w)
      && (!ok || NoteAndCreate(b, w2, w.st, plan, a, opts, at).result.Failure? ==> Quiet(tr))
    ensures (plan.exclusiveKey.PerScope? ==> checked.PerScope?) ==> GuardedRun(b, w, tr)
  {
    if CommitFails(w) {
      tr := [Faulted];
      RunOne(b, w, Faulted);
    } else {
      var moved := Moved(b, w.st.assignments[holder], Lifecycle.Superseded, Reason.Superseded, at);
      var leave := Left(holder, Lifecycle.Superseded, Reason.Superseded, 0, NoFingerprint, at);
      var vetted := plan.exclusiveKey.PerScope? ==> checked.PerScope?;
      InsertFrame(w.st, moved);
      if vetted {
        LeavingClearsConflict(w.st, moved, plan.scope.id, plan.cls, plan.exclusiveKey, checked);
      }
      hide Insert, NoteAndCreate, Moved, LegalRun, GuardedRun, Run, ScopeConflict;
      var rest := NoteTrace(b, Do(b, w, leave), w.st, plan, a, opts, at, vetted);
      RunThen(b, w, leave, rest);
      tr := [leave] + rest;
    }
  }

  lemma PlaceTrace(b: Bounds, w: World, plan: Plan, replacing: Id, opts: Options, at: int, checked: KeyMode) returns (tr: seq<Micro>)
    requires Sound(w.st) && w.st.counters.ordinal != 0 && w.freshId && w.freshFence
    requires replacing != 0 ==> replacing in w.st.assignments && HoldsAuthority(w.st.assignments[replacing].state)
    requires replacing == 0 && plan.exclusivity.Exclusive? ==> ScopeConflict(w.st.index, plan.scope.id, plan.cls, plan.exclusiveKey, 0) == 0
    requires replacing != 0 ==> ScopeConflict(w.st.index, plan.scope.id, plan.cls, checked, replacing) == 0
    ensures LegalRun(b, w, tr) && Run(b, w, tr) == PlaceRecord(b, w, plan, replacing, opts, at).w
    ensures PlaceRecord(b, w, plan, replacing, opts, at).result.Failure? ==> Quiet(tr)
    ensures (plan.exclusiveKey.PerScope? ==> checked.PerScope?) ==> GuardedRun(b, w, tr)
  {
    var a := NewRecord(b, w.st, plan, opts, at);
    NewRecordIsFresh(b, w.st, plan, opts, at);
    if replacing != 0 {
      tr := SupersedeTrace(b, w, replacing, plan, a, opts, at, checked);
    } else {
      tr := CreateTrace(b, w, w.st, plan, a, opts, at, true);
    }
  }

  /** What a passed check says about the indexes; `checked` is the rule's key mode. */
  predicate CheckedClaims(st: State, plan: Plan, replacing: Id, checked: KeyMode) {
    && (replacing == 0 && plan.exclusivity.Exclusive? ==> ScopeConflict(st.index, plan.scope.id, plan.cls, plan.exclusiveKey, 0) == 0)
    && (replacing != 0 ==> replacing in st.assignments && HoldsAuthority(st.assignments[replacing].state))
    && (replacing != 0 ==> ScopeConflict(st.index, plan.scope.id, plan.cls, checked, replacing) == 0)
  }

  /** Issuing tokens, then whatever follows. */
  lemma CountThen(b: Bounds, w: World, c: Counters, rest: seq<Micro>)
    requires Legal(b, w, Counted(c)) && LegalRun(b, Raise(w, c), rest)
    ensures LegalRun(b, w, [Counted(c)] + rest) && Run(b, w, [Counted(c)] + rest) == Run(b, Raise(w, c), rest)
    ensures GuardedRun(b, w, [Counted(c)] + rest) <==> GuardedRun(b, Raise(w, c), rest)
  {
    RunThen(b, w, Counted(c), rest);
  }

  lemma AuthorizeWithTrace(b: Bounds, w: World, check: Result<Id>, plan: Plan, opts: Options, at: int, checked: KeyMode) returns (tr: seq<Micro>)
    requires Sound(w.st)
    requires check.Success? ==> CheckedClaims(w.st, plan, check.value, checked)
    ensures LegalRun(b, w, tr) && Run(b, w, tr) == AuthorizeWith(b, w, check, plan, opts, at).w
    ensures AuthorizeWith(b, w, check, plan, opts, at).result.Failure? ==> Quiet(tr)
    ensures (plan.exclusiveKey.PerScope? ==> checked.PerScope?) ==> GuardedRun(b, w, tr)
  {
    hide PlaceRecord;
    if check.Failure? || w.st.counters.ordinal == U64_MAX {
      tr := [];
    } else {
      var (c, all) := IssueTokens(w.st.counters.(ordinal := w.st.counters.ordinal + 1));
      if all {
        var rest := PlaceTrace(b, Raise(w, c), plan, check.value, opts, at, checked);
        CountThen(b, w, c, rest);
        tr := [Counted(c)] + rest;
        assert AuthorizeWith(b, w, check, plan, opts, at) == PlaceRecord(b, Raise(w, c), plan, check.value, opts, at);
      } else {
        CountThen(b, w, c, []);
        tr := [Counted(c)] + [];
      }
    }
  }

  lemma CheckEstablishesClaims(st: State, plan: Plan, digest: Fingerprint, opts: Options, at: int)
    requires Sound(st) && AuthorizeCheck(st, plan, digest, opts, at).Success?
    ensures st.ev.policy.Some? && FindRule(st.ev.policy.value.rules, plan.cls).Some?
    ensures CheckedClaims(st, plan, AuthorizeCheck(st, plan, digest, opts, at).value,
                          FindRule(st.ev.policy.value.rules, plan.cls).value.exclusiveKey)
  {
    AuthorizeFacts(st, plan, digest, opts, at);
    if AuthorizeCheck(st, plan, digest, opts, at).value != 0 {
      ConflictIsHolder(st, plan.scope.id, plan.cls, plan.exclusiveKey, 0);
    }
  }

  lemma AuthorizeTrace(b: Bounds, w: World, plan: Plan, digest: Fingerprint, opts: Options, at: int) returns (tr: seq<Micro>)
    requires Sound(w.st)
    ensures LegalRun(b, w, tr) && Run(b, w, tr) == Authorize(b, w, plan, digest, opts, at).w
    ensures Unopposed(w.st, plan, digest, opts, at) ==> GuardedRun(b, w, tr)
    ensures Authorize(b, w, plan, digest, opts, at).result.Failure? ==> Quiet(tr)
  {
    hide AuthorizeCheck, PlaceRecord, ScopeConflict;
    var check := AuthorizeCheck(w.st, plan, digest, opts, at);
    if check.Success? {
      CheckEstablishesClaims(w.st, plan, digest, opts, at);
      var checked := FindRule(w.st.ev.policy.value.rules, plan.cls).value.exclusiveKey;
      if Unopposed(w.st, plan, digest, opts, at) && plan.exclusivity.Exclusive? { checked := plan.exclusiveKey; }
      if !plan.exclusivity.Exclusive? {
        AuthorizeFacts(w.st, plan, digest, opts, at);
        checked := PerScope;
      }
      tr := AuthorizeWithTrace(b, w, check, plan, opts, at, checked);
    } else {
      tr := [];
    }
  }

  lemma RefuseTrace(b: Bounds, w: World, id: Id, fp: Fingerprint, code: Reason, at: int) returns (tr: seq<Micro>)
    ensures LegalRun(b, w, tr) && Run(b, w, tr) == Refuse(b, w, id, fp, code, at).w
    ensures GuardedRun(b, w, tr) && Quiet(tr)
  {
    if id == 0 {
      tr := [];
    } else if CommitFails(w) {
      RunOne(b, w, Faulted);
      tr := [Faulted];
    } else {
      var m := RefusalLogged(id, fp, code, at);
      RunOne(b, w, m);
      tr := [m];
    }
  }

  /** A failed authorization is followed by the record of its refusal. */
  lemma AuthorizeOrRefuse(b: Bounds, w: World, plan: Plan, digest: Fingerprint, opts: Options, id: Id, fp: Fingerprint, at: int) returns (tr: seq<Micro>)
    requires Sound(w.st)
    ensures
      var o := Authorize(b, w, plan, digest, opts, at);
      && LegalRun(b, w, tr) && Run(b, w, tr) == (if o.result.Success? then o.w else Refuse(b, o.w, id, fp, o.result.reason, at).w)
      && (o.result.Failure? ==> Quiet(tr))
    ensures Unopposed(w.st, plan, digest, opts, at) ==> GuardedRun(b, w, tr)
  {
    hide Authorize, Refuse, Unopposed;
    var o := Authorize(b, w, plan, digest, opts, at);
    tr := AuthorizeTrace(b, w, plan, digest, opts, at);
    if o.result.Failure? {
      var more := RefuseTrace(b, o.w, id, fp, o.result.reason, at);
      RunJoins(b, w, tr, more);
      tr := tr + more;
    }
  }

  /** The plan that `apply` makes for itself carries the rule's key mode. */
  lemma OwnPlanIsVetted(b: Bounds, st: State, req: PlacementRequest, cancelled: bool, at: int)
    requires PlanFor(b, st, req, cancelled, at).Success? && PlanFor(b, st, req, cancelled, at).value.PlanMade?
    ensures Vetted(st, PlanFor(b, st, req, cancelled, at).value.plan)
  {
    hide EvaluateDevice, Candidates, RefusalReason, EvidenceCurrent, FindAuthority;
  }

  /** A plan under the rule's own key mode is never opposed. */
  lemma VettedIsUnopposed(st: State, plan: Plan, digest: Fingerprint, opts: Options, at: int)
    requires Sound(st) && Vetted(st, plan)
    ensures Unopposed(st, plan, digest, opts, at)
  {
    hide AuthorizeCheck;
    if AuthorizeCheck(st, plan, digest, opts, at).Success? { AuthorizeFacts(st, plan, digest, opts, at); }
  }

  lemma ApplyLockedTrace(b: Bounds, w: World, req: PlacementRequest, opts: Options, at: int) returns (tr: seq<Micro>)
    requires Sound(w.st)
    ensures LegalRun(b, w, tr) && Run(b, w, tr) == ApplyLocked(b, w, req, opts, at).w && GuardedRun(b, w, tr)
    ensures ApplyLocked(b, w, req, opts, at).result.Failure? || Known(w.st, req.requestId) ==> Quiet(tr)
  {
    hide PlanFor, Authorize, Refuse, Vetted, Unopposed;
    if opts.cancelFrom == 0 || Known(w.st, req.requestId) {
      tr := [];
    } else {
      match PlanFor(b, w.st, req, opts.cancelFrom <= 1, at)
      case Failure(r) => tr := [];
      case Success(PlanRefused(r)) => tr := RefuseTrace(b, w, req.requestId, OfRequest(req), r, at);
      case Success(PlanMade(plan, replace)) =>
        OwnPlanIsVetted(b, w.st, req, opts.cancelFrom <= 1, at);
        var effective := Options(if req.requestId != 0 then req.requestId else opts.requestId,
                                 opts.allowReplacement || req.requestReplacement || replace, opts.cancelFrom);
        VettedIsUnopposed(w.st, plan, OfPlan(plan), effective, at);
        tr := AuthorizeOrRefuse(b, w, plan, OfPlan(plan), effective, req.requestId, OfRequest(req), at);
    }
  }

  /** The options `apply_plan` authorizes a plan with. */
  function PlanOptions(planned: Planned, opts: Options): Options
    requires planned.PlanMade?
  {
    opts.(allowReplacement := opts.allowReplacement || planned.replace)
  }

  lemma ApplyPlanTrace(b: Bounds, w: World, planned: Planned, digest: Fingerprint, opts: Options, at: int) returns (tr: seq<Micro>)
    requires Sound(w.st)
    ensures LegalRun(b, w, tr) && Run(b, w, tr) == ApplyPlan(b, w, planned, digest, opts, at).w
    ensures (planned.PlanMade? ==> Unopposed(w.st, planned.plan, digest, PlanOptions(planned, opts), at)) ==> GuardedRun(b, w, tr)
    ensures ApplyPlan(b, w, planned, digest, opts, at).result.Failure? || Known(w.st, opts.requestId) ==> Quiet(tr)
  {
    hide Authorize, Refuse, Unopposed;
    if Gate(w) != Reason.Ok || planned.PlanRefused? || Known(w.st, opts.requestId) {
      tr := [];
    } else {
      tr := AuthorizeOrRefuse(b, w, planned.plan, digest, PlanOptions(planned, opts), opts.requestId, digest, at);
    }
  }

  // ---- Transitions ---------------------------------------------------------------------------

  /** Storing a move out of authority is one micro-step, refused or not. */
  lemma LeaveTrace(b: Bounds, w: World, target: Id, to: Lifecycle, reason: Reason, id: Id, fp: Fingerprint, at: int) returns (m: Micro)
    requires Legal(b, w, Left(target, to, reason, id, fp, at))
    ensures Legal(b, w, m) && Guarded(w, m) && (m.Faulted? || m.Left?)
    ensures Do(b, w, m) == Store(b, w, Moved(b, w.st.assignments[target], to, reason, at), id, fp, at).0
    ensures m.Left? <==> Store(b, w, Moved(b, w.st.assignments[target], to, reason, at), id, fp, at).1
  {
    m := if CommitFails(w) then Faulted else Left(target, to, reason, id, fp, at);
  }

  lemma NoSteps(b: Bounds, w: World)
    ensures LegalRun(b, w, []) && Run(b, w, []) == w && GuardedRun(b, w, [])
  {
  }

  lemma RevokeTrace(b: Bounds, w: World, requestId: Id, id: Id, reason: Reason, authority: Id, cancelled: bool, at: int) returns (tr: seq<Micro>)
    ensures LegalRun(b, w, tr) && Run(b, w, tr) == RevokeAssignment(b, w, requestId, id, reason, authority, cancelled, at).w
    ensures GuardedRun(b, w, tr) && Quiet(tr)
  {
    hide RevokeAssignment, Moved, Do, LegalRun, GuardedRun, Run, Guarded, Revocable, Store;
    NoSteps(b, w);
    RevokeIsStore(b, w, requestId, id, reason, authority, cancelled, at);
    if !Revocable(w, requestId, id, authority, cancelled, at) {
      tr := [];
    } else {
      assert id in w.st.assignments by { RevocableIsStored(w, requestId, id, authority, cancelled, at); }
      var m := LeaveTrace(b, w, id, Lifecycle.Revoked, reason, requestId, OfRevoke(id, reason), at);
      RunOne(b, w, m);
      tr := [m];
    }
  }

  /** The revocation gets as far as its commit. */
  predicate Revocable(w: World, requestId: Id, id: Id, authority: Id, cancelled: bool, at: int) {
    && Gate(w) == Reason.Ok && !Known(w.st, requestId) && id in w.st.assignments && !w.st.assignments[id].state.Revoked?
    && !cancelled && RevokeAuthority(w.st, w.st.assignments[id], authority, at) == Reason.Ok
  }

  lemma RevocableIsStored(w: World, requestId: Id, id: Id, authority: Id, cancelled: bool, at: int)
    requires Revocable(w, requestId, id, authority, cancelled, at)
    ensures id in w.st.assignments
  {
  }

  lemma RevokeIsStore(b: Bounds, w: World, requestId: Id, id: Id, reason: Reason, authority: Id, cancelled: bool, at: int)
    ensures RevokeAssignment(b, w, requestId, id, reason, authority, cancelled, at).w ==
            if !Revocable(w, requestId, id, authority, cancelled, at) then w
            else Store(b, w, Moved(b, w.st.assignments[id], Lifecycle.Revoked, reason, at), requestId, OfRevoke(id, reason), at).0
  {
    hide RevokeAuthority, Moved, Store;
  }

  lemma ReauthorizeTrace(b: Bounds, w: World, requestId: Id, id: Id, authority: Id, at: int) returns (tr: seq<Micro>)
    ensures LegalRun(b, w, tr) && Run(b, w, tr) == ReauthorizeAssignment(b, w, requestId, id, authority, at).w
    ensures Unconflicted(w.st, id) ==> GuardedRun(b, w, tr)
  {
    hide TargetValidity, AuthorityAdmits, Rebound, Put, ScopeConflict, Known;
    if Gate(w) != Reason.Ok || Known(w.st, requestId) || id !in w.st.assignments || HoldsAuthority(w.st.assignments[id].state) ||
       ReauthorizeCheck(w.st, w.st.assignments[id], authority, at).Failure? {
      tr := [];
    } else {
      var to := ReauthorizeCheck(w.st, w.st.assignments[id], authority, at).value;
      var (c, all) := IssueTokens(w.st.counters);
      var rest: seq<Micro> := [];
      if all {
        var m := if CommitFails(Raise(w, c)) then Faulted else Reentered(id, to, authority, requestId, OfReauthorize(id), at);
        RunOne(b, Raise(w, c), m);
        rest := [m];
      }
      CountThen(b, w, c, rest);
      tr := [Counted(c)] + rest;
    }
  }

  lemma ReportTrace(b: Bounds, w: World, r: EffectReport, at: int) returns (tr: seq<Micro>)
    ensures LegalRun(b, w, tr) && Run(b, w, tr) == ReportEffect(b, w, r, at).w
    ensures (r.outcome.Applied? ==> Unconflicted(w.st, r.assignment)) ==> GuardedRun(b, w, tr)
  {
    hide EffectMatches, WithEffect, PutEffect, ScopeConflict;
    if Gate(w) != Reason.Ok || Known(w.st, r.requestId) || r.assignment !in w.st.assignments ||
       !Acceptable(w.st, w.st.assignments[r.assignment], r) {
      tr := [];
    } else if CommitFails(w) {
      RunOne(b, w, Faulted);
      tr := [Faulted];
    } else {
      RunOne(b, w, Reported(r, at));
      tr := [Reported(r, at)];
    }
  }

  // ---- Loops ---------------------------------------------------------------------------------

  lemma {:induction false} RevalidateTrace(b: Bounds, w: World, ids: seq<Id>, at: int, cancelFrom: nat, tally: Tally) returns (tr: seq<Micro>)
    ensures LegalRun(b, w, tr) && Run(b, w, tr) == RevalidateFrom(b, w, ids, at, cancelFrom, tally).w && GuardedRun(b, w, tr)
    ensures Quiet(tr)
    decreases |ids|
  {
    hide Validity, Moved, Put, Store, Legal, Guarded, Run, LegalRun, GuardedRun, Do;
    NoSteps(b, w);
    if ids == [] || cancelFrom == 0 {
      tr := [];
    } else if ids[0] !in w.st.assignments || IsTerminal(w.st.assignments[ids[0]].state) {
      tr := RevalidateTrace(b, w, ids[1..], at, cancelFrom - 1, tally);
    } else {
      var a := w.st.assignments[ids[0]];
      var seen := tally.(checked := tally.checked + 1);
      match Demotion(w.st, a, at)
      case None => tr := RevalidateTrace(b, w, ids[1..], at, cancelFrom - 1, seen);
      case Some(to) =>
        LeaveIsLegal(b, w, ids[0], to, Validity(w.st, a, at), at);
        var m := LeaveTrace(b, w, ids[0], to, Validity(w.st, a, at), 0, NoFingerprint, at);
        NoSteps(b, Do(b, w, m));
        var rest: seq<Micro> := [];
        if m.Left? {
          rest := RevalidateTrace(b, Do(b, w, m), ids[1..], at, cancelFrom - 1,
                                  if to.Degraded? then seen.(degraded := seen.degraded + 1)
                                  else seen.(suspended := seen.suspended + 1));
        }
        RunThen(b, w, m, rest);
        tr := [m] + rest;
    }
  }

  lemma LeaveIsLegal(b: Bounds, w: World, target: Id, to: Lifecycle, reason: Reason, at: int)
    requires target in w.st.assignments && !IsTerminal(w.st.assignments[target].state) && (to.Suspended? || to.Degraded?)
    ensures Legal(b, w, Left(target, to, reason, 0, NoFingerprint, at))
  {
  }

  lemma SubmitTrace(b: Bounds, w: World, r: Record, at: int) returns (tr: seq<Micro>)
    ensures LegalRun(b, w, tr) && Run(b, w, tr) == Submit(b, w, r, at).0 && GuardedRun(b, w, tr)
    ensures Quiet(tr)
  {
    hide TopologyCheck, PolicyCheck, CapabilityCheck, ObservationCheck, GrantCheck, Learn, RevalidateFrom;
    if !w.running || (!r.AuthorityWithdrawn? && !w.accepted) || EvidenceCheck(b, w.st, r) != Success(false) {
      tr := [];
    } else if CommitFails(w) {
      RunOne(b, w, Faulted);
      tr := [Faulted];
    } else {
      var l := Logged(w, r);
      var w1 := l.(st := Learn(w.st, r));
      var rest: seq<Micro> := [];
      if Revalidates(r) {
        rest := RevalidateTrace(b, w1, LiveIds(w1.st), at, |LiveIds(w1.st)| + 1, Tally(0, 0, 0));
      }
      RunThen(b, w, Learned(r), rest);
      tr := [Learned(r)] + rest;
    }
  }

  /** The suspension loop of `start`. */
  lemma {:induction false} SuspendTrace(b: Bounds, w: World, ids: seq<Id>, at: int) returns (tr: seq<Micro>)
    requires forall id :: id in ids ==> id in w.st.assignments && IsLive(w.st.assignments[id].state)
    ensures LegalRun(b, w, tr) && Run(b, w, tr) == SuspendFrom(b, w, ids, at).0 && GuardedRun(b, w, tr)
    decreases |ids|
  {
    hide Put;
    if ids == [] {
      tr := [];
    } else if w.st.assignments[ids[0]].state.Suspended? {
      tr := SuspendTrace(b, w, ids[1..], at);
    } else {
      var m := LeaveTrace(b, w, ids[0], Lifecycle.Suspended, RestartAuthorityReset, 0, NoFingerprint, at);
      var rest: seq<Micro> := [];
      if m.Left? {
        PutAssignments(b, w, Moved(b, w.st.assignments[ids[0]], Lifecycle.Suspended, RestartAuthorityReset, at), 0, NoFingerprint, at);
        rest := SuspendTrace(b, Do(b, w, m), ids[1..], at);
      }
      RunThen(b, w, m, rest);
      tr := [m] + rest;
    }
  }

  lemma PutAssignments(b: Bounds, w: World, a: Assignment, id: Id, fp: Fingerprint, at: int)
    ensures Put(b, w, a, id, fp, at).st.assignments == w.st.assignments[a.id := a]
  {
  }
}
