/** Who gains authority: every operation puts at most one record under authority, and every other
    holder held before it with the same claim (src/fabric.cpp). */
module Holders {
  import opened Units
  import opened Types
  import opened Decisions
  import opened Claims
  import opened Machine
  import opened Steps
  import opened Traces
  import opened Runs
  import opened Agreement

  predicate SameClaim(a: Assignment, c: Assignment) {
    a.scope == c.scope && a.cls == c.cls && a.exclusivity == c.exclusivity && a.exclusiveKey == c.exclusiveKey
  }

  /** Whoever holds authority in `n`, except `but`, held it in `m` with the same claim, under the same grant. */
  predicate Shrinks(m: map<Id, Assignment>, n: map<Id, Assignment>, but: Id) {
    forall id :: id in n && id != but && HoldsAuthority(n[id].state) ==>
      id in m && HoldsAuthority(m[id].state) && SameClaim(m[id], n[id]) && m[id].authority == n[id].authority
  }

  lemma MicroShrinks(b: Bounds, w: World, m: Micro)
    requires Legal(b, w, m) && !MayGain(m)
    ensures Shrinks(w.st.assignments, Do(b, w, m).st.assignments, 0)
  {
    hide Do, Insert;
    DoWrites(b, w, m);
    if Written(b, w, m).Some? { InsertFrame(w.st, Written(b, w, m).value); }
  }

  lemma {:induction false} RunShrinks(b: Bounds, w: World, tr: seq<Micro>)
    requires LegalRun(b, w, tr) && Quiet(tr)
    ensures Shrinks(w.st.assignments, Run(b, w, tr).st.assignments, 0)
    decreases |tr|
  {
    hide Do, Legal, MayGain;
    if tr != [] {
      MicroShrinks(b, w, tr[0]);
      RunShrinks(b, Do(b, w, tr[0]), tr[1..]);
    }
  }

  /** The record an operation puts under authority, if any. */
  function Gained(b: Bounds, w: World, op: Operation, at: int): Option<Assignment> {
    if !Intent(op) || Known(w.st, RequestOf(op)) || Reply(b, w, op, at).Failure? then None
    else
      var a := Reply(b, w, op, at).value;
      match op
      case RevokeOne(_, _, _, _, _) => None
      case ReauthorizeOne(_, id, _) => if HoldsBefore(w, id) || !HoldsAuthority(a.state) then None else Some(a)
      case Report(r) => if HoldsBefore(w, r.assignment) || !HoldsAuthority(a.state) then None else Some(a)
      case _ => Some(a)
  }

  predicate HoldsBefore(w: World, id: Id) { id in w.st.assignments && HoldsAuthority(w.st.assignments[id].state) }

  lemma PlacementShrinks(b: Bounds, w: World, plan: Plan, digest: Fingerprint, opts: Options, at: int)
    requires Keyed(w.st.assignments) && Authorize(b, w, plan, digest, opts, at).result.Success?
    ensures
      var o := Authorize(b, w, plan, digest, opts, at);
      var a := o.result.value;
      && a.id == w.st.counters.ordinal + 1 && HoldsAuthority(a.state) && a.id in o.w.st.assignments && o.w.st.assignments[a.id] == a
      && Shrinks(w.st.assignments, o.w.st.assignments, a.id) && BuiltFrom(w.st, plan, a)
  {
    hide Authorize, AuthorizeCheck;
    AuthorizeStores(b, w, plan, digest, opts, at);
  }

  predicate Accounted(m: map<Id, Assignment>, n: map<Id, Assignment>, gained: Option<Assignment>) {
    match gained
    case None => Shrinks(m, n, 0)
    case Some(a) => a.id != 0 && a.id in n && n[a.id] == a && HoldsAuthority(a.state) && Shrinks(m, n, a.id)
  }

  lemma ApplyAccounted(b: Bounds, w: World, req: PlacementRequest, opts: Options, at: int)
    requires Sound(w.st)
    ensures
      var o := ApplyLocked(b, w, req, opts, at);
      Accounted(w.st.assignments, o.w.st.assignments,
                if Known(w.st, req.requestId) || o.result.Failure? then None else Some(o.result.value))
  {
    hide ApplyLocked, Authorize, Shrinks, PlanFor;
    if Known(w.st, req.requestId) || ApplyLocked(b, w, req, opts, at).result.Failure? {
      var tr := ApplyLockedTrace(b, w, req, opts, at);
      RunShrinks(b, w, tr);
    } else {
      ApplyIsAuthorize(b, w, req, opts, at);
      var planned := PlanFor(b, w.st, req, false, at).value;
      PlacementShrinks(b, w, planned.plan, OfPlan(planned.plan), OwnOptions(req, opts, planned.replace), at);
    }
  }

  lemma ApplyPlanAccounted(b: Bounds, w: World, planned: Planned, digest: Fingerprint, opts: Options, at: int)
    requires Sound(w.st)
    ensures
      var o := ApplyPlan(b, w, planned, digest, opts, at);
      Accounted(w.st.assignments, o.w.st.assignments,
                if Known(w.st, opts.requestId) || o.result.Failure? then None else Some(o.result.value))
  {
    hide Authorize, Shrinks, Refuse;
    if Known(w.st, opts.requestId) || ApplyPlan(b, w, planned, digest, opts, at).result.Failure? {
      var tr := ApplyPlanTrace(b, w, planned, digest, opts, at);
      RunShrinks(b, w, tr);
    } else {
      PlanIsAuthorize(b, w, planned, digest, opts, at);
      PlacementShrinks(b, w, planned.plan, digest, PlanOptions(planned, opts), at);
    }
  }

  /** An accepted `apply_plan` is the authorization of the supplied plan. */
  lemma PlanIsAuthorize(b: Bounds, w: World, planned: Planned, digest: Fingerprint, opts: Options, at: int)
    requires !Known(w.st, opts.requestId) && ApplyPlan(b, w, planned, digest, opts, at).result.Success?
    ensures planned.PlanMade? &&
            ApplyPlan(b, w, planned, digest, opts, at) == Authorize(b, w, planned.plan, digest, PlanOptions(planned, opts), at)
  {
    hide Authorize, Refuse;
    if planned.PlanMade? {
      RefuseFails(b, Authorize(b, w, planned.plan, digest, PlanOptions(planned, opts), at).w, opts.requestId, digest, at);
    }
  }

  /** `reauthorize` stores the re-bound record or changes no assignment. */
  lemma ReauthorizeWrites(b: Bounds, w: World, requestId: Id, id: Id, authority: Id, at: int)
    requires Keyed(w.st.assignments)
    ensures
      var o := ReauthorizeAssignment(b, w, requestId, id, authority, at);
      if !Known(w.st, requestId) && o.result.Success? && !HoldsBefore(w, id)
      then id in w.st.assignments && o.result.value.id == id && SameClaim(o.result.value, w.st.assignments[id]) &&
           ReauthorizeCheck(w.st, w.st.assignments[id], authority, at).Success? &&
           o.w.st.assignments == w.st.assignments[id := o.result.value]
      else o.w.st.assignments == w.st.assignments
  {
    hide ReauthorizeCheck, Put, Insert;
    var o := ReauthorizeAssignment(b, w, requestId, id, authority, at);
    if !Known(w.st, requestId) && o.result.Success? && !HoldsBefore(w, id) {
      var w1 := Raise(w, IssueTokens(w.st.counters).0);
      PutInserts(b, w1, o.result.value, requestId, OfReauthorize(id), at);
      InsertFrame(w1.st, o.result.value);
    }
  }

  lemma ReauthorizeAccounted(b: Bounds, w: World, requestId: Id, id: Id, authority: Id, at: int)
    requires Sound(w.st)
    ensures Accounted(w.st.assignments, ReauthorizeAssignment(b, w, requestId, id, authority, at).w.st.assignments,
                      Gained(b, w, ReauthorizeOne(requestId, id, authority), at))
  {
    hide ReauthorizeAssignment, ReauthorizeCheck;
    ReauthorizeWrites(b, w, requestId, id, authority, at);
  }

  /** `report_effect` stores the record with its effect or changes no assignment. */
  lemma ReportWrites(b: Bounds, w: World, r: EffectReport, at: int)
    requires Keyed(w.st.assignments)
    ensures
      var o := ReportEffect(b, w, r, at);
      || o.w.st.assignments == w.st.assignments
      || (&& !Known(w.st, r.requestId) && o.result.Success? && r.assignment in w.st.assignments
          && Acceptable(w.st, w.st.assignments[r.assignment], r)
          && o.result.value == WithEffect(b, w.st.assignments[r.assignment], r, at)
          && o.w.st.assignments == w.st.assignments[r.assignment := o.result.value])
    ensures
      var o := ReportEffect(b, w, r, at);
      o.result.Success? && o.w.st.assignments == w.st.assignments && !Known(w.st, r.requestId) ==>
        r.assignment in w.st.assignments && o.result.value == w.st.assignments[r.assignment]
  {
    hide EffectMatches, PutEffect, Insert;
    if r.assignment in w.st.assignments {
      var a := WithEffect(b, w.st.assignments[r.assignment], r, at);
      PutEffectInserts(b, w, r, a, at);
      InsertFrame(w.st, a);
      assert PutEffect(b, w, r, a, at).st.assignments[r.assignment] == a;
    }
  }

  lemma ReportAccounted(b: Bounds, w: World, r: EffectReport, at: int)
    requires Sound(w.st)
    ensures Accounted(w.st.assignments, ReportEffect(b, w, r, at).w.st.assignments, Gained(b, w, Report(r), at))
  {
    hide ReportEffect, Acceptable;
    ReportWrites(b, w, r, at);
  }

  /** Every operation: at most the record named by `Gained` is new among the authority holders. */
  lemma HoldersChange(b: Bounds, w: World, op: Operation, at: int)
    requires Sound(w.st)
    ensures Accounted(w.st.assignments, Exec(b, w, op, at).st.assignments, Gained(b, w, op, at))
  {
    hide Submit, ApplyLocked, ApplyPlan, RevokeAssignment, ReauthorizeAssignment, ReportEffect, RevalidateFrom, Shrinks;
    match op
    case ApplyRequest(req, opts) => ApplyAccounted(b, w, req, opts, at); StaysSame(w.st.assignments);
    case ApplyPlanned(planned, digest, opts) => ApplyPlanAccounted(b, w, planned, digest, opts, at);
    case ReplaceWith(id, current, placement, cancelFrom) =>
      StaysSame(w.st.assignments);
      if current in w.st.assignments {
        ApplyAccounted(b, w, ReplacementOf(w.st.assignments[current], id, placement), Options(id, true, cancelFrom), at);
      }
    case ReauthorizeOne(id, target, authority) => ReauthorizeAccounted(b, w, id, target, authority, at);
    case Report(r) => ReportAccounted(b, w, r, at);
    case AcceptRecovery => StaysSame(w.st.assignments);
    case _ => QuietOperation(b, w, op, at);
  }

  lemma StaysSame(m: map<Id, Assignment>) ensures Shrinks(m, m, 0) {}

  lemma QuietOperation(b: Bounds, w: World, op: Operation, at: int)
    requires op.SubmitEvidence? || op.RevokeOne? || op.Revalidate?
    ensures Shrinks(w.st.assignments, Exec(b, w, op, at).st.assignments, 0)
  {
    hide Submit, RevokeAssignment, RevalidateFrom, Shrinks, Run, LegalRun, GuardedRun, Quiet;
    match op
    case SubmitEvidence(r) =>
      var tr := SubmitTrace(b, w, r, at);
      RunShrinks(b, w, tr);
    case RevokeOne(id, target, reason, authority, cancelled) =>
      var tr := RevokeTrace(b, w, id, target, reason, authority, cancelled, at);
      RunShrinks(b, w, tr);
    case Revalidate(cancelFrom) =>
      StaysSame(w.st.assignments);
      if w.running {
        var tr := RevalidateTrace(b, w, LiveIds(w.st), at, cancelFrom, Tally(0, 0, 0));
        RunShrinks(b, w, tr);
      }
  }
}
