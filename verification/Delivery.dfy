/** At-most-once delivery: a remembered request changes nothing and is answered from the table,
    which stays bounded and first-in first-out in every run (src/fabric.cpp). */
module Delivery {
  import opened Units
  import opened Types
  import opened Decisions
  import opened Claims
  import opened Idempotency
  import opened Machine
  import opened Steps
  import opened Traces
  import opened Runs
  import opened Refinement
  import opened Revalidation
  import opened Agreement
  import opened Capacity
  import opened Holders

  // ---- Redelivery ----------------------------------------------------------------------------

  /** The fingerprint a delivery is compared by. */
  function FingerprintOf(st: State, op: Operation): Fingerprint {
    match op
    case ApplyRequest(req, _) => OfRequest(req)
    case ApplyPlanned(_, digest, _) => digest
    case ReplaceWith(id, current, placement, _) =>
      if current in st.assignments then OfRequest(ReplacementOf(st.assignments[current], id, placement)) else NoFingerprint
    case RevokeOne(_, target, reason, _, _) => OfRevoke(target, reason)
    case ReauthorizeOne(_, target, _) => OfReauthorize(target)
    case Report(r) => OfEffect(r)
    case _ => NoFingerprint
  }

  /** The delivery gets past the checks made before the table is consulted. */
  predicate Delivered(w: World, op: Operation) {
    && Gate(w) == Reason.Ok
    && match op
       case ApplyRequest(_, opts) => opts.cancelFrom > 0
       case ApplyPlanned(planned, _, _) => planned.PlanMade?
       case ReplaceWith(_, current, _, cancelFrom) => current in w.st.assignments && cancelFrom > 0
       case _ => true
  }

  /** A recorded assignment is answered if it decodes within the default bounds. */
  function Answered(a: Assignment): Result<Assignment> {
    if |a.history| <= 32 && |a.effects| <= 64 then Success(a) else Failure(LimitExceeded)
  }

  /** The recorded answer for the same request, and a refusal for another one. */
  function AnswerOf(e: IdempotencyEntry, fp: Fingerprint): Result<Assignment> {
    if e.fingerprint != fp then Failure(DuplicateDelivery)
    else if e.response.Refused? then Failure(e.response.code)
    else Answered(e.response.record)
  }

  /** While an identifier is remembered, no operation under it changes anything, not the
      assignments, the journal or a counter; and every delivery is answered with the recorded answer
      if it is the same request, and refused as a duplicate otherwise. */
  lemma RedeliveryChangesNothing(b: Bounds, w: World, op: Operation, at: int)
    requires Known(w.st, RequestOf(op))
    ensures Exec(b, w, op, at) == w
    ensures Intent(op) && Delivered(w, op) ==> Reply(b, w, op, at) == AnswerOf(w.st.table.entries[RequestOf(op)], FingerprintOf(w.st, op))
  {
    hide PlanFor, Authorize, RevokeRecord, ReauthorizeCheck, EffectMatches, WithEffect;
  }

  // ---- The table over whole runs ---------------------------------------------------------------

  ghost predicate Bounded(b: Bounds, t: Table) { WellFormed(t) && |t.entries| <= b.maxIdempotency }

  lemma RememberKeepsBounded(b: Bounds, t: Table, id: Id, e: IdempotencyEntry)
    requires Bounded(b, t)
    ensures Bounded(b, Remember(b.maxIdempotency, t, id, e))
  {
    hide Remember;
    if id != 0 { RememberIsFifo(b.maxIdempotency, t, id, e); } else { RememberNothing(b.maxIdempotency, t, e); }
  }

  lemma RememberNothing(max: nat, t: Table, e: IdempotencyEntry) ensures Remember(max, t, 0, e) == t {}

  lemma MicroKeepsBounded(b: Bounds, w: World, m: Micro)
    requires Legal(b, w, m) && Bounded(b, w.st.table)
    ensures Bounded(b, Do(b, w, m).st.table)
  {
    hide Remember, Reindex, LearnEvidence, ApplyGrants, ScopeConflict, EffectMatches, Bounded, Moved, Rebound, WithEffect;
    match m
    case Placed(a, _, id, fp, at) => RememberKeepsBounded(b, w.st.table, id, IdempotencyEntry(fp, Recorded(a), at));
    case Left(target, to, reason, id, fp, at) =>
      RememberKeepsBounded(b, w.st.table, id, IdempotencyEntry(fp, Recorded(Moved(b, w.st.assignments[target], to, reason, at)), at));
    case Reentered(target, to, authority, id, fp, at) =>
      RememberKeepsBounded(b, w.st.table, id,
                           IdempotencyEntry(fp, Recorded(Rebound(b, w.st, w.st.assignments[target], to, authority, at)), at));
    case Reported(r, at) =>
      RememberKeepsBounded(b, w.st.table, r.requestId,
                           IdempotencyEntry(OfEffect(r), Recorded(WithEffect(b, w.st.assignments[r.assignment], r, at)), at));
    case RefusalLogged(id, fp, code, at) => RememberKeepsBounded(b, w.st.table, id, IdempotencyEntry(fp, Refused(code), at));
    case _ =>
  }

  lemma {:induction false} RunKeepsBounded(b: Bounds, w: World, tr: seq<Micro>)
    requires LegalRun(b, w, tr) && Bounded(b, w.st.table)
    ensures Bounded(b, Run(b, w, tr).st.table)
    decreases |tr|
  {
    hide Do, Legal, Bounded;
    if tr != [] {
      MicroKeepsBounded(b, w, tr[0]);
      RunKeepsBounded(b, Do(b, w, tr[0]), tr[1..]);
    }
  }

  lemma ApplyKeepsBounded(b: Bounds, st: State, r: Record)
    requires Bounded(b, st.table)
    ensures Bounded(b, ApplyRecord(b, st, r).table)
  {
    hide Remember, Reindex, ApplyEvidence, ApplyGrants, Bounded;
    match r
    case AssignmentStored(a, id, fp) => RememberKeepsBounded(b, st.table, id, IdempotencyEntry(fp, Recorded(a), a.updatedAt));
    case EffectRecorded(report, a, fp) =>
      RememberKeepsBounded(b, st.table, report.requestId, IdempotencyEntry(fp, Recorded(a), report.observedAt));
    case RequestRecorded(id, fp, code, at) => RememberKeepsBounded(b, st.table, id, IdempotencyEntry(fp, Refused(code), at));
    case _ =>
  }

  lemma {:induction false} ReplayKeepsBounded(b: Bounds, log: seq<Record>)
    ensures Bounded(b, Replay(b, EMPTY_STATE, log).table)
  {
    hide ApplyRecord;
    if log != [] {
      ReplayKeepsBounded(b, log[..|log| - 1]);
      ApplyKeepsBounded(b, Replay(b, EMPTY_STATE, log[..|log| - 1]), log[|log| - 1]);
    }
  }

  lemma BegunKeepsTable(b: Bounds, w: World, boot: Id)
    requires Recovered(b, EMPTY_STATE, w.log).epoch.highest < U64_MAX
    ensures Begun(b, w, EMPTY_STATE, w.log, boot).st.table == Replay(b, EMPTY_STATE, w.log).table
  {
    hide Replay, RebuildClaims, RebuildCounters, RefreshUsage;
  }

  lemma StartKeepsBounded(b: Bounds, w: World, boot: Id, accept: bool, at: int)
    ensures
      var w' := Start(b, w, EMPTY_STATE, w.log, boot, accept, at).0;
      w'.running ==> Bounded(b, w'.st.table)
  {
    hide SuspendFrom, Bounded, Recovered, Recover, Decodable, Run, LegalRun, Begun, GuardedRun;
    if Begins(b, w, EMPTY_STATE, w.log) {
      var begun := Begun(b, w, EMPTY_STATE, w.log, boot);
      ReplayKeepsBounded(b, w.log);
      BegunKeepsTable(b, w, boot);
      var tr := SuspendTrace(b, begun, LiveIds(begun.st), at);
      RunKeepsBounded(b, begun, tr);
    }
  }

  /** In every run the table's keys are its duplicate-free arrival order and stay within the
      configured bound. */
  lemma {:induction false} TableStaysBounded(b: Bounds, es: seq<Event>)
    ensures
      var w := RunAll(b, EMPTY_WORLD, es);
      w.running ==> Bounded(b, w.st.table)
  {
    hide Exec, Start, Consistent, Bounded;
    if es != [] {
      var w, e := RunAll(b, EMPTY_WORLD, es[..|es| - 1]), es[|es| - 1];
      TableStaysBounded(b, es[..|es| - 1]);
      ReplayRefinesEveryRun(b, es[..|es| - 1]);
      ConsistentParts(b, w);
      match e
      case Operate(op, at, faults) =>
        if w.running {
          var v := w.(faults := faults);
          if op.AcceptRecovery? {
            AcceptOnlyFlags(b, v, at);
          } else {
            var tr := OperationTrace(b, v, op, at);
            RunKeepsBounded(b, v, tr);
          }
        }
      case CrashAt(_) =>
      case Boot(boot, accept, at, faults) =>
        if !w.running { StartKeepsBounded(b, w.(faults := faults), boot, accept, at); }
    }
  }

  // ---- What an accepted placement is remembered as ------------------------------------------------

  lemma CreateRemembers(b: Bounds, w: World, planned: State, plan: Plan, a: Assignment, opts: Options, at: int)
    requires Bounded(b, w.st.table) && opts.requestId != 0 && Create(b, w, planned, plan, a, opts, at).result.Success?
    ensures
      var t := Create(b, w, planned, plan, a, opts, at).w.st.table;
      opts.requestId in t.entries && t.entries[opts.requestId] == IdempotencyEntry(OfRequest(Rebuilt(planned, plan)), Recorded(a), at)
  {
    hide Remember, Reindex;
    RememberIsFifo(b.maxIdempotency, w.st.table, opts.requestId, IdempotencyEntry(OfRequest(Rebuilt(planned, plan)), Recorded(a), at));
  }

  lemma PlacementRemembers(b: Bounds, w: World, plan: Plan, replacing: Id, opts: Options, at: int)
    requires Bounded(b, w.st.table) && opts.requestId != 0 && PlaceRecord(b, w, plan, replacing, opts, at).result.Success?
    ensures
      var t := PlaceRecord(b, w, plan, replacing, opts, at).w.st.table;
      opts.requestId in t.entries &&
      t.entries[opts.requestId] == IdempotencyEntry(OfRequest(Rebuilt(w.st, plan)), Recorded(NewRecord(b, w.st, plan, opts, at)), at)
  {
    hide NewRecord, Create, Moved, Put, Bounded, Rebuilt;
    var a := NewRecord(b, w.st, plan, opts, at);
    if replacing != 0 && replacing in w.st.assignments {
      var moved := Moved(b, w.st.assignments[replacing], Lifecycle.Superseded, Reason.Superseded, at);
      var (w', ok) := Store(b, w, moved, 0, NoFingerprint, at);
      StoreFrame(b, w, moved, 0, NoFingerprint, at);
      var noted := Logged(NoteInMemory(b, w', plan.scope.id, plan.cls, at), ReassignmentRecorded(plan.scope.id, plan.cls, at));
      CreateRemembers(b, noted, w.st, plan, a, opts, at);
    } else {
      CreateRemembers(b, w, w.st, plan, a, opts, at);
    }
  }

  lemma AuthorizeRemembers(b: Bounds, w: World, plan: Plan, digest: Fingerprint, opts: Options, at: int)
    requires Bounded(b, w.st.table) && opts.requestId != 0 && Authorize(b, w, plan, digest, opts, at).result.Success?
    ensures
      var o := Authorize(b, w, plan, digest, opts, at);
      opts.requestId in o.w.st.table.entries &&
      o.w.st.table.entries[opts.requestId] == IdempotencyEntry(OfRequest(Rebuilt(w.st, plan)), Recorded(o.result.value), at)
  {
    hide AuthorizeCheck, PlaceRecord, Bounded, NewRecord;
    var (c, all) := IssueTokens(w.st.counters.(ordinal := w.st.counters.ordinal + 1));
    var replacing := AuthorizeCheck(w.st, plan, digest, opts, at).value;
    PlacementRemembers(b, Raise(w, c), plan, replacing, opts, at);
    PlacementStores(b, Raise(w, c), plan, replacing, opts, at);
  }

  /** The delivered request already says everything the rebuilt one says, and nothing more. */
  predicate SelfContained(st: State, req: PlacementRequest, rule: Rule, onHost: bool) {
    && rule.required <= req.required
    && (if req.fn in st.ev.functions
        then st.ev.functions[req.fn].required <= req.required && req.version == st.ev.functions[req.fn].version
        else req.version == Version(0, 0))
    && req.preferredDevices == [] && req.preferredHosts == [] && req.antiAffinityDevices == [] && req.antiAffinityHosts == []
    && req.requiredLabels == [] && req.dependencies == [] && req.minTopology == 0 && req.minCapability == 0 && req.minPolicy == 0
    && req.allowHostFallback == onHost && !req.requestReplacement
  }

  lemma RebuiltIsDeliveredIff(st: State, req: PlacementRequest, plan: Plan, at: int)
    requires GoodPlan(st, req, plan, at)
    ensures st.ev.policy.Some? && FindRule(st.ev.policy.value.rules, req.cls).Some?
    ensures Rebuilt(st, plan) == req <==>
            SelfContained(st, req, FindRule(st.ev.policy.value.rules, req.cls).value, plan.mode.HostFallback?)
  {
    hide EvaluateDevice, EvidenceGate, FindRule, FindDevice, FindAuthority;
    GateMeansEvidence(st, req, at);
    var rule := FindRule(st.ev.policy.value.rules, req.cls).value;
    var f := Descriptor(st, req).value;
    assert plan.effectiveRequirement == f.required + rule.required;
    if req.fn in st.ev.functions {
      var known := st.ev.functions[req.fn].required;
      assert known + req.required + rule.required == req.required <==> known <= req.required && rule.required <= req.required;
    } else {
      assert req.required + rule.required == req.required <==> rule.required <= req.required;
    }
  }

  /** Redelivering an accepted `apply` never places twice; and it returns the stored answer
      exactly when the request was self-contained, because the answer is filed under the
      request rebuilt from the plan. Any other accepted request is refused on redelivery. */
  lemma AcceptedApplyRedelivery(b: Bounds, w: World, req: PlacementRequest, opts: Options, at: int, again: Options, later: int)
    requires Bounded(b, w.st.table) && w.st.ev.topology.Some? && StrictlyOrdered(w.st.ev.topology.value.devices)
    requires req.requestId != 0 && !Known(w.st, req.requestId) && Apply(b, w, req, opts, at).result.Success? && again.cancelFrom > 0
    ensures w.st.ev.policy.Some? && FindRule(w.st.ev.policy.value.rules, req.cls).Some?
    ensures
      var first := Apply(b, w, req, opts, at);
      var second := Apply(b, first.w, req, again, later);
      var a := first.result.value;
      && second.w == first.w
      && second.result ==
         if SelfContained(w.st, req, FindRule(w.st.ev.policy.value.rules, req.cls).value, a.mode.HostFallback?)
         then Answered(a) else Failure(DuplicateDelivery)
  {
    hide PlanFor, Authorize, Refuse, Bounded, GoodPlan, SelfContained, Rebuilt, AfterPlacement, AuthorizeCheck;
    var planned := PlanFor(b, w.st, req, opts.cancelFrom <= 1, at).value;
    CancelledPlanFails(b, w.st, req, at);
    RefuseFails(b, w, req.requestId, OfRequest(req), at);
    var plan := planned.plan;
    var effective := Options(req.requestId, opts.allowReplacement || req.requestReplacement || planned.replace, opts.cancelFrom);
    OwnPlanIsGood(b, w.st, req, at);
    RefuseFails(b, Authorize(b, w, plan, OfPlan(plan), effective, at).w, req.requestId, OfRequest(req), at);
    AuthorizeRemembers(b, w, plan, OfPlan(plan), effective, at);
    AuthorizeStores(b, w, plan, OfPlan(plan), effective, at);
    RebuiltIsDeliveredIff(w.st, req, plan, at);
  }

  // ---- What every other answer is remembered as ---------------------------------------------------

  lemma EntryAnswers(b: Bounds, w: World, op: Operation, at: int, e: IdempotencyEntry)
    requires Intent(op) && Delivered(w, op) && Known(w.st, RequestOf(op)) && w.st.table.entries[RequestOf(op)] == e
    ensures Exec(b, w, op, at) == w
    ensures Reply(b, w, op, at) == AnswerOf(e, FingerprintOf(w.st, op))
  {
    hide Exec, Reply, FingerprintOf, Delivered;
    RedeliveryChangesNothing(b, w, op, at);
  }

  lemma PutRemembers(b: Bounds, w: World, a: Assignment, id: Id, fp: Fingerprint, at: int)
    requires Bounded(b, w.st.table) && id != 0
    ensures
      var st := Put(b, w, a, id, fp, at).st;
      Known(st, id) && st.table.entries[id] == IdempotencyEntry(fp, Recorded(a), at)
  {
    hide Remember, Insert;
    InsertKeepsRest(w.st, a);
    RememberIsFifo(b.maxIdempotency, w.st.table, id, IdempotencyEntry(fp, Recorded(a), at));
  }

  /** An accepted supplied plan is filed under the request rebuilt from it and compared by its own
      digest: its redelivery is always refused. */
  lemma AcceptedPlanRedelivery(b: Bounds, w: World, planned: Planned, digest: Fingerprint, opts: Options, at: int, later: int)
    requires Bounded(b, w.st.table) && opts.requestId != 0 && !Known(w.st, opts.requestId)
    requires ApplyPlan(b, w, planned, digest, opts, at).result.Success?
    ensures
      var first := ApplyPlan(b, w, planned, digest, opts, at);
      ApplyPlan(b, first.w, planned, digest, opts, later) == Outcome(first.w, Failure(DuplicateDelivery))
  {
    PlanIsAuthorize(b, w, planned, digest, opts, at);
    AuthorizeRemembers(b, w, planned.plan, digest, PlanOptions(planned, opts), at);
    AuthorizeStores(b, w, planned.plan, digest, PlanOptions(planned, opts), at);
    DigestMatches(w.st, planned.plan, digest, PlanOptions(planned, opts), at);
    hide Authorize, Refuse, AuthorizeCheck, AfterPlacement, Bounded;
  }

  lemma DigestMatches(st: State, plan: Plan, digest: Fingerprint, opts: Options, at: int)
    requires AuthorizeCheck(st, plan, digest, opts, at).Success?
    ensures digest == OfPlan(plan)
  {
    hide FindRule, FindDevice, EvaluateDevice, PlanAuthority, ReplacedHolder;
  }

  /** What a replacement reads from the current record. */
  predicate SameTerms(a: Assignment, c: Assignment) {
    a.fn == c.fn && a.cls == c.cls && a.scope == c.scope && a.exclusivity == c.exclusivity && a.demand == c.demand
  }

  predicate KeepsTerms(m: map<Id, Assignment>, n: map<Id, Assignment>) {
    forall id :: id in m ==> id in n && SameTerms(m[id], n[id])
  }

  lemma MicroKeepsTerms(b: Bounds, w: World, m: Micro)
    requires Legal(b, w, m) && !MayGain(m) && Keyed(w.st.assignments)
    ensures KeepsTerms(w.st.assignments, Do(b, w, m).st.assignments) && Keyed(Do(b, w, m).st.assignments)
  {
    hide Do, Insert;
    DoWrites(b, w, m);
    if Written(b, w, m).Some? { InsertFrame(w.st, Written(b, w, m).value); }
  }

  lemma {:induction false} RunKeepsTerms(b: Bounds, w: World, tr: seq<Micro>)
    requires LegalRun(b, w, tr) && Quiet(tr) && Keyed(w.st.assignments)
    ensures KeepsTerms(w.st.assignments, Run(b, w, tr).st.assignments)
    decreases |tr|
  {
    hide Do, Legal, MayGain, Keyed;
    if tr != [] {
      MicroKeepsTerms(b, w, tr[0]);
      RunKeepsTerms(b, Do(b, w, tr[0]), tr[1..]);
    }
  }

  /** A replacement asks for the same thing when it is delivered again. */
  lemma ReplacementRepeats(b: Bounds, w: World, requestId: Id, current: Id, placement: PlacementRequest, opts: Options, at: int)
    requires Sound(w.st) && current in w.st.assignments
    requires !Known(w.st, ReplacementOf(w.st.assignments[current], requestId, placement).requestId)
    ensures
      var q := ReplacementOf(w.st.assignments[current], requestId, placement);
      var v := ApplyLocked(b, w, q, opts, at).w;
      && current in v.st.assignments && ReplacementOf(v.st.assignments[current], requestId, placement) == q
  {
    hide ApplyLocked, Authorize, PlanFor;
    var q := ReplacementOf(w.st.assignments[current], requestId, placement);
    if ApplyLocked(b, w, q, opts, at).result.Failure? {
      var tr := ApplyLockedTrace(b, w, q, opts, at);
      RunKeepsTerms(b, w, tr);
    } else {
      ApplyIsAuthorize(b, w, q, opts, at);
      OwnPlanClaims(b, w.st, q, at);
      var planned := PlanFor(b, w.st, q, false, at).value;
      AuthorizeStores(b, w, planned.plan, OfPlan(planned.plan), OwnOptions(q, opts, planned.replace), at);
    }
  }

  lemma ApplyKeepsFlags(b: Bounds, w: World, req: PlacementRequest, opts: Options, at: int)
    requires !Known(w.st, req.requestId) && ApplyLocked(b, w, req, opts, at).result.Success?
    ensures Gate(ApplyLocked(b, w, req, opts, at).w) == Gate(w)
  {
    hide ApplyLocked, Authorize, PlanFor;
    ApplyIsAuthorize(b, w, req, opts, at);
    var planned := PlanFor(b, w.st, req, false, at).value;
    AuthorizeStores(b, w, planned.plan, OfPlan(planned.plan), OwnOptions(req, opts, planned.replace), at);
  }

  /** `replace` always asks for a replacement and the rebuilt request never does: an accepted
      replacement is refused when it is delivered again. */
  lemma AcceptedReplaceRedelivery(b: Bounds, w: World, requestId: Id, current: Id, placement: PlacementRequest, cancelFrom: nat, at: int, later: int)
    requires Bounded(b, w.st.table) && Sound(w.st) && RequestOf(ReplaceWith(requestId, current, placement, cancelFrom)) != 0
    requires !Known(w.st, RequestOf(ReplaceWith(requestId, current, placement, cancelFrom)))
    requires ReplaceAssignment(b, w, requestId, current, placement, cancelFrom, at).result.Success?
    ensures
      var first := ReplaceAssignment(b, w, requestId, current, placement, cancelFrom, at);
      ReplaceAssignment(b, first.w, requestId, current, placement, cancelFrom, later) == Outcome(first.w, Failure(DuplicateDelivery))
  {
    var q, opts := ReplacementOf(w.st.assignments[current], requestId, placement), Options(requestId, true, cancelFrom);
    hide Sound, PlanFor, Authorize, ApplyLocked, Bounded, AfterPlacement;
    ReplacementRepeats(b, w, requestId, current, placement, opts, at);
    ApplyKeepsFlags(b, w, q, opts, at);
    ApplyIsAuthorize(b, w, q, opts, at);
    var planned := PlanFor(b, w.st, q, false, at).value;
    AuthorizeRemembers(b, w, planned.plan, OfPlan(planned.plan), OwnOptions(q, opts, planned.replace), at);
    KnownApply(b, ApplyLocked(b, w, q, opts, at).w, q, opts, later);
    CancelledApplyFails(b, w, q, opts, at);
  }

  lemma KnownApply(b: Bounds, w: World, req: PlacementRequest, opts: Options, at: int)
    requires Known(w.st, req.requestId) && opts.cancelFrom > 0
    ensures ApplyLocked(b, w, req, opts, at) == Outcome(w, Redeliver(w.st, req.requestId, OfRequest(req)))
  {
  }

  lemma CancelledApplyFails(b: Bounds, w: World, req: PlacementRequest, opts: Options, at: int)
    ensures opts.cancelFrom == 0 ==> ApplyLocked(b, w, req, opts, at).result.Failure?
  {
  }

  /** `revoke`, `reauthorize` and effect reports are filed under what they are compared by: a
      redelivery of one that stored its answer returns that answer, as far as it decodes. */
  lemma AcceptedRevokeRedelivery(b: Bounds, w: World, requestId: Id, id: Id, reason: Reason, authority: Id, cancelled: bool, at: int, later: int)
    requires Bounded(b, w.st.table) && requestId != 0 && !Known(w.st, requestId)
    requires id in w.st.assignments && !w.st.assignments[id].state.Revoked?
    requires RevokeAssignment(b, w, requestId, id, reason, authority, cancelled, at).result.Success?
    ensures
      var first := RevokeAssignment(b, w, requestId, id, reason, authority, cancelled, at);
      RevokeAssignment(b, first.w, requestId, id, reason, authority, cancelled, later) ==
      Outcome(first.w, Answered(first.result.value))
  {
    hide RevokeAuthority, Moved, Put, Bounded;
    PutRemembers(b, w, Moved(b, w.st.assignments[id], Lifecycle.Revoked, reason, at), requestId, OfRevoke(id, reason), at);
    PutKeepsFlags(b, w, Moved(b, w.st.assignments[id], Lifecycle.Revoked, reason, at), requestId, OfRevoke(id, reason), at);
  }

  lemma PutKeepsFlags(b: Bounds, w: World, a: Assignment, id: Id, fp: Fingerprint, at: int)
    ensures Put(b, w, a, id, fp, at).running == w.running && Put(b, w, a, id, fp, at).accepted == w.accepted
  {
  }

  lemma AcceptedReauthorizeRedelivery(b: Bounds, w: World, requestId: Id, id: Id, authority: Id, at: int, later: int)
    requires Bounded(b, w.st.table) && requestId != 0 && !Known(w.st, requestId) && !HoldsBefore(w, id)
    requires ReauthorizeAssignment(b, w, requestId, id, authority, at).result.Success?
    ensures
      var first := ReauthorizeAssignment(b, w, requestId, id, authority, at);
      ReauthorizeAssignment(b, first.w, requestId, id, authority, later) ==
      Outcome(first.w, Answered(first.result.value))
  {
    hide ReauthorizeCheck, Rebound, Put, Bounded;
    var w1, a := Raise(w, IssueTokens(w.st.counters).0), ReauthorizeAssignment(b, w, requestId, id, authority, at).result.value;
    PutRemembers(b, w1, a, requestId, OfReauthorize(id), at);
    PutKeepsFlags(b, w1, a, requestId, OfReauthorize(id), at);
  }

  lemma AcceptedReportRedelivery(b: Bounds, w: World, r: EffectReport, at: int, later: int)
    requires Bounded(b, w.st.table) && r.requestId != 0 && !Known(w.st, r.requestId)
    requires ReportEffect(b, w, r, at).result.Success? && ReportEffect(b, w, r, at).w != w
    ensures
      var first := ReportEffect(b, w, r, at);
      ReportEffect(b, first.w, r, later) ==
      Outcome(first.w, Answered(first.result.value))
  {
    hide EffectMatches, WithEffect, Remember, Insert, NoDuplicates;
    InsertKeepsRest(w.st, ReportEffect(b, w, r, at).result.value);
    RememberIsFifo(b.maxIdempotency, w.st.table, r.requestId,
                   IdempotencyEntry(OfEffect(r), Recorded(ReportEffect(b, w, r, at).result.value), at));
  }

  // ---- Refusals -------------------------------------------------------------------------------------

  lemma FailedPlacementKeepsTable(b: Bounds, w: World, plan: Plan, replacing: Id, opts: Options, at: int)
    requires PlaceRecord(b, w, plan, replacing, opts, at).result.Failure?
    ensures
      var v := PlaceRecord(b, w, plan, replacing, opts, at).w;
      v.st.table == w.st.table && v.running == w.running && v.accepted == w.accepted
  {
    hide NewRecord, Moved, Put;
    if replacing != 0 && replacing in w.st.assignments {
      StoreFrame(b, w, Moved(b, w.st.assignments[replacing], Lifecycle.Superseded, Reason.Superseded, at), 0, NoFingerprint, at);
    }
  }

  lemma FailedAuthorizeKeepsTable(b: Bounds, w: World, plan: Plan, digest: Fingerprint, opts: Options, at: int)
    requires Authorize(b, w, plan, digest, opts, at).result.Failure?
    ensures
      var v := Authorize(b, w, plan, digest, opts, at).w;
      v.st.table == w.st.table && v.running == w.running && v.accepted == w.accepted
  {
    hide AuthorizeCheck, PlaceRecord;
    var check := AuthorizeCheck(w.st, plan, digest, opts, at);
    if check.Success? && w.st.counters.ordinal < U64_MAX {
      var (c, all) := IssueTokens(w.st.counters.(ordinal := w.st.counters.ordinal + 1));
      if all { FailedPlacementKeepsTable(b, Raise(w, c), plan, check.value, opts, at); }
    }
  }

  /** A refusal that reached the table was filed with its code. */
  lemma RefusalIsFiled(b: Bounds, w: World, id: Id, fp: Fingerprint, code: Reason, at: int)
    requires Bounded(b, w.st.table) && !Known(w.st, id) && Known(Refuse(b, w, id, fp, code, at).w.st, id)
    ensures
      var o := Refuse(b, w, id, fp, code, at);
      && o.result == Failure(code) && o.w.st.table.entries[id] == IdempotencyEntry(fp, Refused(code), at)
      && o.w.running == w.running && o.w.accepted == w.accepted
  {
    hide PutRefusal;
    if id != 0 { RefusalRemembered(b, w, id, fp, code, at); }
  }

  lemma RefusalRemembered(b: Bounds, w: World, id: Id, fp: Fingerprint, code: Reason, at: int)
    requires Bounded(b, w.st.table) && id != 0
    ensures
      var v := PutRefusal(b, w, id, fp, code, at);
      && v.running == w.running && v.accepted == w.accepted
      && (id in v.st.table.entries ==> v.st.table.entries[id] == IdempotencyEntry(fp, Refused(code), at))
  {
    hide Remember;
    RememberIsFifo(b.maxIdempotency, w.st.table, id, IdempotencyEntry(fp, Refused(code), at));
  }

  lemma RefusedApplyIsFiled(b: Bounds, w: World, req: PlacementRequest, opts: Options, at: int)
    requires Bounded(b, w.st.table) && !Known(w.st, req.requestId)
    requires ApplyLocked(b, w, req, opts, at).result.Failure? && Known(ApplyLocked(b, w, req, opts, at).w.st, req.requestId)
    ensures
      var o := ApplyLocked(b, w, req, opts, at);
      && o.w.st.table.entries[req.requestId] == IdempotencyEntry(OfRequest(req), Refused(o.result.reason), at)
      && Gate(o.w) == Gate(w) && opts.cancelFrom > 0
  {
    hide PlanFor, Authorize, Refuse, Bounded;
    match PlanFor(b, w.st, req, opts.cancelFrom <= 1, at)
    case Failure(_) =>
    case Success(PlanRefused(r)) => RefusalIsFiled(b, w, req.requestId, OfRequest(req), r, at);
    case Success(PlanMade(plan, replace)) =>
      var o := Authorize(b, w, plan, OfPlan(plan), OwnOptions(req, opts, replace), at);
      if o.result.Failure? {
        FailedAuthorizeKeepsTable(b, w, plan, OfPlan(plan), OwnOptions(req, opts, replace), at);
        RefusalIsFiled(b, o.w, req.requestId, OfRequest(req), o.result.reason, at);
      }
  }

  lemma RefusedPlanIsFiled(b: Bounds, w: World, planned: Planned, digest: Fingerprint, opts: Options, at: int)
    requires Bounded(b, w.st.table) && !Known(w.st, opts.requestId)
    requires ApplyPlan(b, w, planned, digest, opts, at).result.Failure? && Known(ApplyPlan(b, w, planned, digest, opts, at).w.st, opts.requestId)
    ensures
      var o := ApplyPlan(b, w, planned, digest, opts, at);
      && o.w.st.table.entries[opts.requestId] == IdempotencyEntry(digest, Refused(o.result.reason), at)
      && Gate(o.w) == Gate(w) == Reason.Ok && planned.PlanMade?
  {
    hide Authorize, Refuse, Bounded;
    if planned.PlanMade? {
      var o := Authorize(b, w, planned.plan, digest, PlanOptions(planned, opts), at);
      if o.result.Failure? {
        FailedAuthorizeKeepsTable(b, w, planned.plan, digest, PlanOptions(planned, opts), at);
        RefusalIsFiled(b, o.w, opts.requestId, digest, o.result.reason, at);
      }
    }
  }

  /** A refusal that was remembered is repeated, whichever operation was refused. */
  lemma RefusalIsRepeated(b: Bounds, w: World, op: Operation, at: int, later: int)
    requires Bounded(b, w.st.table) && Sound(w.st) && !Known(w.st, RequestOf(op))
    requires op.ApplyRequest? || op.ApplyPlanned? || op.ReplaceWith?
    requires Reply(b, w, op, at).Failure? && Known(Exec(b, w, op, at).st, RequestOf(op))
    ensures
      var v := Exec(b, w, op, at);
      Exec(b, v, op, later) == v && Reply(b, v, op, later) == Failure(Reply(b, w, op, at).reason)
  {
    hide ApplyLocked, ApplyPlan, Bounded;
    var v := Exec(b, w, op, at);
    match op {
      case ApplyRequest(req, opts) => RefusedApplyIsFiled(b, w, req, opts, at);
      case ApplyPlanned(planned, digest, opts) => RefusedPlanIsFiled(b, w, planned, digest, opts, at);
      case ReplaceWith(id, current, placement, cancelFrom) =>
        if current in w.st.assignments {
          var q := ReplacementOf(w.st.assignments[current], id, placement);
          RefusedApplyIsFiled(b, w, q, Options(id, true, cancelFrom), at);
          ReplacementRepeats(b, w, id, current, placement, Options(id, true, cancelFrom), at);
        }
    }
    EntryAnswers(b, v, op, later, v.st.table.entries[RequestOf(op)]);
  }
}
