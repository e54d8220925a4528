/** Whole runs: operations, crashes that keep any prefix of the journal, and restarts. */
module Runs {
  import opened Units
  import opened Types
  import opened Decisions
  import opened Claims
  import opened Machine
  import opened Steps
  import opened Traces

  datatype Operation =
    | SubmitEvidence(r: Record)
    | ApplyRequest(request: PlacementRequest, applyOptions: Options)
    | ApplyPlanned(planned: Planned, digest: Fingerprint, planOptions: Options)
    | ReplaceWith(requestId: Id, current: Id, placement: PlacementRequest, cancelFrom: nat)
    | RevokeOne(revokeId: Id, revoked: Id, reason: Reason, revokeAuthority: Id, cancelled: bool)
    | ReauthorizeOne(reauthorizeId: Id, suspended: Id, authority: Id)
    | Report(report: EffectReport)
    | Revalidate(revalidateFrom: nat)
    | AcceptRecovery

  function Exec(b: Bounds, w: World, op: Operation, at: int): World {
    match op
    case SubmitEvidence(r) => Submit(b, w, r, at).0
    case ApplyRequest(req, opts) => Apply(b, w, req, opts, at).w
    case ApplyPlanned(planned, digest, opts) => ApplyPlan(b, w, planned, digest, opts, at).w
    case ReplaceWith(id, current, placement, cancelFrom) => ReplaceAssignment(b, w, id, current, placement, cancelFrom, at).w
    case RevokeOne(id, target, reason, authority, cancelled) => RevokeAssignment(b, w, id, target, reason, authority, cancelled, at).w
    case ReauthorizeOne(id, target, authority) => ReauthorizeAssignment(b, w, id, target, authority, at).w
    case Report(r) => ReportEffect(b, w, r, at).w
    case Revalidate(cancelFrom) => if w.running then RevalidateAll(b, w, at, cancelFrom).w else w
    case AcceptRecovery => if w.running then w.(accepted := true) else w
  }

  /** The request identifier an operation is remembered under, 0 for none. */
  function RequestOf(op: Operation): Id {
    match op
    case ApplyRequest(req, _) => req.requestId
    case ApplyPlanned(_, _, opts) => opts.requestId
    case ReplaceWith(id, _, placement, _) => if placement.requestId == 0 then id else placement.requestId
    case RevokeOne(id, _, _, _, _) => id
    case ReauthorizeOne(id, _, _) => id
    case Report(r) => r.requestId
    case _ => 0
  }

  /** The operations that answer with an assignment. */
  predicate Intent(op: Operation) { !op.SubmitEvidence? && !op.Revalidate? && !op.AcceptRecovery? }

  /** The operations that place. */
  predicate Places(op: Operation) { op.ApplyRequest? || op.ApplyPlanned? || op.ReplaceWith? }

  /** The answer of an intent. */
  function Reply(b: Bounds, w: World, op: Operation, at: int): Result<Assignment>
    requires Intent(op)
  {
    match op
    case ApplyRequest(req, opts) => Apply(b, w, req, opts, at).result
    case ApplyPlanned(planned, digest, opts) => ApplyPlan(b, w, planned, digest, opts, at).result
    case ReplaceWith(id, current, placement, cancelFrom) => ReplaceAssignment(b, w, id, current, placement, cancelFrom, at).result
    case RevokeOne(id, target, reason, authority, cancelled) => RevokeAssignment(b, w, id, target, reason, authority, cancelled, at).result
    case ReauthorizeOne(id, target, authority) => ReauthorizeAssignment(b, w, id, target, authority, at).result
    case Report(r) => ReportEffect(b, w, r, at).result
  }

  datatype Event =
    | Operate(op: Operation, at: int, faults: seq<bool>)
    | CrashAt(keep: nat)
    | Boot(boot: Id, accept: bool, bootAt: int, bootFaults: seq<bool>)

  /** The store's answers are chosen anew for every event. A new process starts from the
      empty state and the whole journal. */
  function Next(b: Bounds, w: World, e: Event): World {
    match e
    case Operate(op, at, faults) => if w.running then Exec(b, w.(faults := faults), op, at) else w
    case CrashAt(keep) => Crash(w, keep)
    case Boot(boot, accept, at, faults) =>
      if w.running then w else Start(b, w.(faults := faults), EMPTY_STATE, w.log, boot, accept, at).0
  }

  function RunAll(b: Bounds, w: World, es: seq<Event>): World {
    if es == [] then w else Next(b, RunAll(b, w, es[..|es| - 1]), es[|es| - 1])
  }

  /** The hypothesis a caller can check before an operation: neither a supplied plan nor an
      assignment that is about to regain authority meets a conflicting holder in the indexes. */
  predicate Safe(w: World, e: Event) {
    e.Operate? ==>
      match e.op
      case ApplyPlanned(planned, digest, opts) =>
        planned.PlanMade? ==> Unopposed(w.st, planned.plan, digest, PlanOptions(planned, opts), e.at)
      case ReauthorizeOne(_, target, _) => Unconflicted(w.st, target)
      case Report(r) => r.outcome.Applied? ==> Unconflicted(w.st, r.assignment)
      case _ => true
  }

  predicate AllSafe(b: Bounds, w: World, es: seq<Event>) {
    forall i :: 0 <= i < |es| ==> Safe(RunAll(b, w, es[..i]), es[i])
  }

  /** Every operation is a legal sequence of micro-steps, up to the acceptance flag; and a
      safe one is guarded throughout. */
  lemma OperationTrace(b: Bounds, w: World, op: Operation, at: int) returns (tr: seq<Micro>)
    requires Sound(w.st) && !op.AcceptRecovery?
    ensures LegalRun(b, w, tr) && Run(b, w, tr) == Exec(b, w, op, at)
    ensures Safe(w, Operate(op, at, w.faults)) ==> GuardedRun(b, w, tr)
  {
    hide Submit, ApplyLocked, ApplyPlan, RevokeAssignment, ReauthorizeAssignment, ReportEffect, RevalidateFrom, Unopposed, ScopeConflict;
    match op
    case SubmitEvidence(r) => tr := SubmitTrace(b, w, r, at);
    case ApplyRequest(req, opts) =>
      if Gate(w) == Reason.Ok { tr := ApplyLockedTrace(b, w, req, opts, at); } else { tr := []; }
    case ApplyPlanned(planned, digest, opts) =>
      tr := ApplyPlanTrace(b, w, planned, digest, opts, at);
    case ReplaceWith(id, current, placement, cancelFrom) => tr := ReplaceTrace(b, w, id, current, placement, cancelFrom, at);
    case RevokeOne(id, target, reason, authority, cancelled) => tr := RevokeTrace(b, w, id, target, reason, authority, cancelled, at);
    case ReauthorizeOne(id, target, authority) => tr := ReauthorizeTrace(b, w, id, target, authority, at);
    case Report(r) => tr := ReportTrace(b, w, r, at);
    case Revalidate(cancelFrom) =>
      if w.running { tr := RevalidateTrace(b, w, LiveIds(w.st), at, cancelFrom, Tally(0, 0, 0)); } else { tr := []; }
  }

  lemma ReplaceTrace(b: Bounds, w: World, requestId: Id, current: Id, placement: PlacementRequest, cancelFrom: nat, at: int) returns (tr: seq<Micro>)
    requires Sound(w.st)
    ensures LegalRun(b, w, tr) && Run(b, w, tr) == ReplaceAssignment(b, w, requestId, current, placement, cancelFrom, at).w
    ensures GuardedRun(b, w, tr)
  {
    hide ApplyLocked;
    if Gate(w) != Reason.Ok || current !in w.st.assignments {
      tr := [];
    } else {
      tr := ApplyLockedTrace(b, w, ReplacementOf(w.st.assignments[current], requestId, placement), Options(requestId, true, cancelFrom), at);
    }
  }
}
