/** Capacity conservation over whole runs: while no demand is released twice, no accepted placement
    ever overloads its device (src/fabric.cpp, include/nof/units.hpp). */
module Conservation {
  import opened Units
  import opened Types
  import opened Decisions
  import opened Claims
  import opened Machine
  import opened Steps
  import opened Traces
  import opened Runs
  import opened Refinement
  import opened Agreement
  import opened Capacity
  import opened Restart
  import opened Holders
  import opened Dormancy

  /** The operation, as a sequence of insertions, releases no demand that was not held. */
  ghost predicate ConservingEvent(b: Bounds, w: World, e: Event, device: Id, c: Component) {
    e.Operate? && w.running && !e.op.AcceptRecovery? ==>
      var v := w.(faults := e.faults);
      exists tr :: LegalRun(b, v, tr) && Run(b, v, tr) == Exec(b, v, e.op, e.at) && ConservingRun(b, v, tr, device, c)
  }

  ghost predicate AllConserving(b: Bounds, es: seq<Event>, device: Id, c: Component) {
    forall i :: 0 <= i < |es| ==> ConservingEvent(b, RunAll(b, EMPTY_WORLD, es[..i]), es[i], device, c)
  }

  lemma RestIsConserved(st: State, device: Id, c: Component)
    requires Conservative(st)
    ensures Conserved(st, device, c)
  {
    RestIsUndegraded(st.assignments);
    NoHoldersNoLoad(st.assignments, device, c);
    assert CommittedFor(st.index.committed, device) == ZERO_DEMAND;
  }

  /** Every start makes the accounting exact, and conserving operations keep it so. */
  lemma {:induction false} RunsConserve(b: Bounds, es: seq<Event>, device: Id, c: Component)
    requires AllConserving(b, es, device, c)
    ensures RunAll(b, EMPTY_WORLD, es).running ==> Conserved(RunAll(b, EMPTY_WORLD, es).st, device, c)
  {
    hide Exec, Start, Consistent, Conserved, ConservingEvent;
    if es != [] {
      var before, e := es[..|es| - 1], es[|es| - 1];
      forall i | 0 <= i < |before| ensures ConservingEvent(b, RunAll(b, EMPTY_WORLD, before[..i]), before[i], device, c) {
        assert before[..i] == es[..i];
      }
      RunsConserve(b, before, device, c);
      var w := RunAll(b, EMPTY_WORLD, before);
      ReplayRefinesEveryRun(b, before);
      ConsistentParts(b, w);
      match e
      case Operate(op, at, faults) => if w.running { OperationConserves(b, w, op, at, faults, device, c); }
      case CrashAt(_) =>
      case Boot(boot, accept, at, faults) =>
        if !w.running {
          var v := w.(faults := faults);
          StartRunsOnlyIfOk(b, v, boot, accept, at);
          if Start(b, v, EMPTY_STATE, v.log, boot, accept, at).1 {
            RestartIsConservative(b, v, EMPTY_STATE, v.log, boot, accept, at);
            RestIsConserved(Start(b, v, EMPTY_STATE, v.log, boot, accept, at).0.st, device, c);
          }
        }
    }
  }

  lemma OperationConserves(b: Bounds, w: World, op: Operation, at: int, faults: seq<bool>, device: Id, c: Component)
    requires w.running && Conserved(w.st, device, c) && ConservingEvent(b, w, Operate(op, at, faults), device, c)
    ensures Conserved(Exec(b, w.(faults := faults), op, at).st, device, c)
  {
    hide Exec, Conserved, LegalRun, Run, ConservingRun;
    var v := w.(faults := faults);
    if op.AcceptRecovery? {
      AcceptKeepsState(b, v, at);
    } else {
      var tr :| LegalRun(b, v, tr) && Run(b, v, tr) == Exec(b, v, op, at) && ConservingRun(b, v, tr, device, c);
      RunConserves(b, v, tr, device, c);
    }
  }

  lemma AcceptedApplyFits(b: Bounds, w: World, req: PlacementRequest, opts: Options, at: int, c: Component)
    requires !Known(w.st, req.requestId) && ApplyLocked(b, w, req, opts, at).result.Success?
    requires Conserved(w.st, ApplyLocked(b, w, req, opts, at).result.value.device, c)
    ensures Fits(w, ApplyLocked(b, w, req, opts, at), c)
  {
    hide ApplyLocked, PlanFor, Authorize, Conserved;
    ApplyIsAuthorize(b, w, req, opts, at);
    var planned := PlanFor(b, w.st, req, false, at).value;
    AuthorizeStores(b, w, planned.plan, OfPlan(planned.plan), OwnOptions(req, opts, planned.replace), at);
    PlacementFits(b, w, planned.plan, OfPlan(planned.plan), OwnOptions(req, opts, planned.replace), at, c);
  }

  /** The device of the placed record carries its real load. */
  ghost predicate Fits(w: World, o: Outcome, c: Component) {
    && o.result.Success? && w.st.ev.topology.Some?
    && FindDevice(w.st.ev.topology.value.devices, o.result.value.device).Some?
    && Load(o.w.st.assignments, o.result.value.device, c) <=
       FindDevice(w.st.ev.topology.value.devices, o.result.value.device).value.capacity.Of(c)
  }

  /** In every conserving run every accepted placement leaves its device within its capacity. */
  lemma EveryPlacementFits(b: Bounds, es: seq<Event>, op: Operation, at: int, faults: seq<bool>, c: Component)
    requires Places(op) && RunAll(b, EMPTY_WORLD, es).running && !Known(RunAll(b, EMPTY_WORLD, es).st, RequestOf(op))
    requires
      var w := RunAll(b, EMPTY_WORLD, es).(faults := faults);
      Reply(b, w, op, at).Success? && AllConserving(b, es, Reply(b, w, op, at).value.device, c)
    ensures
      var w := RunAll(b, EMPTY_WORLD, es).(faults := faults);
      Fits(w, Outcome(Exec(b, w, op, at), Reply(b, w, op, at)), c)
  {
    hide RunAll, ApplyLocked, Authorize, Refuse, AllConserving, Fits, Conserved;
    var w := RunAll(b, EMPTY_WORLD, es).(faults := faults);
    RunsConserve(b, es, Reply(b, w, op, at).value.device, c);
    match op
    case ApplyRequest(req, opts) => AcceptedApplyFits(b, w, req, opts, at, c);
    case ApplyPlanned(planned, digest, opts) => AcceptedPlanFits(b, w, planned, digest, opts, at, c);
    case ReplaceWith(id, current, placement, cancelFrom) =>
      AcceptedApplyFits(b, w, ReplacementOf(w.st.assignments[current], id, placement), Options(id, true, cancelFrom), at, c);
  }

  lemma AcceptedPlanFits(b: Bounds, w: World, planned: Planned, digest: Fingerprint, opts: Options, at: int, c: Component)
    requires !Known(w.st, opts.requestId) && ApplyPlan(b, w, planned, digest, opts, at).result.Success?
    requires Conserved(w.st, ApplyPlan(b, w, planned, digest, opts, at).result.value.device, c)
    ensures Fits(w, ApplyPlan(b, w, planned, digest, opts, at), c)
  {
    hide ApplyPlan, Authorize, Conserved;
    PlanIsAuthorize(b, w, planned, digest, opts, at);
    AuthorizeStores(b, w, planned.plan, digest, PlanOptions(planned, opts), at);
    PlacementFits(b, w, planned.plan, digest, PlanOptions(planned, opts), at, c);
  }
}
