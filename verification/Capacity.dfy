/** Capacity accounting over whole runs: it never claims more than the real load, it is exact
    while no demand is released twice, and then no placement overloads a device
    (src/fabric.cpp, include/nof/units.hpp). */
module Capacity {
  import opened Units
  import opened Types
  import opened Ordered
  import opened Decisions
  import opened Claims
  import opened Idempotency
  import opened Machine
  import opened Steps
  import opened Traces
  import opened Runs
  import opened Refinement
  import opened Revalidation
  import opened Agreement

  // ---- Rebuilding the accounting ---------------------------------------------------------

  lemma {:induction false} LoadOfPart(part: map<Id, Assignment>, whole: map<Id, Assignment>, device: Id, c: Component)
    requires forall id :: id in part ==> id in whole && whole[id] == part[id]
    ensures Load(part, device, c) <= Load(whole, device, c)
    decreases |whole|
  {
    if part.Keys == whole.Keys {
      assert part == whole;
    } else {
      var id :| id in whole && id !in part;
      LoadWithout(whole, id, device, c);
      LoadOfPart(part, whole - {id}, device, c);
    }
  }

  lemma {:induction false} RebuildBounded(ix: Index, m: map<Id, Assignment>, ids: seq<Id>, done: map<Id, Assignment>, device: Id, c: Component)
    requires Keyed(m) && Ascending(ids) && forall id :: id in ids ==> id in m && id !in done
    requires forall id :: id in done ==> id in m && m[id] == done[id]
    requires CommittedFor(ix.committed, device).Of(c) <= Load(done, device, c)
    ensures CommittedFor(RebuildClaims(ix, m, ids).committed, device).Of(c) <= Load(m, device, c)
    decreases |ids|
  {
    if ids == [] {
      LoadOfPart(done, m, device, c);
    } else {
      var a := m[ids[0]];
      LoadUpdate(done, a, device, c);
      RebuildBounded(Acquire(ix, a), m, ids[1..], done[a.id := a], device, c);
    }
  }

  /** Overflowed sums included, a rebuilt accounting never exceeds the real load. */
  lemma RebuildNeverOvercounts(st: State)
    requires Keyed(st.assignments)
    ensures NeverOvercounted(Rebuild(st))
  {
    hide RebuildClaims, RebuildCounters;
    forall device: Id, c: Component
      ensures CommittedFor(Rebuild(st).index.committed, device).Of(c) <= Load(st.assignments, device, c)
    {
      RebuildBounded(EMPTY_INDEX, st.assignments, LiveIds(st), map[], device, c);
    }
  }

  // ---- Every run ---------------------------------------------------------------------------

  lemma MicroNeverOvercounts(b: Bounds, w: World, m: Micro)
    requires Legal(b, w, m) && NeverOvercounted(w.st)
    ensures NeverOvercounted(Do(b, w, m).st)
  {
    hide Remember, Insert, LearnEvidence, ApplyGrants, ScopeConflict, EffectMatches;
    match m
    case Placed(a, _, _, _, _) => InsertNeverOvercounts(w.st, a);
    case Left(target, to, reason, _, _, at) => InsertNeverOvercounts(w.st, Moved(b, w.st.assignments[target], to, reason, at));
    case Reentered(target, to, authority, _, _, at) =>
      InsertNeverOvercounts(w.st, Rebound(b, w.st, w.st.assignments[target], to, authority, at));
    case Reported(r, at) => InsertNeverOvercounts(w.st, WithEffect(b, w.st.assignments[r.assignment], r, at));
    case _ =>
  }

  lemma {:induction false} RunNeverOvercounts(b: Bounds, w: World, tr: seq<Micro>)
    requires LegalRun(b, w, tr) && NeverOvercounted(w.st)
    ensures NeverOvercounted(Run(b, w, tr).st)
    decreases |tr|
  {
    hide Do, Legal, NeverOvercounted;
    if tr != [] {
      MicroNeverOvercounts(b, w, tr[0]);
      RunNeverOvercounts(b, Do(b, w, tr[0]), tr[1..]);
    }
  }

  lemma BegunNeverOvercounts(b: Bounds, w: World, base: State, tail: seq<Record>, boot: Id)
    requires Keyed(Replay(b, base, tail).assignments) && Recovered(b, base, tail).epoch.highest < U64_MAX
    ensures NeverOvercounted(Begun(b, w, base, tail, boot).st)
  {
    hide Replay, RebuildCounters, RebuildClaims;
    RebuildNeverOvercounts(Replay(b, base, tail));
  }

  lemma StartNeverOvercounts(b: Bounds, w: World, boot: Id, accept: bool, at: int)
    requires NamedLog(w.log)
    ensures
      var w' := Start(b, w, EMPTY_STATE, w.log, boot, accept, at).0;
      w'.running ==> NeverOvercounted(w'.st)
  {
    hide Recovered, SuspendFrom, NeverOvercounted, NamedLog, Recover, Decodable, Run, LegalRun, GuardedRun, Begun;
    if Begins(b, w, EMPTY_STATE, w.log) {
      var begun := Begun(b, w, EMPTY_STATE, w.log, boot);
      ReplayIsSound(b, w.log);
      BegunNeverOvercounts(b, w, EMPTY_STATE, w.log, boot);
      var tr := SuspendTrace(b, begun, LiveIds(begun.st), at);
      RunNeverOvercounts(b, begun, tr);
      CountIgnoresFlags(SuspendFrom(b, begun, LiveIds(begun.st), at).0, Start(b, w, EMPTY_STATE, w.log, boot, accept, at).0);
    }
  }

  lemma CountIgnoresFlags(w: World, v: World)
    requires w.st == v.st
    ensures NeverOvercounted(w.st) <==> NeverOvercounted(v.st)
  {
  }

  /** In every run whatsoever, the accounted demand of every device is at most the sum over
      its authority holders: releases can be counted twice, loads cannot. */
  lemma {:induction false} AccountingNeverOvercounts(b: Bounds, es: seq<Event>)
    ensures RunAll(b, EMPTY_WORLD, es).running ==> NeverOvercounted(RunAll(b, EMPTY_WORLD, es).st)
  {
    hide Exec, Start, Consistent, NeverOvercounted;
    if es != [] {
      var w, e := RunAll(b, EMPTY_WORLD, es[..|es| - 1]), es[|es| - 1];
      AccountingNeverOvercounts(b, es[..|es| - 1]);
      ReplayRefinesEveryRun(b, es[..|es| - 1]);
      ConsistentParts(b, w);
      match e
      case Operate(op, at, faults) =>
        if w.running {
          var v := w.(faults := faults);
          if op.AcceptRecovery? {
            AcceptOnlyFlags(b, v, at);
          } else {
            var tr := OperationTrace(b, v, op, at);
            RunNeverOvercounts(b, v, tr);
          }
        }
      case CrashAt(_) =>
      case Boot(boot, accept, at, faults) =>
        if !w.running { StartNeverOvercounts(b, w.(faults := faults), boot, accept, at); }
    }
  }

  lemma ConsistentParts(b: Bounds, w: World)
    requires Consistent(b, w)
    ensures NamedLog(w.log) && (w.running ==> Sound(w.st))
  {
  }

  // ---- Exactness -----------------------------------------------------------------

  /** No step of the run releases a demand that was not held, and every sum fits. */
  predicate ConservingRun(b: Bounds, w: World, tr: seq<Micro>, device: Id, c: Component)
    requires LegalRun(b, w, tr)
    decreases |tr|
  {
    tr == [] ||
    ((Written(b, w, tr[0]).Some? ==> ConservingInsert(w.st, Written(b, w, tr[0]).value, device, c)) &&
     ConservingRun(b, Do(b, w, tr[0]), tr[1..], device, c))
  }

  /** Then the accounting stays exactly the real load. */
  lemma {:induction false} RunConserves(b: Bounds, w: World, tr: seq<Micro>, device: Id, c: Component)
    requires LegalRun(b, w, tr) && Conserved(w.st, device, c) && ConservingRun(b, w, tr, device, c)
    ensures Conserved(Run(b, w, tr).st, device, c)
    decreases |tr|
  {
    hide Do, Written, ConservingInsert, Legal, Insert;
    if tr != [] {
      DoWrites(b, w, tr[0]);
      if Written(b, w, tr[0]).Some? {
        InsertConserves(w.st, Written(b, w, tr[0]).value, device, c);
      }
      RunConserves(b, Do(b, w, tr[0]), tr[1..], device, c);
    }
  }

  /** What an accepted placement was checked against. */
  lemma CheckedCapacity(st: State, plan: Plan, digest: Fingerprint, opts: Options, at: int)
    requires AuthorizeCheck(st, plan, digest, opts, at).Success?
    ensures st.ev.topology.Some? && FindDevice(st.ev.topology.value.devices, plan.device).Some?
    ensures CapacityAdmits(FindDevice(st.ev.topology.value.devices, plan.device).value.capacity,
                           CommittedFor(st.index.committed, plan.device), plan.demand)
  {
    hide EvaluateDevice, ScopeConflict, FindDevice, PlanAuthority, ReassignmentCount;
    var d := BoundTarget(st, plan, digest).value;
    var rule := FindRule(st.ev.policy.value.rules, plan.cls).value;
    var replacing := ReplacedHolder(st, plan, rule, opts, at).value;
    EligibleStages(st, AuthorizeContext(st, plan, rule, replacing, at), d);
  }

  /** While the accounting of the target is exact, an accepted placement leaves the device's
      real load within its capacity, whatever it supersedes. */
  lemma PlacementFits(b: Bounds, w: World, plan: Plan, digest: Fingerprint, opts: Options, at: int, c: Component)
    requires Authorize(b, w, plan, digest, opts, at).result.Success? && Conserved(w.st, plan.device, c)
    ensures w.st.ev.topology.Some? && FindDevice(w.st.ev.topology.value.devices, plan.device).Some?
    ensures Load(Authorize(b, w, plan, digest, opts, at).w.st.assignments, plan.device, c) <=
            FindDevice(w.st.ev.topology.value.devices, plan.device).value.capacity.Of(c)
  {
    hide Authorize, AuthorizeCheck, FindDevice;
    AuthorizeStores(b, w, plan, digest, opts, at);
    CheckedCapacity(w.st, plan, digest, opts, at);
    var a := Authorize(b, w, plan, digest, opts, at).result.value;
    var m, replacing := w.st.assignments, AuthorizeCheck(w.st, plan, digest, opts, at).value;
    if replacing != 0 && replacing in m {
      var moved := Moved(b, m[replacing], Lifecycle.Superseded, Reason.Superseded, at);
      LoadUpdate(m, moved, plan.device, c);
      LoadUpdate(m[moved.id := moved], a, plan.device, c);
    } else {
      LoadUpdate(m, a, plan.device, c);
    }
  }
}
