/** The runtime itself: `Fabric::Impl` as an object whose methods update its state step by step,
    each proved against the state machine (src/fabric.cpp). */
module Fabric {
  import opened Units
  import opened Types
  import opened Ordered
  import opened Decisions
  import opened Ranking
  import opened Claims
  import opened Idempotency
  import opened Machine

  lemma UsersGrow(m: map<Id, Assignment>, done: set<Id>, id: Id, g: Id)
    requires id in m && id !in done
    ensures |Users(m, g) * (done + {id})| ==
            |Users(m, g) * done| + (if HoldsAuthority(m[id].state) && g != 0 && m[id].authority == g then 1 else 0)
  {
    if HoldsAuthority(m[id].state) && g != 0 && m[id].authority == g {
      assert Users(m, g) * (done + {id}) == Users(m, g) * done + {id};
    } else {
      assert Users(m, g) * (done + {id}) == Users(m, g) * done;
    }
  }

  /** Every counter of `grants` counts the holders among `done`. */
  ghost predicate Counted(start: map<Id, Grant>, grants: map<Id, Grant>, m: map<Id, Assignment>, done: set<Id>) {
    && grants.Keys == start.Keys
    && forall g :: g in start ==> grants[g] == start[g].(used := |Users(m, g) * done|)
  }

  function CountUse(grants: map<Id, Grant>, a: Assignment): map<Id, Grant> {
    if HoldsAuthority(a.state) && a.authority != 0 && a.authority in grants
    then grants[a.authority := grants[a.authority].(used := grants[a.authority].used + 1)]
    else grants
  }

  lemma CountedGrows(start: map<Id, Grant>, grants: map<Id, Grant>, m: map<Id, Assignment>, done: set<Id>, id: Id)
    requires Counted(start, grants, m, done) && id in m && id !in done
    ensures Counted(start, CountUse(grants, m[id]), m, done + {id})
  {
    hide Users;
    forall g | g in start ensures CountUse(grants, m[id])[g] == start[g].(used := |Users(m, g) * (done + {id})|) {
      UsersGrow(m, done, id, g);
    }
  }

  lemma CountedUses(start: map<Id, Grant>, grants: map<Id, Grant>, m: map<Id, Assignment>)
    requires Counted(start, grants, m, m.Keys)
    ensures grants == RefreshUsage(start, m)
  {
    forall g | g in start ensures grants[g] == start[g].(used := |Users(m, g)|) {
      assert Users(m, g) * m.Keys == Users(m, g);
    }
  }

  /** The loops of `refresh_authority_usage`: reset every counter, then count one use per holder. */
  method CountUses(start: map<Id, Grant>, m: map<Id, Assignment>) returns (grants: map<Id, Grant>)
    ensures grants == RefreshUsage(start, m)
  {
    grants := map g | g in start :: start[g].(used := 0);
    var done: set<Id> := {};
    assert Counted(start, grants, m, done) by {
      assert forall g :: Users(m, g) * done == {};
    }
    hide *;
    while done != m.Keys
      invariant done <= m.Keys
      invariant Counted(start, grants, m, done)
      decreases m.Keys - done
    {
      assert exists i :: i in m.Keys && i !in done;
      var id :| id in m.Keys && id !in done;
      CountedGrows(start, grants, m, done, id);
      grants, done := CountUse(grants, m[id]), done + {id};
    }
    CountedUses(start, grants, m);
  }

  lemma GateNeedsEvidence(st: State, req: PlacementRequest, at: int)
    requires EvidenceGate(st, req, at) == Reason.Ok
    ensures st.ev.topology.Some? && st.ev.policy.Some?
  {
  }

  class Impl {
    const bounds: Bounds
    var state: State
    var log: seq<Record>
    var faults: seq<bool>
    var running: bool
    var accepted: bool
    ghost var issued: seq<Fence>
    ghost var freshId: bool
    ghost var freshFence: bool

    ghost function W(): World
      reads this
    {
      World(state, log, faults, issued, freshId, freshFence, running, accepted)
    }

    constructor (b: Bounds)
      ensures bounds == b && W() == EMPTY_WORLD
    {
      bounds, state, log, faults, running, accepted := b, EMPTY_STATE, [], [], false, false;
      issued, freshId, freshFence := [], false, false;
    }

    /** `commit`: the store accepts the record or refuses it; memory is not touched. */
    method Commit(r: Record) returns (ok: bool)
      modifies this
      ensures ok == !CommitFails(old(W()))
      ensures W() == if ok then Logged(old(W()), r) else Machine.Fault(old(W()))
    {
      ok := faults == [] || !faults[0];
      if faults != [] { faults := faults[1..]; }
      if ok { log := log + [r]; }
    }

    method AcquireClaims(a: Assignment)
      modifies this`state
      ensures state == old(state).(index := Acquire(old(state.index), a))
    {
      var ix := state.index;
      if a.exclusivity.Exclusive? && HoldsAuthority(a.state) {
        if a.exclusiveKey.PerClass? {
          ix := ix.(byClass := ix.byClass[ClassKey(a.scope.id, a.cls) := a.id]);
        } else {
          ix := ix.(byScope := ix.byScope[a.scope.id := a.id]);
        }
      }
      if HoldsAuthority(a.state) {
        var used := CommittedFor(ix.committed, a.device);
        ix := ix.(committed := ix.committed[a.device := AddDemand(used, a.demand)]);
      }
      state := state.(index := ix);
    }

    method ReleaseClaims(a: Assignment)
      modifies this`state
      ensures state == old(state).(index := Release(old(state.index), a))
    {
      var ix := state.index;
      var k := ClassKey(a.scope.id, a.cls);
      if k in ix.byClass && ix.byClass[k] == a.id {
        ix := ix.(byClass := ix.byClass - {k});
      }
      if a.scope.id in ix.byScope && ix.byScope[a.scope.id] == a.id {
        ix := ix.(byScope := ix.byScope - {a.scope.id});
      }
      var used := CommittedFor(ix.committed, a.device);
      state := state.(index := ix.(committed := ix.committed[a.device := SubDemand(used, a.demand)]));
    }

    method RefreshAuthorityUsage()
      modifies this`state
      ensures state == old(state).(grants := RefreshUsage(old(state.grants), old(state.assignments)))
    {
      var grants := CountUses(state.grants, state.assignments);
      state := state.(grants := grants);
    }

    /** `insert_assignment`. */
    method InsertAssignment(a: Assignment)
      modifies this`state
      ensures state == Insert(old(state), a)
    {
      if a.id in state.assignments {
        ReleaseClaims(state.assignments[a.id]);
      }
      state := state.(assignments := state.assignments[a.id := a]);
      AcquireClaims(a);
      RefreshAuthorityUsage();
    }

    /** `record_idempotency`, with its eviction loop. */
    method RecordIdempotency(id: Id, fp: Fingerprint, response: Response, at: int)
      modifies this`state
      ensures state == Answer(bounds, old(state), id, fp, response, at)
    {
      if id == 0 { return; }
      var order: seq<Id>, entries: map<Id, IdempotencyEntry> := state.table.order, state.table.entries;
      if id !in entries { order := order + [id]; }
      entries := entries[id := IdempotencyEntry(fp, response, at)];
      ghost var grown := Table(entries, order);
      while |entries| > bounds.maxIdempotency && order != []
        invariant Evict(bounds.maxIdempotency, Table(entries, order)) == Evict(bounds.maxIdempotency, grown)
        decreases |order|
      {
        entries, order := entries - {order[0]}, order[1..];
      }
      state := state.(table := Table(entries, order));
    }

    /** `store_assignment`. */
    method StoreAssignment(a: Assignment, id: Id, fp: Fingerprint, at: int) returns (ok: bool)
      modifies this
      ensures (W(), ok) == Store(bounds, old(W()), a, id, fp, at)
    {
      ok := Commit(AssignmentStored(a, id, fp));
      if ok {
        InsertAssignment(a);
        RecordIdempotency(id, fp, Recorded(a), at);
      }
    }

    /** `note_reassignment`: memory first, then the journal. */
    method NoteReassignment(scope: Id, cls: Class, at: int) returns (ok: bool)
      modifies this
      ensures
        var noted := NoteInMemory(bounds, old(W()), scope, cls, at);
        && ok == !CommitFails(noted)
        && W() == if ok then Logged(noted, ReassignmentRecorded(scope, cls, at)) else Machine.Fault(noted)
    {
      var key := ClassKey(scope, cls);
      var stamps := Stamps(state, key) + [at];
      ghost var all := stamps;
      while |stamps| > bounds.maxReassignments * 8
        invariant |stamps| <= |all| && stamps == all[|all| - |stamps|..]
        invariant |stamps| >= bounds.maxReassignments * 8 || stamps == all
      {
        stamps := stamps[1..];
      }
      state := state.(reassignments := state.reassignments[key := stamps]);
      ok := Commit(ReassignmentRecorded(scope, cls, at));
    }

    /** `record_refusal`. */
    method RecordRefusal(id: Id, fp: Fingerprint, code: Reason, at: int) returns (result: Result<Assignment>)
      modifies this
      ensures Outcome(W(), result) == Refuse(bounds, old(W()), id, fp, code, at)
    {
      hide Answer;
      result := Failure(code);
      if id != 0 {
        var ok := Commit(RequestRecorded(id, fp, code, at));
        if ok { RecordIdempotency(id, fp, Refused(code), at); } else { result := Failure(StoreUnavailable); }
      }
    }

    method IssueTokens(c: Counters)
      modifies this
      ensures W() == Raise(old(W()), c)
    {
      issued := if c.fence > state.counters.fence then issued + [Fence(state.epoch.counter, c.fence)] else issued;
      freshId, freshFence := freshId || c.ordinal > state.counters.ordinal, freshFence || c.fence > state.counters.fence;
      state := state.(counters := c);
    }

    // ---- Planning -----------------------------------------------------------------------------

    /** The evaluation loop of `plan_locked`. */
    method EvaluateCandidates(c: Context, devices: seq<Device>) returns (eligible: seq<Candidate>, refused: seq<Candidate>)
      ensures eligible == Candidates(state, c, devices, true) && refused == Candidates(state, c, devices, false)
    {
      hide EvaluateDevice, RankOf;
      eligible, refused := [], [];
      assert devices[0..] == devices;
      for i := 0 to |devices|
        invariant eligible + Candidates(state, c, devices[i..], true) == Candidates(state, c, devices, true)
        invariant refused + Candidates(state, c, devices[i..], false) == Candidates(state, c, devices, false)
      {
        assert devices[i..][0] == devices[i] && devices[i..][1..] == devices[i + 1..];
        var e := EvaluateDevice(state, c, devices[i]);
        var candidate := RankOf(state, c.request, e, devices[i]);
        ghost var next := Candidates(state, c, devices[i + 1..], e.Eligible());
        if e.Eligible() {
          assert eligible + ([candidate] + next) == eligible + [candidate] + next;
          eligible := eligible + [candidate];
        } else {
          assert refused + ([candidate] + next) == refused + [candidate] + next;
          refused := refused + [candidate];
        }
      }
      assert devices[|devices|..] == [];
    }

    /** The two selection loops of `plan_locked`: the best eligible target, or the reason of the
        best refused one. */
    method ChooseTarget(c: Context) returns (planned: Planned)
      requires state.ev.topology.Some? && state.ev.policy.Some?
      ensures planned == ChooseDevice(bounds, state, c)
    {
      hide EvaluateDevice, Candidates, PlanOn, FindDevice, Best;
      var all := state.ev.topology.value.devices;
      var devices := if |all| < bounds.maxCandidates then all else all[..bounds.maxCandidates];
      var eligible, refused := EvaluateCandidates(c, devices);
      var best := Select(eligible);
      if best.Some? {
        var d := FindDevice(devices, best.value.device);
        return if d.Some? then PlanOn(state, c, d.value) else PlanRefused(NoEligibleTarget);
      }
      best := Select(refused);
      if best.Some? {
        var d := FindDevice(devices, best.value.device);
        return PlanRefused(if d.Some? then EvaluateDevice(state, c, d.value).reason else NoEligibleTarget);
      }
      return PlanRefused(NoEligibleTarget);
    }

    /** `plan_locked`. */
    method PlanLocked(req: PlacementRequest, cancelled: bool, at: int) returns (result: Result<Planned>)
      ensures result == PlanFor(bounds, state, req, cancelled, at)
    {
      hide EvidenceGate, Descriptor, ChooseDevice, FindRule, Displaced;
      if cancelled { return Failure(Cancelled); }
      if req.fn == 0 { return Failure(InvalidIdentifier); }
      var gate := EvidenceGate(state, req, at);
      if gate != Reason.Ok { return Success(PlanRefused(gate)); }
      GateNeedsEvidence(state, req, at);
      var f := Descriptor(state, req);
      if f.Failure? { return Success(PlanRefused(f.reason)); }
      if |f.value.required| > bounds.maxSemantics { return Failure(LimitExceeded); }
      var rule := FindRule(state.ev.policy.value.rules, req.cls);
      if rule.None? { return Success(PlanRefused(RefusedByPolicy)); }
      if !req.requestReplacement && Displaced(state, req) != 0 { return Success(PlanRefused(ExclusiveConflict)); }
      var planned := ChooseTarget(PlanContext(state, req, f.value, rule.value, at));
      return Success(planned);
    }

    // ---- Authorization ------------------------------------------------------------------------

    /** The commits of a placement, once its tokens are issued. */
    method Place(plan: Plan, replacing: Id, opts: Options, at: int) returns (result: Result<Assignment>)
      modifies this
      ensures Outcome(W(), result) == PlaceRecord(bounds, old(W()), plan, replacing, opts, at)
    {
      var planned := state;
      var a := NewRecord(bounds, state, plan, opts, at);
      if replacing != 0 && replacing in state.assignments {
        var moved := Moved(bounds, state.assignments[replacing], Lifecycle.Superseded, Reason.Superseded, at);
        var superseded := StoreAssignment(moved, 0, NoFingerprint, at);
        if !superseded { return Failure(StoreUnavailable); }
        var noted := NoteReassignment(plan.scope.id, plan.cls, at);
        if !noted { return Failure(StoreUnavailable); }
      }
      var fp := if opts.requestId == 0 then NoFingerprint else OfRequest(Rebuilt(planned, plan));
      var ok := StoreAssignment(a, opts.requestId, fp, at);
      if !ok { return Failure(StoreUnavailable); }
      freshId, freshFence := false, false;
      return Success(a);
    }

    /** `authorize_locked`. */
    method AuthorizeLocked(plan: Plan, digest: Fingerprint, opts: Options, at: int) returns (result: Result<Assignment>)
      modifies this
      ensures Outcome(W(), result) == Authorize(bounds, old(W()), plan, digest, opts, at)
    {
      hide AuthorizeCheck, PlaceRecord;
      var check := AuthorizeCheck(state, plan, digest, opts, at);
      if check.Failure? { return Failure(check.reason); }
      if state.counters.ordinal == U64_MAX { return Failure(ArithmeticOverflow); }
      var (c, all) := Machine.IssueTokens(state.counters.(ordinal := state.counters.ordinal + 1));
      IssueTokens(c);
      if !all { return Failure(ArithmeticOverflow); }
      result := Place(plan, check.value, opts, at);
    }

    /** `apply_locked`. */
    method ApplyLocked(req: PlacementRequest, opts: Options, at: int) returns (result: Result<Assignment>)
      modifies this
      ensures Outcome(W(), result) == Machine.ApplyLocked(bounds, old(W()), req, opts, at)
    {
      hide PlanFor, Authorize, Refuse;
      if opts.cancelFrom == 0 { return Failure(Cancelled); }
      if Known(state, req.requestId) { return Redeliver(state, req.requestId, OfRequest(req)); }
      var planned := PlanLocked(req, opts.cancelFrom <= 1, at);
      match planned
      case Failure(r) => return Failure(r);
      case Success(PlanRefused(r)) => result := RecordRefusal(req.requestId, OfRequest(req), r, at);
      case Success(PlanMade(plan, replace)) =>
        var effective := Options(if req.requestId != 0 then req.requestId else opts.requestId,
                                 opts.allowReplacement || req.requestReplacement || replace, opts.cancelFrom);
        result := AuthorizeLocked(plan, OfPlan(plan), effective, at);
        if result.Failure? {
          result := RecordRefusal(req.requestId, OfRequest(req), result.reason, at);
        }
    }

    /** `apply`. */
    method Apply(req: PlacementRequest, opts: Options, at: int) returns (result: Result<Assignment>)
      modifies this
      ensures Outcome(W(), result) == Machine.Apply(bounds, old(W()), req, opts, at)
    {
      hide Machine.ApplyLocked;
      if !running { return Failure(ShuttingDown); }
      if !accepted { return Failure(RecoveryRequired); }
      result := ApplyLocked(req, opts, at);
    }

    /** `apply_plan`. */
    method ApplyPlan(planned: Planned, digest: Fingerprint, opts: Options, at: int) returns (result: Result<Assignment>)
      modifies this
      ensures Outcome(W(), result) == Machine.ApplyPlan(bounds, old(W()), planned, digest, opts, at)
    {
      hide Authorize, Refuse;
      if !running { return Failure(ShuttingDown); }
      if !accepted { return Failure(RecoveryRequired); }
      match planned
      case PlanRefused(r) => return Failure(r);
      case PlanMade(plan, replace) =>
        if Known(state, opts.requestId) { return Redeliver(state, opts.requestId, digest); }
        result := AuthorizeLocked(plan, digest, opts.(allowReplacement := opts.allowReplacement || replace), at);
        if result.Failure? { result := RecordRefusal(opts.requestId, digest, result.reason, at); }
    }

    /** `replace`. */
    method Replace(requestId: Id, current: Id, placement: PlacementRequest, cancelFrom: nat, at: int) returns (result: Result<Assignment>)
      modifies this
      ensures Outcome(W(), result) == ReplaceAssignment(bounds, old(W()), requestId, current, placement, cancelFrom, at)
    {
      hide Machine.ApplyLocked;
      if !running { return Failure(ShuttingDown); }
      if !accepted { return Failure(RecoveryRequired); }
      if current !in state.assignments { return Failure(NotFound); }
      var a, p := state.assignments[current], placement.(requestReplacement := true);
      if p.requestId == 0 { p := p.(requestId := requestId); }
      if p.fn == 0 {
        p := p.(fn := a.fn, cls := a.cls, scope := a.scope, exclusivity := a.exclusivity, demand := a.demand);
      }
      result := ApplyLocked(p, Options(requestId, true, cancelFrom), at);
    }

    // ---- Other operations -----------------------------------------------------------------------

    /** The part of `revoke` after the lookup. */
    method RevokeFound(requestId: Id, a: Assignment, fp: Fingerprint, reason: Reason, authority: Id, cancelled: bool, at: int)
      returns (result: Result<Assignment>)
      modifies this
      ensures W() == RevokeRecord(bounds, old(W()), requestId, a, fp, reason, authority, cancelled, at).w
      ensures result == RevokeRecord(bounds, old(W()), requestId, a, fp, reason, authority, cancelled, at).result
    {
      hide RevokeAuthority, Moved, Store;
      var admitted := RevokeAuthority(state, a, authority, at);
      if a.state.Revoked? {
        result := Success(a);
      } else if cancelled || admitted != Reason.Ok {
        result := Failure(if cancelled then Cancelled else admitted);
      } else {
        result := StoreMoved(Moved(bounds, a, Lifecycle.Revoked, reason, at), requestId, fp, at);
      }
    }

    method StoreMoved(a: Assignment, id: Id, fp: Fingerprint, at: int) returns (result: Result<Assignment>)
      modifies this
      ensures W() == Store(bounds, old(W()), a, id, fp, at).0
      ensures result == if Store(bounds, old(W()), a, id, fp, at).1 then Success(a) else Failure(StoreUnavailable)
    {
      hide Store;
      var ok := StoreAssignment(a, id, fp, at);
      result := if ok then Success(a) else Failure(StoreUnavailable);
    }

    /** `revoke`. */
    method Revoke(requestId: Id, id: Id, reason: Reason, authority: Id, cancelled: bool, at: int) returns (result: Result<Assignment>)
      modifies this
      ensures Outcome(W(), result) == RevokeAssignment(bounds, old(W()), requestId, id, reason, authority, cancelled, at)
    {
      hide RevokeRecord, Known, Redeliver;
      if !running { return Failure(ShuttingDown); }
      if !accepted { return Failure(RecoveryRequired); }
      if Known(state, requestId) { return Redeliver(state, requestId, OfRevoke(id, reason)); }
      if id !in state.assignments { return Failure(NotFound); }
      result := RevokeFound(requestId, state.assignments[id], OfRevoke(id, reason), reason, authority, cancelled, at);
    }

    /** The evidence entry points: check, commit, learn, and revalidate where the source does. */
    method SubmitEvidence(r: Record, at: int) returns (result: Result<()>)
      modifies this
      ensures (W(), result) == Submit(bounds, old(W()), r, at)
    {
      hide EvidenceCheck, Learn, RevalidateFrom, LiveIds;
      if !running { return Failure(ShuttingDown); }
      if !r.AuthorityWithdrawn? && !accepted { return Failure(RecoveryRequired); }
      match EvidenceCheck(bounds, state, r)
      case Failure(reason) => return Failure(reason);
      case Success(known) =>
        if known { return Success(()); }
        var ok := Commit(r);
        if !ok { return Failure(StoreUnavailable); }
        state := Learn(state, r);
        result := Success(());
        if Revalidates(r) {
          var tally, failure := RevalidateLocked(at, |LiveIds(state)| + 1);
          if failure.Some? { result := Failure(failure.value); }
        }
    }

    /** `reauthorize`. */
    method Reauthorize(requestId: Id, id: Id, authority: Id, at: int) returns (result: Result<Assignment>)
      modifies this
      ensures Outcome(W(), result) == ReauthorizeAssignment(bounds, old(W()), requestId, id, authority, at)
    {
      hide ReauthorizeCheck, Rebound, Put;
      if !running { return Failure(ShuttingDown); }
      if !accepted { return Failure(RecoveryRequired); }
      if Known(state, requestId) { return Redeliver(state, requestId, OfReauthorize(id)); }
      if id !in state.assignments { return Failure(NotFound); }
      var a := state.assignments[id];
      if HoldsAuthority(a.state) { return Success(a); }
      match ReauthorizeCheck(state, a, authority, at)
      case Failure(r) => return Failure(r);
      case Success(to) =>
        var (c, all) := Machine.IssueTokens(state.counters);
        IssueTokens(c);
        if !all { return Failure(ArithmeticOverflow); }
        var rebound := Rebound(bounds, state, a, to, authority, at);
        var ok := StoreAssignment(rebound, requestId, OfReauthorize(id), at);
        if !ok { return Failure(StoreUnavailable); }
        freshFence := false;
        return Success(rebound);
    }

    /** `report_effect`, with its scan for a duplicate. */
    method ReportEffect(r: EffectReport, at: int) returns (result: Result<Assignment>)
      modifies this
      ensures Outcome(W(), result) == Machine.ReportEffect(bounds, old(W()), r, at)
    {
      hide EffectMatches, WithEffect;
      if !running { return Failure(ShuttingDown); }
      if !accepted { return Failure(RecoveryRequired); }
      if Known(state, r.requestId) { return Redeliver(state, r.requestId, OfEffect(r)); }
      if r.assignment !in state.assignments { return Failure(NotFound); }
      var a := state.assignments[r.assignment];
      var matches := EffectMatches(state, a, r);
      if matches != Reason.Ok { return Failure(matches); }
      for i := 0 to |a.effects|
        invariant forall j :: 0 <= j < i ==> !SameEffect(a.effects[j], r)
        invariant W() == old(W())
      {
        if SameEffect(a.effects[i], r) { return Success(a); }
      }
      if IsTerminal(a.state) { return Failure(IllegalStateTransition); }
      if r.outcome.Applied? {
        if a.state.AppliedVerified? { return Success(a); }
        if !a.state.Dispatched? && !a.state.Acknowledged? && !a.state.Degraded? { return Failure(IllegalStateTransition); }
      }
      var next := WithEffect(bounds, a, r, at);
      var ok := Commit(EffectRecorded(r, next, OfEffect(r)));
      if !ok { return Failure(StoreUnavailable); }
      InsertAssignment(next);
      RecordIdempotency(r.requestId, OfEffect(r), Recorded(next), at);
      return Success(next);
    }

    /** `revalidate_locked`: one pass over the identifiers that were live when it began. */
    method RevalidateLocked(at: int, cancelFrom: nat) returns (tally: Tally, failure: Option<Reason>)
      modifies this
      ensures Revalidation(W(), tally, failure) == RevalidateAll(bounds, old(W()), at, cancelFrom)
    {
      hide Validity, Moved, Put, Store, LiveIds;
      var ids := LiveIds(state);
      tally, failure := Tally(0, 0, 0), None;
      ghost var goal := RevalidateAll(bounds, W(), at, cancelFrom);
      var i := 0;
      while i < |ids|
        invariant 0 <= i <= |ids| && i <= cancelFrom
        invariant RevalidateFrom(bounds, W(), ids[i..], at, cancelFrom - i, tally) == goal
        invariant failure == None
      {
        var id := ids[i];
        assert ids[i..][0] == id && ids[i..][1..] == ids[i + 1..];
        if i == cancelFrom { return tally, Some(Cancelled); }
        i := i + 1;
        if id in state.assignments && !IsTerminal(state.assignments[id].state) {
          var a := state.assignments[id];
          tally := tally.(checked := tally.checked + 1);
          var reason := Validity(state, a, at);
          if reason == LivenessDegraded {
            if !a.state.Degraded? {
              var ok := StoreAssignment(Moved(bounds, a, Lifecycle.Degraded, reason, at), 0, NoFingerprint, at);
              if !ok { return tally, Some(StoreUnavailable); }
              tally := tally.(degraded := tally.degraded + 1);
            }
          } else if reason != Reason.Ok {
            var ok := StoreAssignment(Moved(bounds, a, Lifecycle.Suspended, reason, at), 0, NoFingerprint, at);
            if !ok { return tally, Some(StoreUnavailable); }
            tally := tally.(suspended := tally.suspended + 1);
          }
        }
      }
      assert ids[i..] == [];
    }

    // ---- Recovery --------------------------------------------------------------------------------

    /** The replay loop of `start`. */
    method ReplayJournal(records: seq<Record>) returns (ok: bool)
      modifies this`state
      ensures ok == !exists i :: 0 <= i < |records| && !Decodable(bounds, records[i])
      ensures ok ==> state == Replay(bounds, old(state), records)
    {
      hide ApplyRecord;
      for i := 0 to |records|
        invariant forall j :: 0 <= j < i ==> Decodable(bounds, records[j])
        invariant state == Replay(bounds, old(state), records[..i])
      {
        if !Decodable(bounds, records[i]) { return false; }
        assert records[..i + 1][..i] == records[..i];
        state := ApplyRecord(bounds, state, records[i]);
      }
      assert records[..|records|] == records;
      ok := true;
    }

    /** `rebuild_indexes`: clear the claims, then one pass over the live records. */
    method RebuildIndexes()
      modifies this`state
      ensures state == Rebuild(old(state))
    {
      ghost var before := state;
      var ids := LiveIds(state);
      state := state.(index := EMPTY_INDEX);
      ghost var index := RebuildClaims(EMPTY_INDEX, before.assignments, ids);
      ghost var counters := RebuildCounters(before, before.counters, ids);
      for i := 0 to |ids|
        invariant state.(index := before.index, counters := before.counters) == before
        invariant RebuildClaims(state.index, before.assignments, ids[i..]) == index
        invariant RebuildCounters(before, state.counters, ids[i..]) == counters
      {
        assert ids[i..][0] == ids[i] && ids[i..][1..] == ids[i + 1..];
        var a, c := state.assignments[ids[i]], state.counters;
        state := state.(counters := Counters(
          AtLeast(c.ordinal, a.id), AtLeast(c.lease, a.lease), AtLeast(c.attempt, a.attempt),
          if a.fence.epoch == state.epoch.counter then AtLeast(c.fence, a.fence.sequence) else c.fence));
        AcquireClaims(a);
      }
      assert ids[|ids|..] == [];
      RefreshAuthorityUsage();
    }

    /** The suspension loop of `start`. */
    method SuspendLive(at: int) returns (ok: bool)
      modifies this
      ensures (W(), ok) == SuspendFrom(bounds, old(W()), LiveIds(old(state)), at)
    {
      hide Moved, Put;
      var ids := LiveIds(state);
      ghost var goal := SuspendFrom(bounds, W(), ids, at);
      for i := 0 to |ids|
        invariant SuspendFrom(bounds, W(), ids[i..], at) == goal
      {
        assert ids[i..][0] == ids[i] && ids[i..][1..] == ids[i + 1..];
        if ids[i] in state.assignments && !state.assignments[ids[i]].state.Suspended? {
          ok := StoreAssignment(Moved(bounds, state.assignments[ids[i]], Lifecycle.Suspended, RestartAuthorityReset, at), 0, NoFingerprint, at);
          if !ok { return; }
        }
      }
      assert ids[|ids|..] == [];
      ok := true;
    }

    /** The first half of `start`: replay the journal over `base` and rebuild what is derived. */
    method RecoverState(base: State) returns (ok: bool)
      modifies this
      ensures ok == !exists i :: 0 <= i < |old(log)| && !Decodable(bounds, old(log)[i])
      ensures ok ==> W() == old(W()).(st := Recovered(bounds, base, old(log)))
    {
      hide Replay, Rebuild, Decodable;
      state := base;
      ok := ReplayJournal(log);
      if ok { RebuildIndexes(); }
    }

    /** The second half: reset what belongs to a lifetime, suspend, and run. */
    method BeginLifetime(epoch: Epoch, accept: bool, at: int) returns (ok: bool)
      modifies this
      ensures (W(), ok) ==
        Launch(bounds, old(W()).(st := Recover(old(state).(epoch := epoch)), freshId := false, freshFence := false), accept, at)
    {
      hide SuspendFrom, Recover, LiveIds;
      freshId, freshFence := false, false;
      state := Recover(state.(epoch := epoch));
      ok := SuspendLive(at);
      running, accepted := ok, if ok then accept else accepted;
    }

    /** `start` of a new process on a store that holds `base` and the journal after it. */
    method StartProcess(base: State, boot: Id, accept: bool, at: int) returns (ok: bool)
      modifies this
      ensures ok == Start(bounds, old(W()), base, old(log), boot, accept, at).1
      ensures ok ==> W() == Start(bounds, old(W()), base, old(log), boot, accept, at).0
    {
      hide Recovered, Launch, Recover, Decodable;
      ok := RecoverState(base);
      if ok && state.epoch.highest < U64_MAX {
        var next := state.epoch.highest + 1;
        ok := Commit(EpochStarted(next, boot));
        if ok {
          ok := BeginLifetime(Epoch(next, boot, next), accept, at);
        } else {
          running := false;
        }
      } else {
        running, ok := false, false;
      }
    }
  }
}
