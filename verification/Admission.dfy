/** When a placement, a re-authorization or a revocation is admitted, over the stored records
    themselves (src/fabric.cpp, src/authority.cpp). */
module Admission {
  import opened Units
  import opened Types
  import opened Ordered
  import opened Decisions
  import opened Claims
  import opened Idempotency
  import opened Machine
  import opened Steps
  import opened Traces
  import opened Runs
  import opened Criteria
  import opened Standing
  import opened Suitability
  import opened Agreement
  import opened Holders
  import opened Choice

  // ---- Placement ------------------------------------------------------------------------------

  /** How many noted reassignments are not in the future. */
  function Budgeted(st: State, scope: Id, cls: Class, at: int): nat {
    var stamps := Stamps(st, ClassKey(scope, cls));
    |set i: nat | 0 <= i < |stamps| && stamps[i] <= at|
  }

  lemma {:induction false} CountIs(stamps: seq<int>, at: int)
    ensures CountUpTo(stamps, at) == |set i: nat | 0 <= i < |stamps| && stamps[i] <= at|
  {
    if stamps != [] {
      CountIs(stamps[1..], at);
      var all := set i: nat | 0 <= i < |stamps| && stamps[i] <= at;
      var tail := set i: nat | 0 <= i < |stamps[1..]| && stamps[1..][i] <= at;
      Shifted(tail, all - {0});
      assert stamps[0] > at ==> all == all - {0};
    }
  }

  lemma {:induction false} Shifted(s: set<nat>, t: set<nat>)
    requires forall i: nat :: i in s <==> i + 1 in t
    requires 0 !in t
    ensures |t| == |s|
    decreases |s|
  {
    if s == {} {
      forall i: nat ensures i !in t { if i > 0 { assert i - 1 !in s; } }
      assert t == {};
    } else {
      var x :| x in s;
      Shifted(s - {x}, t - {x + 1});
    }
  }

  /** The holder the plan's own claim collides with, 0 for none. */
  function InTheWay(st: State, plan: Plan): Id {
    if plan.exclusivity.Exclusive? then ScopeConflict(st.index, plan.scope.id, plan.cls, plan.exclusiveKey, 0) else 0
  }

  /** The grant the plan names permits it and has uses left; if it names none, some heard grant does. */
  predicate Authorizes(st: State, plan: Plan, rule: Rule, at: int)
    requires st.ev.policy.Some?
  {
    var need, generation := plan.effectiveRequirement + rule.required, st.ev.policy.value.generation;
    if plan.authority != 0
    then plan.authority in st.grants && Unspent(st.grants[plan.authority]) &&
         Permits(st.grants[plan.authority], Place, plan.cls, plan.kind, plan.host, plan.scope.id, need, generation, at)
    else Granted(st, plan.cls, plan.kind, plan.host, plan.scope.id, need, generation, at)
  }

  /** What a plan must meet on a device and under a rule. */
  predicate Placeable(st: State, plan: Plan, opts: Options, at: int, d: Device, rule: Rule)
    requires st.ev.policy.Some?
  {
    && d.id == plan.device && !d.decommissioned && d.incarnation == plan.incarnation && rule.cls == plan.cls
    && (plan.binding.capability != 0 ==>
          CapabilityKey(plan.device, plan.cls) in st.ev.capabilities &&
          st.ev.capabilities[CapabilityKey(plan.device, plan.cls)].generation == plan.binding.capability)
    && (InTheWay(st, plan) != 0 ==>
          opts.allowReplacement && Budgeted(st, plan.scope.id, plan.cls, at) < rule.maxReassignmentsPerScope)
    && Suitable(st, AuthorizeContext(st, plan, rule, InTheWay(st, plan), at), d)
    && (rule.requireAuthority ==> Authorizes(st, plan, rule, at)) && opts.cancelFrom > 2
  }

  /** The plan is unaltered and was made for the current topology and policy. */
  predicate Current(st: State, plan: Plan, digest: Fingerprint) {
    && digest == OfPlan(plan) && plan.scopeId == plan.scope.id && st.ev.topology.Some? && st.ev.policy.Some?
    && st.ev.topology.value.generation == plan.binding.topology && st.ev.policy.value.generation == plan.binding.policy
  }

  ghost predicate Admissible(st: State, plan: Plan, digest: Fingerprint, opts: Options, at: int) {
    && Current(st, plan, digest)
    && exists d, rule :: ListsDevice(st.ev.topology.value.devices, d) && ListsRule(st.ev.policy.value.rules, rule) &&
                         Placeable(st, plan, opts, at, d, rule)
  }

  lemma TargetIsBound(st: State, plan: Plan, digest: Fingerprint, d: Device)
    ensures BoundTarget(st, plan, digest) == Success(d) <==>
      && Current(st, plan, digest) && ListsDevice(st.ev.topology.value.devices, d)
      && d.id == plan.device && !d.decommissioned && d.incarnation == plan.incarnation
      && (plan.binding.capability != 0 ==>
            CapabilityKey(plan.device, plan.cls) in st.ev.capabilities &&
            st.ev.capabilities[CapabilityKey(plan.device, plan.cls)].generation == plan.binding.capability)
  {
    hide FindDevice, ListsDevice;
    if st.ev.topology.Some? { DeviceIs(st.ev.topology.value.devices, plan.device); }
  }

  lemma PlanAuthorityIs(st: State, plan: Plan, rule: Rule, at: int)
    requires st.ev.policy.Some? && 0 !in st.grants
    ensures PlanAuthority(st, plan, rule, at) == Reason.Ok <==> (rule.requireAuthority ==> Authorizes(st, plan, rule, at))
  {
    hide AuthorityAdmits, Permits, Granted;
    var need, generation := plan.effectiveRequirement + rule.required, st.ev.policy.value.generation;
    GrantedIs(st, plan.cls, plan.kind, plan.host, plan.scope.id, need, generation, at);
    if plan.authority in st.grants {
      GrantIs(st.grants[plan.authority], Place, plan.cls, plan.kind, plan.host, plan.scope.id, need, generation, at);
    }
  }

  lemma ReplacedIs(st: State, plan: Plan, rule: Rule, opts: Options, at: int)
    ensures
      var r := ReplacedHolder(st, plan, rule, opts, at);
      && (r.Success? <==> (InTheWay(st, plan) != 0 ==>
            opts.allowReplacement && Budgeted(st, plan.scope.id, plan.cls, at) < rule.maxReassignmentsPerScope))
      && (r.Success? ==> r.value == InTheWay(st, plan))
  {
    hide ScopeConflict, CountUpTo;
    CountIs(Stamps(st, ClassKey(plan.scope.id, plan.cls)), at);
  }

  /** The checks of a placement pass exactly when the plan is admissible, and then displace the holder
      in the way. */
  lemma AdmissibleIs(st: State, plan: Plan, digest: Fingerprint, opts: Options, at: int)
    requires 0 !in st.grants
    ensures AuthorizeCheck(st, plan, digest, opts, at).Success? <==> Admissible(st, plan, digest, opts, at)
    ensures AuthorizeCheck(st, plan, digest, opts, at).Success? ==> AuthorizeCheck(st, plan, digest, opts, at).value == InTheWay(st, plan)
  {
    hide BoundTarget, ReplacedHolder, Budgeted, EvaluateDevice, Suitable, PlanAuthority, Authorizes, FindRule, ListsRule, ListsDevice,
         AuthorizeContext, InTheWay, Rebuilt;
    forall d: Device ensures BoundTarget(st, plan, digest) == Success(d) <==>
        && Current(st, plan, digest) && ListsDevice(st.ev.topology.value.devices, d)
        && d.id == plan.device && !d.decommissioned && d.incarnation == plan.incarnation
        && (plan.binding.capability != 0 ==>
              CapabilityKey(plan.device, plan.cls) in st.ev.capabilities &&
              st.ev.capabilities[CapabilityKey(plan.device, plan.cls)].generation == plan.binding.capability)
    {
      TargetIsBound(st, plan, digest, d);
    }
    BoundNeedsEvidence(st, plan, digest);
    if Current(st, plan, digest) {
      RuleIs(st.ev.policy.value.rules, plan.cls);
      if BoundTarget(st, plan, digest).Success? && FindRule(st.ev.policy.value.rules, plan.cls).Some? {
        var d, rule := BoundTarget(st, plan, digest).value, FindRule(st.ev.policy.value.rules, plan.cls).value;
        ReplacedIs(st, plan, rule, opts, at);
        PlanAuthorityIs(st, plan, rule, at);
        SuitableIs(st, AuthorizeContext(st, plan, rule, InTheWay(st, plan), at), d);
      }
    }
  }

  lemma BoundNeedsEvidence(st: State, plan: Plan, digest: Fingerprint)
    ensures BoundTarget(st, plan, digest).Success? ==> st.ev.topology.Some? && st.ev.policy.Some? && Current(st, plan, digest)
  {
    hide FindDevice;
  }

  predicate Exhausted(c: Counters) { c.ordinal == U64_MAX || c.lease == U64_MAX || c.attempt == U64_MAX || c.fence == U64_MAX }

  /** An authorization needs an admissible plan and unexhausted counters, and nothing else while the
      store accepts commits. */
  lemma AuthorizedIff(b: Bounds, w: World, plan: Plan, digest: Fingerprint, opts: Options, at: int)
    requires 0 !in w.st.grants
    ensures Authorize(b, w, plan, digest, opts, at).result.Success? ==> Admissible(w.st, plan, digest, opts, at) && !Exhausted(w.st.counters)
    ensures w.faults == [] && Admissible(w.st, plan, digest, opts, at) && !Exhausted(w.st.counters) ==>
              Authorize(b, w, plan, digest, opts, at).result.Success?
  {
    hide AuthorizeCheck, Admissible, Insert, Moved, NewRecord;
    AdmissibleIs(w.st, plan, digest, opts, at);
  }

  /** The authority part of a supplied plan, exactly: everything else being met, it is accepted if and only
      if the grants say so. */
  lemma SuppliedPlanAcceptedIff(b: Bounds, w: World, planned: Planned, digest: Fingerprint, opts: Options, at: int)
    requires 0 !in w.st.grants && w.faults == [] && (opts.requestId == 0 || opts.requestId !in w.st.table.entries)
    ensures ApplyPlan(b, w, planned, digest, opts, at).result.Success? <==>
      && w.running && w.accepted && planned.PlanMade? && !Exhausted(w.st.counters)
      && Admissible(w.st, planned.plan, digest, Options(opts.requestId, opts.allowReplacement || planned.replace, opts.cancelFrom), at)
  {
    hide Authorize, Admissible, Refuse;
    if planned.PlanMade? {
      AuthorizedIff(b, w, planned.plan, digest, PlanOptions(planned, opts), at);
      RefuseFails(b, Authorize(b, w, planned.plan, digest, PlanOptions(planned, opts), at).w, opts.requestId, digest, at);
    }
  }

  // ---- Every accepted placement -------------------------------------------------------------------

  /** The record of a placement, field by field. */
  predicate RecordFrom(b: Bounds, st: State, plan: Plan, requestId: Id, at: int, a: Assignment) {
    var c, key := st.counters, CapabilityKey(plan.device, plan.cls);
    && a.id == c.ordinal + 1 && a.lease == c.lease + 1 && a.attempt == c.attempt + 1 && a.fence == Fence(st.epoch.counter, c.fence + 1)
    && a.generation == 1 && a.state.Dispatched? && a.effects == [] && a.createdAt == a.updatedAt == at
    && a.fn == plan.fn && a.cls == plan.cls && a.scope == plan.scope && a.exclusivity == plan.exclusivity
    && a.exclusiveKey == plan.exclusiveKey && a.mode == plan.mode && a.device == plan.device && a.host == plan.host
    && a.kind == plan.kind && a.incarnation == plan.incarnation && a.demand == plan.demand && a.authority == plan.authority
    && a.binding == Binding(plan.binding.topology, plan.binding.capability, plan.binding.policy, 1,
                            if key in st.ev.capabilities then st.ev.capabilities[key].schema else plan.binding.schema)
    && a.stateReason == (if plan.mode.HostFallback? then HostFallbackApplied else Reason.Ok)
  }

  lemma RecordIs(b: Bounds, w: World, plan: Plan, digest: Fingerprint, opts: Options, at: int)
    requires Authorize(b, w, plan, digest, opts, at).result.Success?
    ensures RecordFrom(b, w.st, plan, opts.requestId, at, Authorize(b, w, plan, digest, opts, at).result.value)
  {
    hide AuthorizeCheck, PlaceRecord;
    var check, c := AuthorizeCheck(w.st, plan, digest, opts, at), IssueTokens(w.st.counters.(ordinal := w.st.counters.ordinal + 1)).0;
    PlacementStores(b, Raise(w, c), plan, check.value, opts, at);
  }

  /** Every accepted placement is the authorization of an admissible plan under its own digest, and its
      record is that plan's. */
  ghost predicate AdmittedAs(b: Bounds, w: World, op: Operation, at: int, a: Assignment, plan: Plan) {
    exists opts :: Admissible(w.st, plan, OfPlan(plan), opts, at) && RecordFrom(b, w.st, plan, opts.requestId, at, a)
  }

  lemma AuthorizedAs(b: Bounds, w: World, op: Operation, plan: Plan, digest: Fingerprint, opts: Options, at: int)
    requires 0 !in w.st.grants && Authorize(b, w, plan, digest, opts, at).result.Success?
    ensures AdmittedAs(b, w, op, at, Authorize(b, w, plan, digest, opts, at).result.value, plan)
  {
    hide Authorize, RecordFrom, Placeable;
    AuthorizedIff(b, w, plan, digest, opts, at);
    RecordIs(b, w, plan, digest, opts, at);
  }

  lemma AcceptedIsAdmitted(b: Bounds, w: World, op: Operation, at: int)
    requires 0 !in w.st.grants && Places(op) && !Known(w.st, RequestOf(op)) && Reply(b, w, op, at).Success?
    ensures exists plan :: AdmittedAs(b, w, op, at, Reply(b, w, op, at).value, plan)
  {
    hide ApplyLocked, PlanFor, Authorize, AdmittedAs, Refuse;
    match op
    case ApplyRequest(req, opts) => OwnAdmitted(b, w, op, req, opts, at);
    case ApplyPlanned(planned, digest, opts) =>
      PlanIsAuthorize(b, w, planned, digest, opts, at);
      AuthorizedAs(b, w, op, planned.plan, digest, PlanOptions(planned, opts), at);
    case ReplaceWith(id, current, placement, cancelFrom) =>
      OwnAdmitted(b, w, op, ReplacementOf(w.st.assignments[current], id, placement), Options(id, true, cancelFrom), at);
  }

  lemma OwnAdmitted(b: Bounds, w: World, op: Operation, req: PlacementRequest, opts: Options, at: int)
    requires 0 !in w.st.grants && !Known(w.st, req.requestId) && ApplyLocked(b, w, req, opts, at).result.Success?
    ensures exists plan :: AdmittedAs(b, w, op, at, ApplyLocked(b, w, req, opts, at).result.value, plan)
  {
    hide ApplyLocked, PlanFor, Authorize, AdmittedAs;
    ApplyIsAuthorize(b, w, req, opts, at);
    var planned := PlanFor(b, w.st, req, false, at).value;
    AuthorizedAs(b, w, op, planned.plan, OfPlan(planned.plan), OwnOptions(req, opts, planned.replace), at);
  }

  /** When the rule asks for authority, every accepted apply, apply_plan and replace rests on a grant that
      was heard in this lifetime, is not withdrawn, is of the current policy generation, unexpired and
      fresh, has uses left, and covers action, class, kind, host, scope and requirement; and so does the
      grant the record names, up to being heard. */
  lemma PlacementIsPermitted(b: Bounds, w: World, op: Operation, at: int)
    requires 0 !in w.st.grants && Places(op) && !Known(w.st, RequestOf(op)) && Reply(b, w, op, at).Success?
    ensures exists rule, need :: Permitted(w.st, Reply(b, w, op, at).value, rule, need, at)
  {
    hide Reply, Granted, Permits, RecordFrom, Permitted;
    AcceptedIsAdmitted(b, w, op, at);
    var a := Reply(b, w, op, at).value;
    var plan :| AdmittedAs(b, w, op, at, a, plan);
    var opts :| Admissible(w.st, plan, OfPlan(plan), opts, at) && RecordFrom(b, w.st, plan, opts.requestId, at, a);
    var d, rule :| ListsDevice(w.st.ev.topology.value.devices, d) && ListsRule(w.st.ev.policy.value.rules, rule) &&
                   Placeable(w.st, plan, opts, at, d, rule);
    PlaceableIsPermitted(b, w.st, plan, opts, at, d, rule, a);
  }

  /** The rule's demand for authority is met for the record, under a requirement that includes the rule's. */
  ghost predicate Permitted(st: State, a: Assignment, rule: Rule, need: Mask, at: int) {
    && st.ev.policy.Some? && ListsRule(st.ev.policy.value.rules, rule) && rule.cls == a.cls && rule.required <= need
    && (rule.requireAuthority ==>
          && (exists d :: st.ev.topology.Some? && ListsDevice(st.ev.topology.value.devices, d) && d.id == a.device &&
                Granted(st, a.cls, d.kind, d.host, a.scope.id, need, st.ev.policy.value.generation, at))
          && (a.authority != 0 ==>
                && a.authority in st.grants && Unspent(st.grants[a.authority])
                && Permits(st.grants[a.authority], Place, a.cls, a.kind, a.host, a.scope.id, need, st.ev.policy.value.generation, at)))
  }

  lemma PlaceableIsPermitted(b: Bounds, st: State, plan: Plan, opts: Options, at: int, d: Device, rule: Rule, a: Assignment)
    requires st.ev.topology.Some? && st.ev.policy.Some? && ListsDevice(st.ev.topology.value.devices, d)
    requires ListsRule(st.ev.policy.value.rules, rule) && Placeable(st, plan, opts, at, d, rule)
    requires RecordFrom(b, st, plan, opts.requestId, at, a)
    ensures Permitted(st, a, rule, plan.effectiveRequirement + rule.required, at)
  {
    hide ListsDevice, ListsRule, Fallback, Wanted, Capable, Roomy, Served, Observed, Granted, Permits, ScopeConflict;
  }

  // ---- Revocation and re-authorization -------------------------------------------------------------

  /** A first revocation of a record that is not revoked is carried out exactly when it is not cancelled,
      the store accepts it and, where the record holds authority and a grant is named, that grant permits
      revoking it. */
  lemma RevokedIff(b: Bounds, w: World, requestId: Id, id: Id, reason: Reason, authority: Id, cancelled: bool, at: int)
    requires requestId == 0 || requestId !in w.st.table.entries
    ensures
      var o := RevokeAssignment(b, w, requestId, id, reason, authority, cancelled, at);
      o.w.log != w.log <==>
        && w.running && w.accepted && id in w.st.assignments && !w.st.assignments[id].state.Revoked?
        && !cancelled && !(w.faults != [] && w.faults[0])
        && (Holder(w.st.assignments[id].state) && authority != 0 ==>
              var a := w.st.assignments[id];
              && authority in w.st.grants && Unspent(w.st.grants[authority])
              && Permits(w.st.grants[authority], Action.Revoke, a.cls, a.kind, a.host, a.scope.id, {},
                         if w.st.ev.policy.Some? then w.st.ev.policy.value.generation else 0, at))
    ensures
      var o := RevokeAssignment(b, w, requestId, id, reason, authority, cancelled, at);
      o.w.log != w.log ==>
        && o.result.Success? && OnlyMoved(b, w.st.assignments[id], o.result.value, at)
        && o.result.value.state.Revoked? && o.result.value.stateReason == reason
        && o.w.st.assignments == w.st.assignments[o.result.value.id := o.result.value]
  {
    hide RevokeAuthority, Permits, Moved, Put, OnlyMoved;
    if id in w.st.assignments {
      var a := w.st.assignments[id];
      RevocationIs(w.st, a, authority, at);
      MovedOnly(b, a, Lifecycle.Revoked, reason, at);
      var moved := Moved(b, a, Lifecycle.Revoked, reason, at);
      PutIs(b, w, moved, requestId, OfRevoke(id, reason), at);
    }
  }

  lemma PutIs(b: Bounds, w: World, a: Assignment, id: Id, fp: Fingerprint, at: int)
    ensures Put(b, w, a, id, fp, at).st.assignments == w.st.assignments[a.id := a]
    ensures Put(b, w, a, id, fp, at).log == w.log + [AssignmentStored(a, id, fp)] && |Put(b, w, a, id, fp, at).log| == |w.log| + 1
  {
    hide Reindex, RefreshUsage;
  }

  /** Who may revoke: anyone, unless a grant is named for a record that holds authority. */
  lemma RevocationIs(st: State, a: Assignment, authority: Id, at: int)
    ensures RevokeAuthority(st, a, authority, at) == Reason.Ok <==>
      (Holder(a.state) && authority != 0 ==>
         && authority in st.grants && Unspent(st.grants[authority])
         && Permits(st.grants[authority], Action.Revoke, a.cls, a.kind, a.host, a.scope.id, {},
                    if st.ev.policy.Some? then st.ev.policy.value.generation else 0, at))
  {
    hide AuthorityAdmits, Permits;
    if authority in st.grants {
      GrantIs(st.grants[authority], Action.Revoke, a.cls, a.kind, a.host, a.scope.id, {}, CurrentPolicyGeneration(st), at);
    }
  }

  /** What a suspended or degraded record needs to get authority back. */
  ghost predicate Restorable(st: State, a: Assignment, authority: Id, at: int) {
    && (a.state.Suspended? || a.state.Degraded?) && authority != 0 && authority in st.grants && Unspent(st.grants[authority])
    && Permits(st.grants[authority], Action.Reauthorize, a.cls, a.kind, a.host, a.scope.id,
               if a.fn in st.ev.functions then st.ev.functions[a.fn].required else {},
               if st.ev.policy.Some? then st.ev.policy.value.generation else 0, at)
    && exists rule :: TargetStands(st.ev, a, rule, false, at) &&
         (rule.requireFreshObservation ==>
            Observed(st.ev, a.device, a.incarnation, at, Alive) || Observed(st.ev, a.device, a.incarnation, at, Liveness.Degraded))
  }

  ghost predicate RestoredDegraded(st: State, a: Assignment, at: int) {
    exists rule :: TargetStands(st.ev, a, rule, false, at) && rule.requireFreshObservation &&
                   Observed(st.ev, a.device, a.incarnation, at, Liveness.Degraded)
  }

  lemma RestorableIs(st: State, a: Assignment, authority: Id, at: int)
    ensures ReauthorizeCheck(st, a, authority, at).Success? <==> Restorable(st, a, authority, at)
    ensures ReauthorizeCheck(st, a, authority, at).Success? ==>
      ReauthorizeCheck(st, a, authority, at).value == if RestoredDegraded(st, a, at) then Lifecycle.Degraded else Dispatched
  {
    hide AuthorityAdmits, Permits, TargetValidity, TargetStands, Observed, DeviceFault, PolicyFault, BindingFault, LivenessFault;
    TargetIs(st.ev, a, false, at);
    forall rule | TargetStands(st.ev, a, rule, false, at)
      ensures st.ev.policy.Some? && FindRule(st.ev.policy.value.rules, a.cls) == Some(rule)
    {
      AnyTargetHasRule(st, a, rule, at);
    }
    AliveIsNotDegraded(st.ev, a.device, a.incarnation, at);
    if authority in st.grants {
      GrantIs(st.grants[authority], Action.Reauthorize, a.cls, a.kind, a.host, a.scope.id,
              if a.fn in st.ev.functions then st.ev.functions[a.fn].required else {}, CurrentPolicyGeneration(st), at);
    }
  }

  lemma AnyTargetHasRule(st: State, a: Assignment, rule: Rule, at: int)
    requires TargetStands(st.ev, a, rule, false, at)
    ensures st.ev.policy.Some? && FindRule(st.ev.policy.value.rules, a.cls) == Some(rule)
  {
    hide FindRule, ListsRule;
    PolicyIs(st.ev, a, at);
  }

  /** `reauthorize` gives a record without authority new tokens, the named grant and the current bindings
      exactly when it is restorable, the counters are not exhausted and the store accepts it. */
  lemma ReauthorizedIff(b: Bounds, w: World, requestId: Id, id: Id, authority: Id, at: int)
    requires requestId == 0 || requestId !in w.st.table.entries
    ensures
      var o := ReauthorizeAssignment(b, w, requestId, id, authority, at);
      o.w.log != w.log <==>
        && w.running && w.accepted && id in w.st.assignments && Restorable(w.st, w.st.assignments[id], authority, at)
        && w.st.counters.lease < U64_MAX && w.st.counters.attempt < U64_MAX && w.st.counters.fence < U64_MAX
        && !(w.faults != [] && w.faults[0])
    ensures
      var o := ReauthorizeAssignment(b, w, requestId, id, authority, at);
      o.w.log != w.log ==>
        && o.result.Success? && Restored(w.st, w.st.assignments[id], o.result.value, authority, at)
        && o.w.st.assignments == w.st.assignments[o.result.value.id := o.result.value]
  {
    hide ReauthorizeCheck, Restorable, RestoredDegraded, Moved, Insert;
    if id in w.st.assignments {
      var a := w.st.assignments[id];
      RestorableIs(w.st, a, authority, at);
      RestorableState(w.st, a, authority, at);
      var w1 := Raise(w, IssueTokens(w.st.counters).0);
      if Restorable(w.st, a, authority, at) {
        var to := ReauthorizeCheck(w.st, a, authority, at).value;
        ReboundIs(b, w1.st, a, to, authority, at);
        InsertFrame(w1.st, Rebound(b, w1.st, a, to, authority, at));
      }
    }
  }

  lemma RestorableState(st: State, a: Assignment, authority: Id, at: int)
    ensures Restorable(st, a, authority, at) ==> !HoldsAuthority(a.state)
  {
  }

  /** The record with authority again. */
  ghost predicate Restored(st: State, a: Assignment, c: Assignment, authority: Id, at: int) {
    var key := CapabilityKey(a.device, a.cls);
    && (if RestoredDegraded(st, a, at) then c.state.Degraded? else c.state.Dispatched?)
    && c == a.(state := c.state, stateReason := Reason.Ok, updatedAt := at, history := c.history, effects := c.effects,
               lease := st.counters.lease + 1, attempt := st.counters.attempt + 1,
               fence := Fence(st.epoch.counter, st.counters.fence + 1), authority := authority,
               binding := Binding(if st.ev.topology.Some? then st.ev.topology.value.generation else a.binding.topology,
                                  if key in st.ev.capabilities then st.ev.capabilities[key].generation else a.binding.capability,
                                  if st.ev.policy.Some? then st.ev.policy.value.generation else a.binding.policy,
                                  a.binding.assignment,
                                  if key in st.ev.capabilities then st.ev.capabilities[key].schema else a.binding.schema))
  }

  lemma ReboundIs(b: Bounds, st: State, a: Assignment, to: Lifecycle, authority: Id, at: int)
    ensures
      var c, key := Rebound(b, st, a, to, authority, at), CapabilityKey(a.device, a.cls);
      && c.state == to
      && c == a.(state := to, stateReason := Reason.Ok, updatedAt := at, history := c.history, effects := c.effects,
                 lease := st.counters.lease, attempt := st.counters.attempt,
                 fence := Fence(st.epoch.counter, st.counters.fence), authority := authority,
                 binding := Binding(if st.ev.topology.Some? then st.ev.topology.value.generation else a.binding.topology,
                                    if key in st.ev.capabilities then st.ev.capabilities[key].generation else a.binding.capability,
                                    if st.ev.policy.Some? then st.ev.policy.value.generation else a.binding.policy,
                                    a.binding.assignment,
                                    if key in st.ev.capabilities then st.ev.capabilities[key].schema else a.binding.schema))
  {
  }

  /** An accepted apply places on the device its plan was rightly made for. */
  lemma AppliedIsChosen(b: Bounds, w: World, req: PlacementRequest, opts: Options, at: int)
    requires 0 !in w.st.grants && (w.st.ev.topology.Some? ==> StrictlyOrdered(w.st.ev.topology.value.devices))
    requires !Known(w.st, req.requestId) && ApplyLocked(b, w, req, opts, at).result.Success?
    ensures
      var a := ApplyLocked(b, w, req, opts, at).result.value;
      exists c, d :: Plannable(b, w.st, req, at, c) && d in Considered(b, w.st) && Suitable(w.st, c, d) && PlacedOn(w.st, c, d, a) &&
        forall e :: e in Considered(b, w.st) && Suitable(w.st, c, e) ==> NotPassedOver(w.st, c, d, e)
  {
    hide ApplyLocked, PlanFor, Authorize, Suitable, NotPassedOver, Considered, Names, PlacedOn, RecordFrom;
    hide Describes, ListsRule, Heard, Occupant;
    ApplyIsAuthorize(b, w, req, opts, at);
    var planned := PlanFor(b, w.st, req, false, at).value;
    PlanIs(b, w.st, req, at);
    RecordIs(b, w, planned.plan, OfPlan(planned.plan), OwnOptions(req, opts, planned.replace), at);
    var a := ApplyLocked(b, w, req, opts, at).result.value;
    var c, d :| Plannable(b, w.st, req, at, c) && d in Considered(b, w.st) && Suitable(w.st, c, d) && Names(w.st, c, d, planned.plan) &&
                forall e :: e in Considered(b, w.st) && Suitable(w.st, c, e) ==> NotPassedOver(w.st, c, d, e);
    NamedIsPlaced(b, w.st, c, d, planned.plan, OwnOptions(req, opts, planned.replace).requestId, at, a);
  }

  /** The record lies on the device, under the request, the grant and the bindings of the plan. */
  ghost predicate PlacedOn(st: State, c: Context, d: Device, a: Assignment) {
    && a.device == d.id && a.host == d.host && a.kind == d.kind && a.incarnation == d.incarnation
    && a.fn == c.request.fn && a.cls == c.request.cls && a.scope == c.request.scope && a.demand == c.request.demand
    && a.exclusivity == c.request.exclusivity && a.exclusiveKey == c.rule.exclusiveKey
    && a.mode == (if Fallback(c, d) then HostFallback else Offloaded) && a.binding.capability == Bound(st, c, d)
    && (if c.rule.requireAuthority then LeastGrant(st, c, d, a.authority) else a.authority == 0)
  }

  lemma NamedIsPlaced(b: Bounds, st: State, c: Context, d: Device, plan: Plan, requestId: Id, at: int, a: Assignment)
    requires Names(st, c, d, plan) && RecordFrom(b, st, plan, requestId, at, a)
    ensures PlacedOn(st, c, d, a)
  {
    hide Fallback, Bound, LeastGrant;
  }

  // ---- Replacement ---------------------------------------------------------------------------------

  /** The request of a replacement: what it leaves open is taken from the record it names. */
  predicate ReplacementAsks(q: PlacementRequest, current: Assignment, requestId: Id, placement: PlacementRequest) {
    && q == placement.(requestReplacement := true, requestId := q.requestId, fn := q.fn, cls := q.cls, scope := q.scope,
                       exclusivity := q.exclusivity, demand := q.demand)
    && q.requestId == (if placement.requestId != 0 then placement.requestId else requestId)
    && (if placement.fn != 0
        then q.fn == placement.fn && q.cls == placement.cls && q.scope == placement.scope && q.exclusivity == placement.exclusivity &&
             q.demand == placement.demand
        else q.fn == current.fn && q.cls == current.cls && q.scope == current.scope && q.exclusivity == current.exclusivity &&
             q.demand == current.demand)
  }

  /** An accepted replace places the request it stands for on the device rightly chosen for it. What it
      supersedes is the holder in the way of the new claim, which need not be the record it names: that one
      keeps its authority unless it is this holder. */
  lemma ReplacedIsChosen(b: Bounds, w: World, requestId: Id, current: Id, placement: PlacementRequest, cancelFrom: nat, at: int)
    requires 0 !in w.st.grants && (w.st.ev.topology.Some? ==> StrictlyOrdered(w.st.ev.topology.value.devices))
    requires Keyed(w.st.assignments) && !HoldsBefore(w, w.st.counters.ordinal + 1)
    requires !Known(w.st, RequestOf(ReplaceWith(requestId, current, placement, cancelFrom)))
    requires ReplaceAssignment(b, w, requestId, current, placement, cancelFrom, at).result.Success?
    ensures
      var o := ReplaceAssignment(b, w, requestId, current, placement, cancelFrom, at);
      current in w.st.assignments && o.result.value.id != 0 &&
      exists c: Context, d: Device :: ReplacementAsks(c.request, w.st.assignments[current], requestId, placement) && PlacedOn(w.st, c, d, o.result.value)
    ensures
      var o := ReplaceAssignment(b, w, requestId, current, placement, cancelFrom, at);
      var a := o.result.value;
      var was := w.st.assignments[current];
      Holder(was.state) ==>
        && current in o.w.st.assignments && current != a.id
        && if a.exclusivity.Exclusive? && current == ScopeConflict(w.st.index, a.scope.id, a.cls, a.exclusiveKey, 0)
           then o.w.st.assignments[current].state.Superseded? else o.w.st.assignments[current] == was
  {
    hide ApplyLocked, PlanFor, Authorize, AuthorizeCheck, Plannable, Suitable, NotPassedOver, Considered, PlacedOn, ScopeConflict, Names;
    var q, opts := ReplacementOf(w.st.assignments[current], requestId, placement), Options(requestId, true, cancelFrom);
    AppliedIsChosen(b, w, q, opts, at);
    PlannableAsks(b, w.st, q, at);
    assert ReplacementAsks(q, w.st.assignments[current], requestId, placement);
    ApplyIsAuthorize(b, w, q, opts, at);
    var planned := PlanFor(b, w.st, q, false, at).value;
    var own := OwnOptions(q, opts, planned.replace);
    AuthorizeStores(b, w, planned.plan, OfPlan(planned.plan), own, at);
    AdmissibleIs(w.st, planned.plan, OfPlan(planned.plan), own, at);
  }

  lemma PlannableAsks(b: Bounds, st: State, req: PlacementRequest, at: int)
    ensures forall c :: Plannable(b, st, req, at, c) ==> c.request == req && st.ev.topology.Some?
  {
    hide Describes, ListsRule, Heard, Occupant;
  }

  /** The same grants without the action Replace. */
  function NoReplacing(grants: map<Id, Grant>): map<Id, Grant> {
    map g | g in grants :: grants[g].(actions := grants[g].actions - {Action.Replace})
  }

  /** A replacement is admitted like any placement, under the action Place: whether a grant lists Replace
      makes no difference to any admission. */
  lemma ReplaceIsNeverAsked(st: State, plan: Plan, digest: Fingerprint, opts: Options, at: int)
    ensures Admissible(st.(grants := NoReplacing(st.grants)), plan, digest, opts, at) <==> Admissible(st, plan, digest, opts, at)
  {
    var t := st.(grants := NoReplacing(st.grants));
    forall cls, kind, host, scope, need, generation
      ensures Granted(t, cls, kind, host, scope, need, generation, at) <==> Granted(st, cls, kind, host, scope, need, generation, at)
    {
      GrantedWithoutReplace(st, t, cls, kind, host, scope, need, generation, at);
    }
    hide Granted, Heard, Capable, Roomy, Wanted, Served, Observed, Budgeted, ScopeConflict;
    forall d: Device, rule: Rule | st.ev.policy.Some?
      ensures Placeable(t, plan, opts, at, d, rule) <==> Placeable(st, plan, opts, at, d, rule)
    {
      PlaceableWithoutReplace(st, t, plan, opts, at, d, rule);
    }
    hide Placeable;
  }

  lemma GrantedWithoutReplace(st: State, t: State, cls: Class, kind: DeviceKind, host: Id, scope: Id, need: Mask, generation: nat, at: int)
    requires t == st.(grants := NoReplacing(st.grants))
    ensures Granted(t, cls, kind, host, scope, need, generation, at) <==> Granted(st, cls, kind, host, scope, need, generation, at)
  {
    hide Heard, FreshAt;
    forall g | g in st.grants
      ensures Permits(t.grants[g], Place, cls, kind, host, scope, need, generation, at) <==>
              Permits(st.grants[g], Place, cls, kind, host, scope, need, generation, at)
      ensures Unspent(t.grants[g]) <==> Unspent(st.grants[g])
    {
      assert t.grants[g] == st.grants[g].(actions := st.grants[g].actions - {Action.Replace});
    }
    hide Permits, Unspent;
    if Granted(st, cls, kind, host, scope, need, generation, at) {
      var g :| g in st.grants && Heard(st.ev, st.grants[g].provenance, AuthorityEvidence) && Unspent(st.grants[g]) &&
               Permits(st.grants[g], Place, cls, kind, host, scope, need, generation, at);
      assert t.grants[g].provenance == st.grants[g].provenance && g in t.grants;
    }
  }

  lemma PlaceableWithoutReplace(st: State, t: State, plan: Plan, opts: Options, at: int, d: Device, rule: Rule)
    requires t == st.(grants := NoReplacing(st.grants)) && st.ev.policy.Some?
    ensures Placeable(t, plan, opts, at, d, rule) <==> Placeable(st, plan, opts, at, d, rule)
  {
    hide Granted, ScopeConflict, Heard, Observed;
    GrantedWithoutReplace(st, t, plan.cls, d.kind, d.host, plan.scope.id, plan.effectiveRequirement + rule.required, st.ev.policy.value.generation, at);
    GrantedWithoutReplace(st, t, plan.cls, plan.kind, plan.host, plan.scope.id, plan.effectiveRequirement + rule.required, st.ev.policy.value.generation, at);
    var c := AuthorizeContext(st, plan, rule, InTheWay(st, plan), at);
    assert AuthorizeContext(t, plan, rule, InTheWay(t, plan), at) == c;
    assert Roomy(t, c, d) == Roomy(st, c, d) && Capable(t, c, d) == Capable(st, c, d);
  }
}
