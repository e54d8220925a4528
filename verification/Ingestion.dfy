/** What the fabric lets itself be told, and that it never unlearns it: sources and generations only
    move forward, grants are never reissued, withdrawals are never taken back (src/fabric.cpp). */
module Ingestion {
  import opened Units
  import opened Types
  import opened Ordered
  import opened Decisions
  import opened Claims
  import opened Idempotency
  import opened Machine
  import opened Steps
  import opened Traces
  import opened Runs
  import opened Refinement
  import opened Revalidation
  import opened Capacity
  import opened Restart
  import opened Criteria
  import opened Dormancy

  // ---- What is accepted ---------------------------------------------------------------------

  /** The source has a name and the report is later than everything seen from it. */
  predicate Later(ev: Evidence, p: Provenance, domain: Domain) {
    && p.source != 0 && p.sequence != 0
    && (SourceKey(p.source, domain) in ev.sources && ev.sources[SourceKey(p.source, domain)].seen ==>
          ev.sources[SourceKey(p.source, domain)].lastSequence < p.sequence)
  }

  /** What must hold for a record to be learned. */
  ghost predicate Learnable(b: Bounds, st: State, r: Record) {
    match r
    case FunctionRegistered(f) =>
      && f.id != 0 && |f.required| <= b.maxSemantics && (f.id in st.ev.functions || |st.ev.functions| < b.maxFunctions)
      && (f.id in st.ev.functions ==> st.ev.functions[f.id] != f)
    case TopologyIngested(t) =>
      && (forall i, j :: 0 <= i < j < |t.devices| ==> t.devices[i].id < t.devices[j].id) && t.generation != 0
      && Later(st.ev, t.provenance, TopologyEvidence)
      && (st.ev.topology.Some? ==>
            || st.ev.topology.value.generation < t.generation
            || (st.ev.topology.value.generation == t.generation && st.ev.topologyDigest == OfTopology(t)))
    case PolicyIngested(p) =>
      && p.generation != 0 && Later(st.ev, p.provenance, PolicyEvidence)
      && (st.ev.policy.Some? ==>
            || st.ev.policy.value.generation < p.generation
            || (st.ev.policy.value.generation == p.generation && st.ev.policyDigest == OfPolicy(p)))
    case CapabilityIngested(c) =>
      Later(st.ev, c.provenance, CapabilityEvidence) && forall i :: 0 <= i < |c.records| ==> Compatible(st.ev, c.records[i])
    case ObservationsIngested(o) =>
      && Later(st.ev, o.provenance, ObservationEvidence)
      && st.ev.topology.Some? && o.topologyGeneration == st.ev.topology.value.generation
      && forall i :: 0 <= i < |o.devices| ==> Located(st.ev.topology.value.devices, o.devices[i])
    case AuthorityGranted(g) =>
      && g.id != 0 && st.ev.policy.Some? && g.policyGeneration == st.ev.policy.value.generation
      && Later(st.ev, g.provenance, AuthorityEvidence) && g.id !in st.grants && |st.grants| < b.maxGrants
    case AuthorityWithdrawn(id, _, _) => id != 0 && id in st.grants && !st.grants[id].revoked
    case _ => false
  }

  /** A capability record does not go back, and does not contradict its own generation. */
  predicate Compatible(ev: Evidence, c: CapabilityRecord) {
    var key := CapabilityKey(c.device, c.cls);
    key in ev.capabilities ==>
      var known := ev.capabilities[key];
      && known.generation <= c.generation
      && (known.generation == c.generation ==>
            known == c.(schema := known.schema, provenance := known.provenance, freshness := known.freshness,
                        device := known.device, cls := known.cls))
  }

  /** An observation is about a listed device in its current incarnation. */
  ghost predicate Located(devices: seq<Device>, o: Observation) {
    exists d :: ListsDevice(devices, d) && d.id == o.device && d.incarnation == o.incarnation
  }

  lemma LaterIs(st: State, p: Provenance, domain: Domain, digest: EvidenceDigest)
    ensures AcceptEvidence(st, p, domain, digest) == Success(false) <==> Later(st.ev, p, domain)
  {
  }

  /** An exact repetition is answered and ignored; anything else not later is refused. */
  lemma RepetitionIs(st: State, p: Provenance, domain: Domain, digest: EvidenceDigest)
    requires p.source != 0 && p.sequence != 0 && !Later(st.ev, p, domain)
    ensures
      var known := st.ev.sources[SourceKey(p.source, domain)];
      AcceptEvidence(st, p, domain, digest) ==
      if p.sequence < known.lastSequence then Failure(SequenceRegression)
      else if digest == known.lastDigest then Success(true) else Failure(EvidenceConflicting)
  {
  }

  lemma {:induction false} CompatibleIs(st: State, records: seq<CapabilityRecord>)
    ensures CapabilityConflict(st, records) == Reason.Ok <==> forall i :: 0 <= i < |records| ==> Compatible(st.ev, records[i])
    decreases |records|
  {
    if records != [] {
      CompatibleIs(st, records[1..]);
      assert forall i :: 0 < i < |records| ==> records[i] == records[1..][i - 1];
      assert (forall i :: 0 <= i < |records| ==> Compatible(st.ev, records[i])) <==>
             (Compatible(st.ev, records[0]) && forall i :: 0 <= i < |records[1..]| ==> Compatible(st.ev, records[1..][i]));
    }
  }

  lemma {:induction false} PlacedIs(t: Topology, devices: seq<Observation>)
    ensures ObservationTargets(t, devices) == Reason.Ok <==> forall i :: 0 <= i < |devices| ==> Located(t.devices, devices[i])
    decreases |devices|
  {
    hide ListsDevice, FindDevice;
    if devices != [] {
      PlacedIs(t, devices[1..]);
      DeviceIs(t.devices, devices[0].device);
      assert forall i :: 0 < i < |devices| ==> devices[i] == devices[1..][i - 1];
      assert (forall i :: 0 <= i < |devices| ==> Located(t.devices, devices[i])) <==>
             (Located(t.devices, devices[0]) && forall i :: 0 <= i < |devices[1..]| ==> Located(t.devices, devices[1..][i]));
    }
  }

  lemma LearnableIs(b: Bounds, st: State, r: Record)
    ensures EvidenceCheck(b, st, r) == Success(false) <==> Learnable(b, st, r)
  {
    hide AcceptEvidence, Later, CapabilityConflict, ObservationTargets, Compatible, Located;
    match r
    case TopologyIngested(t) => LaterIs(st, t.provenance, TopologyEvidence, OfTopology(t));
    case PolicyIngested(p) => LaterIs(st, p.provenance, PolicyEvidence, OfPolicy(p));
    case CapabilityIngested(c) => LaterIs(st, c.provenance, CapabilityEvidence, OfCapabilities(c)); CompatibleIs(st, c.records);
    case ObservationsIngested(o) =>
      LaterIs(st, o.provenance, ObservationEvidence, OfObservations(o));
      if st.ev.topology.Some? { PlacedIs(st.ev.topology.value, o.devices); }
    case AuthorityGranted(g) => LaterIs(st, g.provenance, AuthorityEvidence, OfGrant(g));
    case _ =>
  }

  /** What is then known: exactly what was told, and nothing else changed. */
  ghost predicate Told(before: State, now: State, r: Record) {
    && GrantsAgree(now.grants, match r
                               case AuthorityGranted(g) => before.grants[g.id := g]
                               case AuthorityWithdrawn(id, _, _) =>
                                 if id in before.grants then before.grants[id := before.grants[id].(revoked := true)] else before.grants
                               case _ => before.grants)
    && match r
       case FunctionRegistered(f) => now.ev == before.ev.(functions := before.ev.functions[f.id := f])
       case TopologyIngested(t) =>
         && now.ev == before.ev.(topology := Some(t), topologyDigest := OfTopology(t), sources := now.ev.sources)
         && HeardLast(before.ev, now.ev, t.provenance, TopologyEvidence, OfTopology(t))
       case PolicyIngested(p) =>
         && now.ev == before.ev.(policy := Some(p), policyDigest := OfPolicy(p), sources := now.ev.sources)
         && HeardLast(before.ev, now.ev, p.provenance, PolicyEvidence, OfPolicy(p))
       case CapabilityIngested(c) =>
         && now.ev == before.ev.(capabilities := now.ev.capabilities, sources := now.ev.sources)
         && HeardLast(before.ev, now.ev, c.provenance, CapabilityEvidence, OfCapabilities(c))
         && (forall key :: key in before.ev.capabilities ==> key in now.ev.capabilities)
         && forall key :: key in now.ev.capabilities ==>
              || (key in before.ev.capabilities && now.ev.capabilities[key] == before.ev.capabilities[key])
              || exists i :: 0 <= i < |c.records| && now.ev.capabilities[key] == c.records[i] &&
                   key == CapabilityKey(c.records[i].device, c.records[i].cls)
       case ObservationsIngested(o) =>
         && now.ev == before.ev.(observations := now.ev.observations, sources := now.ev.sources)
         && HeardLast(before.ev, now.ev, o.provenance, ObservationEvidence, OfObservations(o))
         && forall i :: 0 <= i < |o.devices| && (forall j :: i < j < |o.devices| ==> o.devices[j].device != o.devices[i].device) ==>
              o.devices[i].device in now.ev.observations && now.ev.observations[o.devices[i].device] == o.devices[i]
       case AuthorityGranted(g) =>
         && now.ev == before.ev.(sources := now.ev.sources)
         && HeardLast(before.ev, now.ev, g.provenance, AuthorityEvidence, OfGrant(g))
       case _ => now.ev == before.ev
  }

  /** The source is now known up to this report; no other source moved, and its floor did not. */
  ghost predicate HeardLast(before: Evidence, now: Evidence, p: Provenance, domain: Domain, digest: EvidenceDigest) {
    var key := SourceKey(p.source, domain);
    && key in now.sources && now.sources[key].seen && now.sources[key].lastSequence == p.sequence && now.sources[key].lastDigest == digest
    && now.sources[key].restartFloor == (if key in before.sources then before.sources[key].restartFloor else 0)
    && (forall k :: k != key ==> (k in now.sources <==> k in before.sources))
    && (forall k :: k != key && k in before.sources ==> now.sources[k] == before.sources[k])
  }

  lemma {:induction false} CapabilitiesAre(m: map<CapabilityKey, CapabilityRecord>, records: seq<CapabilityRecord>)
    ensures forall key :: key in WithCapabilities(m, records) ==>
              || (key in m && WithCapabilities(m, records)[key] == m[key])
              || exists i :: 0 <= i < |records| && WithCapabilities(m, records)[key] == records[i] && key == CapabilityKey(records[i].device, records[i].cls)
    ensures forall key :: key in m ==> key in WithCapabilities(m, records)
    decreases |records|
  {
    if records != [] {
      var n := m[CapabilityKey(records[0].device, records[0].cls) := records[0]];
      CapabilitiesAre(n, records[1..]);
      var all := WithCapabilities(m, records);
      forall key | key in all && !(key in m && all[key] == m[key])
        ensures exists i :: 0 <= i < |records| && all[key] == records[i] && key == CapabilityKey(records[i].device, records[i].cls)
      {
        if key in n && all[key] == n[key] {
          assert all[key] == records[0];
        } else {
          var i :| 0 <= i < |records[1..]| && all[key] == records[1..][i] && key == CapabilityKey(records[1..][i].device, records[1..][i].cls);
          assert records[i + 1] == records[1..][i];
        }
      }
    }
  }

  lemma {:induction false} ObservationsAre(m: map<Id, Observation>, devices: seq<Observation>)
    ensures forall i :: 0 <= i < |devices| && (forall j :: i < j < |devices| ==> devices[j].device != devices[i].device) ==>
              devices[i].device in WithObservations(m, devices) && WithObservations(m, devices)[devices[i].device] == devices[i]
    ensures forall id :: id in m && (forall j :: 0 <= j < |devices| ==> devices[j].device != id) ==>
              id in WithObservations(m, devices) && WithObservations(m, devices)[id] == m[id]
    decreases |devices|
  {
    if devices != [] {
      var n, rest := m[devices[0].device := devices[0]], devices[1..];
      ObservationsAre(n, rest);
      forall i | 0 <= i < |devices| && (forall j :: i < j < |devices| ==> devices[j].device != devices[i].device)
        ensures devices[i].device in WithObservations(m, devices) && WithObservations(m, devices)[devices[i].device] == devices[i]
      {
        if i > 0 {
          assert rest[i - 1] == devices[i];
          forall j | i - 1 < j < |rest| ensures rest[j].device != rest[i - 1].device { assert rest[j] == devices[j + 1]; }
        } else {
          forall j | 0 <= j < |rest| ensures rest[j].device != devices[0].device { assert rest[j] == devices[j + 1]; }
        }
      }
      forall id | id in m && (forall j :: 0 <= j < |devices| ==> devices[j].device != id)
        ensures id in WithObservations(m, devices) && WithObservations(m, devices)[id] == m[id]
      {
        forall j | 0 <= j < |rest| ensures rest[j].device != id { assert rest[j] == devices[j + 1]; }
      }
    }
  }

  lemma MarkTells(before: Evidence, now: Evidence, p: Provenance, domain: Domain, digest: EvidenceDigest)
    requires now.sources == Mark(before.sources, p, domain, digest)
    ensures HeardLast(before, now, p, domain, digest)
  {
  }

  lemma AgreeReflexive(g: map<Id, Grant>) ensures GrantsAgree(g, g) {}

  lemma LearnTells(b: Bounds, st: State, r: Record)
    requires Learnable(b, st, r)
    ensures Told(st, Learn(st, r), r)
  {
    hide WithCapabilities, WithObservations, Later, Compatible, Located, Mark, HeardLast, GrantsAgree;
    var now := Learn(st, r);
    AgreeReflexive(now.grants);
    match r
    case TopologyIngested(t) => MarkTells(st.ev, now.ev, t.provenance, TopologyEvidence, OfTopology(t));
    case PolicyIngested(p) => MarkTells(st.ev, now.ev, p.provenance, PolicyEvidence, OfPolicy(p));
    case CapabilityIngested(c) =>
      MarkTells(st.ev, now.ev, c.provenance, CapabilityEvidence, OfCapabilities(c));
      CapabilitiesAre(st.ev.capabilities, c.records);
    case ObservationsIngested(o) =>
      MarkTells(st.ev, now.ev, o.provenance, ObservationEvidence, OfObservations(o));
      ObservationsAre(st.ev.observations, o.devices);
    case AuthorityGranted(g) => MarkTells(st.ev, now.ev, g.provenance, AuthorityEvidence, OfGrant(g));
    case _ =>
  }

  lemma ToldReads(before: State, s: State, t: State, r: Record)
    requires Told(before, s, r) && SameEvidence(t, s)
    ensures Told(before, t, r)
  {
    hide HeardLast;
  }

  /** Telling the fabric something takes effect exactly when it runs, recovery was accepted unless it is
      a withdrawal, the record is learnable and the store accepts it; then that is what is known. */
  lemma SubmitIs(b: Bounds, w: World, r: Record, at: int)
    ensures
      var o := Submit(b, w, r, at);
      o.0.log != w.log <==> w.running && (r.AuthorityWithdrawn? || w.accepted) && Learnable(b, w.st, r) && !(w.faults != [] && w.faults[0])
    ensures
      var o := Submit(b, w, r, at);
      if o.0.log == w.log then o.0.st == w.st else w.log + [r] <= o.0.log && Told(w.st, o.0.st, r)
  {
    hide EvidenceCheck, Learnable, Learn, RevalidateFrom, Told;
    LearnableIs(b, w.st, r);
    if Learnable(b, w.st, r) && !CommitFails(w) {
      LearnTells(b, w.st, r);
      var learned := Logged(w, r).(st := Learn(w.st, r));
      SameEvidenceReflexive(learned.st);
      var n := |LiveIds(learned.st)| + 1;
      RevalidationGrows(b, learned, LiveIds(learned.st), at, n, Tally(0, 0, 0));
      ToldReads(w.st, learned.st, RevalidateFrom(b, learned, LiveIds(learned.st), at, n, Tally(0, 0, 0)).w.st, r);
      ToldReads(w.st, learned.st, learned.st, r);
    }
  }

  lemma {:induction false} RevalidationGrows(b: Bounds, w: World, ids: seq<Id>, at: int, cancelFrom: nat, tally: Tally)
    ensures var v := RevalidateFrom(b, w, ids, at, cancelFrom, tally).w; w.log <= v.log && SameEvidence(v.st, w.st)
    decreases |ids|
  {
    hide Put, Moved, Validity, GrantsAgree, Demotion;
    SameEvidenceReflexive(w.st);
    if ids != [] && cancelFrom != 0 {
      if ids[0] !in w.st.assignments || IsTerminal(w.st.assignments[ids[0]].state) {
        RevalidationGrows(b, w, ids[1..], at, cancelFrom - 1, tally);
      } else {
        var a := w.st.assignments[ids[0]];
        var seen := tally.(checked := tally.checked + 1);
        match Demotion(w.st, a, at)
        case None => RevalidationGrows(b, w, ids[1..], at, cancelFrom - 1, seen);
        case Some(to) =>
          var moved := Moved(b, a, to, Validity(w.st, a, at), at);
          StoreFrame(b, w, moved, 0, NoFingerprint, at);
          StoreGrows(b, w, moved, at);
          var w' := Store(b, w, moved, 0, NoFingerprint, at).0;
          RevalidationGrows(b, w', ids[1..], at, cancelFrom - 1,
                            if to.Degraded? then seen.(degraded := seen.degraded + 1) else seen.(suspended := seen.suspended + 1));
          SameEvidenceTransitive(RevalidateFrom(b, w, ids, at, cancelFrom, tally).w.st, w'.st, w.st);
      }
    }
  }

  lemma StoreGrows(b: Bounds, w: World, a: Assignment, at: int)
    ensures w.log <= Store(b, w, a, 0, NoFingerprint, at).0.log
  {
    hide Insert;
  }

  // ---- Nothing is unlearned ------------------------------------------------------------------------

  /** From `s` to `t`: every source is heard at least as far, under the same floor, and not differently
      at the same point; generations do not go back; grants stay as granted, withdrawn ones withdrawn. */
  ghost predicate Onward(s: State, t: State) {
    && (forall k :: k in s.ev.sources ==> k in t.ev.sources && SourceOnward(s.ev.sources[k], t.ev.sources[k]))
    && (s.ev.topology.Some? ==> t.ev.topology.Some? && s.ev.topology.value.generation <= t.ev.topology.value.generation)
    && (s.ev.policy.Some? ==> t.ev.policy.Some? && s.ev.policy.value.generation <= t.ev.policy.value.generation)
    && (forall k :: k in s.ev.capabilities ==>
          k in t.ev.capabilities && s.ev.capabilities[k].generation <= t.ev.capabilities[k].generation)
    && (forall id :: id in s.ev.functions ==> id in t.ev.functions)
    && (forall g :: g in s.grants ==> g in t.grants && GrantOnward(s.grants[g], t.grants[g]))
  }

  predicate SourceOnward(s: SourceState, t: SourceState) {
    && (s.seen ==> t.seen && s.lastSequence <= t.lastSequence && (s.lastSequence == t.lastSequence ==> s.lastDigest == t.lastDigest))
    && s.restartFloor == t.restartFloor
  }

  predicate GrantOnward(g: Grant, h: Grant) { h == g.(used := h.used, revoked := h.revoked) && (g.revoked ==> h.revoked) }

  lemma OnwardReflexive(s: State) ensures Onward(s, s) {}

  lemma OnwardTransitive(s: State, t: State, u: State)
    requires Onward(s, t) && Onward(t, u)
    ensures Onward(s, u)
  {
  }

  lemma SameIsOnward(s: State, t: State)
    requires SameEvidence(t, s)
    ensures Onward(s, t)
  {
    forall g | g in s.grants ensures g in t.grants && GrantOnward(s.grants[g], t.grants[g]) {
      assert t.grants[g].(used := 0) == s.grants[g].(used := 0);
      assert t.grants[g] == s.grants[g].(used := t.grants[g].used);
    }
  }

  ghost predicate SourcesOnward(s: Evidence, t: Evidence) {
    forall k :: k in s.sources ==> k in t.sources && SourceOnward(s.sources[k], t.sources[k])
  }

  lemma HeardIsOnward(before: Evidence, now: Evidence, p: Provenance, domain: Domain, digest: EvidenceDigest)
    requires Later(before, p, domain) && HeardLast(before, now, p, domain, digest)
    ensures SourcesOnward(before, now)
  {
  }

  lemma AgreeIsOnward(g: map<Id, Grant>, h: map<Id, Grant>, id: Id)
    requires GrantsAgree(h, g) && id in g
    ensures id in h && GrantOnward(g[id], h[id])
  {
    assert h[id].(used := 0) == g[id].(used := 0) && h[id] == g[id].(used := h[id].used);
  }

  lemma GrantsMoveOn(b: Bounds, s: State, t: State, r: Record)
    requires Learnable(b, s, r) && Told(s, t, r)
    ensures forall g :: g in s.grants ==> g in t.grants && GrantOnward(s.grants[g], t.grants[g])
  {
    hide HeardLast, Later, Located, Compatible, GrantsAgree;
    forall g | g in s.grants ensures g in t.grants && GrantOnward(s.grants[g], t.grants[g]) {
      match r
      case AuthorityGranted(h) => AgreeIsOnward(s.grants[h.id := h], t.grants, g);
      case AuthorityWithdrawn(id, _, _) => AgreeIsOnward(s.grants[id := s.grants[id].(revoked := true)], t.grants, g);
      case _ => AgreeIsOnward(s.grants, t.grants, g);
    }
  }

  lemma ToldIsOnward(b: Bounds, s: State, t: State, r: Record)
    requires Learnable(b, s, r) && Told(s, t, r)
    ensures Onward(s, t)
  {
    hide Located, HeardLast, Later, GrantsAgree, GrantOnward;
    GrantsMoveOn(b, s, t, r);
    match r
    case TopologyIngested(x) => HeardIsOnward(s.ev, t.ev, x.provenance, TopologyEvidence, OfTopology(x));
    case PolicyIngested(x) => HeardIsOnward(s.ev, t.ev, x.provenance, PolicyEvidence, OfPolicy(x));
    case CapabilityIngested(x) => HeardIsOnward(s.ev, t.ev, x.provenance, CapabilityEvidence, OfCapabilities(x));
    case ObservationsIngested(x) => HeardIsOnward(s.ev, t.ev, x.provenance, ObservationEvidence, OfObservations(x));
    case AuthorityGranted(x) => HeardIsOnward(s.ev, t.ev, x.provenance, AuthorityEvidence, OfGrant(x));
    case _ =>
  }

  lemma MicroKeepsEvidence(b: Bounds, w: World, m: Micro)
    requires Legal(b, w, m) && !m.Learned?
    ensures SameEvidence(Do(b, w, m).st, w.st)
  {
    hide Insert, Moved, Rebound, WithEffect, Remember, ScopeConflict, EffectMatches, GrantsAgree;
    SameEvidenceReflexive(w.st);
    if Written(b, w, m).Some? { InsertFrame(w.st, Written(b, w, m).value); }
  }

  lemma MicroMovesOn(b: Bounds, w: World, m: Micro)
    requires Legal(b, w, m)
    ensures Onward(w.st, Do(b, w, m).st)
  {
    hide Learnable, Learn, Told, Onward, SameEvidence, EvidenceCheck;
    if m.Learned? {
      LearnableIs(b, w.st, m.r);
      LearnTells(b, w.st, m.r);
      ToldIsOnward(b, w.st, Learn(w.st, m.r), m.r);
    } else {
      hide Do, Legal;
      MicroKeepsEvidence(b, w, m);
      SameIsOnward(w.st, Do(b, w, m).st);
    }
  }

  lemma {:induction false} RunMovesOn(b: Bounds, w: World, tr: seq<Micro>)
    requires LegalRun(b, w, tr)
    ensures Onward(w.st, Run(b, w, tr).st)
    decreases |tr|
  {
    hide Do, Legal, Onward;
    OnwardReflexive(w.st);
    if tr != [] {
      MicroMovesOn(b, w, tr[0]);
      RunMovesOn(b, Do(b, w, tr[0]), tr[1..]);
      OnwardTransitive(w.st, Do(b, w, tr[0]).st, Run(b, w, tr).st);
    }
  }

  lemma ExecMovesOn(b: Bounds, w: World, op: Operation, at: int)
    requires Sound(w.st)
    ensures Onward(w.st, Exec(b, w, op, at).st)
  {
    hide Exec, Sound, Onward;
    if op.AcceptRecovery? {
      AcceptKeepsState(b, w, at);
      OnwardReflexive(w.st);
    } else {
      var tr := OperationTrace(b, w, op, at);
      RunMovesOn(b, w, tr);
    }
  }

  /** Through all operations of a lifetime nothing that was learned is unlearned. */
  lemma {:induction false} LifetimeMovesOn(b: Bounds, w: World, es: seq<Event>)
    requires Sound(w.st) && OnlyOperations(es)
    ensures Sound(RunAll(b, w, es).st) && Onward(w.st, RunAll(b, w, es).st)
  {
    hide Exec, Sound, Onward;
    OnwardReflexive(w.st);
    if es != [] {
      var before, e := es[..|es| - 1], es[|es| - 1];
      LifetimeMovesOn(b, w, before);
      var v := RunAll(b, w, before);
      OnwardReflexive(v.st);
      if v.running {
        ExecKeepsSound(b, v.(faults := e.faults), e.op, e.at);
        ExecMovesOn(b, v.(faults := e.faults), e.op, e.at);
      }
      OnwardTransitive(w.st, v.st, RunAll(b, w, es).st);
    }
  }

  // ---- What every reachable state knows is well formed -------------------------------------------------

  /** Grants have names and the device list is strictly ordered. */
  predicate Vouched(st: State) {
    0 !in st.grants && (st.ev.topology.Some? ==> StrictlyOrdered(st.ev.topology.value.devices))
  }

  predicate VouchedRecord(r: Record) {
    match r
    case TopologyIngested(t) => StrictlyOrdered(t.devices)
    case AuthorityGranted(g) => g.id != 0
    case _ => true
  }

  predicate VouchedLog(log: seq<Record>) { forall i :: 0 <= i < |log| ==> VouchedRecord(log[i]) }

  lemma MicroKeepsVouched(b: Bounds, w: World, m: Micro)
    requires Legal(b, w, m) && Vouched(w.st) && VouchedLog(w.log)
    ensures Vouched(Do(b, w, m).st) && VouchedLog(Do(b, w, m).log)
  {
    hide Do, LearnEvidence, Committed;
    DoCommits(b, w, m);
    CommitsVouched(b, w, m);
    if m.Learned? {
      LearnedIsVouched(b, w, m.r);
    } else {
      hide Legal;
      MicroKeepsEvidence(b, w, m);
    }
  }

  lemma CommitsVouched(b: Bounds, w: World, m: Micro)
    requires Legal(b, w, m)
    ensures Committed(b, w, m).Some? ==> VouchedRecord(Committed(b, w, m).value)
  {
    hide AcceptEvidence, ScopeConflict, EffectMatches, CapabilityConflict, ObservationTargets;
  }

  lemma LearnedIsVouched(b: Bounds, w: World, r: Record)
    requires EvidenceCheck(b, w.st, r) == Success(false) && IsEvidence(r) && Vouched(w.st)
    ensures Vouched(Do(b, w, Learned(r)).st)
  {
    hide AcceptEvidence, Mark, WithCapabilities, WithObservations, CapabilityConflict, ObservationTargets;
  }

  lemma {:induction false} RunKeepsVouched(b: Bounds, w: World, tr: seq<Micro>)
    requires LegalRun(b, w, tr) && Vouched(w.st) && VouchedLog(w.log)
    ensures Vouched(Run(b, w, tr).st) && VouchedLog(Run(b, w, tr).log)
    decreases |tr|
  {
    hide Do, Legal, Vouched, VouchedLog;
    if tr != [] {
      MicroKeepsVouched(b, w, tr[0]);
      RunKeepsVouched(b, Do(b, w, tr[0]), tr[1..]);
    }
  }

  lemma {:induction false} ReplayIsVouched(b: Bounds, log: seq<Record>)
    requires VouchedLog(log)
    ensures Vouched(Replay(b, EMPTY_STATE, log))
  {
    hide ApplyRecord;
    if log != [] {
      ReplayIsVouched(b, log[..|log| - 1]);
      ApplyKeepsVouched(b, Replay(b, EMPTY_STATE, log[..|log| - 1]), log[|log| - 1]);
    }
  }

  lemma ApplyKeepsVouched(b: Bounds, st: State, r: Record)
    requires Vouched(st) && VouchedRecord(r)
    ensures Vouched(ApplyRecord(b, st, r))
  {
    hide Insert, Remember, Mark, WithCapabilities, WithObservations;
    match r
    case AssignmentStored(a, _, _) => InsertFrame(st, a);
    case EffectRecorded(_, a, _) => InsertFrame(st, a);
    case _ =>
  }

  lemma BegunIsVouched(b: Bounds, w: World, boot: Id)
    requires VouchedLog(w.log) && Recovered(b, EMPTY_STATE, w.log).epoch.highest < U64_MAX
    ensures
      var begun := Begun(b, w, EMPTY_STATE, w.log, boot);
      && Vouched(begun.st) && VouchedLog(begun.log)
      && (forall k :: k in begun.st.ev.sources ==> begun.st.ev.sources[k].restartFloor == begun.st.ev.sources[k].lastSequence)
  {
    hide Replay, RebuildCounters, RebuildClaims;
    ReplayIsVouched(b, w.log);
  }

  lemma StartIsVouched(b: Bounds, w: World, boot: Id, accept: bool, at: int)
    requires VouchedLog(w.log)
    ensures
      var v := Start(b, w, EMPTY_STATE, w.log, boot, accept, at).0;
      VouchedLog(v.log) && (v.running ==> Vouched(v.st))
  {
    hide SuspendFrom, Recovered, Recover, Decodable, Run, LegalRun, Begun, GuardedRun, Vouched, VouchedLog;
    if Begins(b, w, EMPTY_STATE, w.log) {
      var begun := Begun(b, w, EMPTY_STATE, w.log, boot);
      BegunIsVouched(b, w, boot);
      var tr := SuspendTrace(b, begun, LiveIds(begun.st), at);
      RunKeepsVouched(b, begun, tr);
    }
  }

  /** In every run every journaled topology is strictly ordered and every grant named, and so is what
      the running fabric knows. */
  lemma {:induction false} RunsAreVouched(b: Bounds, es: seq<Event>)
    ensures
      var w := RunAll(b, EMPTY_WORLD, es);
      VouchedLog(w.log) && (w.running ==> Vouched(w.st))
  {
    hide Exec, Start, Vouched, VouchedLog, Consistent;
    if es == [] {
      EmptyIsVouched();
    } else {
      var w, e := RunAll(b, EMPTY_WORLD, es[..|es| - 1]), es[|es| - 1];
      RunsAreVouched(b, es[..|es| - 1]);
      ReplayRefinesEveryRun(b, es[..|es| - 1]);
      ConsistentParts(b, w);
      match e
      case Operate(op, at, faults) =>
        if w.running {
          var v := w.(faults := faults);
          if op.AcceptRecovery? {
            AcceptOnlyFlags(b, v, at);
          } else {
            var tr := OperationTrace(b, v, op, at);
            RunKeepsVouched(b, v, tr);
          }
        }
      case CrashAt(keep) => PrefixIsVouched(w.log, keep);
      case Boot(boot, accept, at, faults) =>
        if !w.running { StartIsVouched(b, w.(faults := faults), boot, accept, at); }
    }
  }

  lemma EmptyIsVouched() ensures VouchedLog([]) {}

  lemma PrefixIsVouched(log: seq<Record>, keep: nat)
    requires VouchedLog(log)
    ensures keep <= |log| ==> VouchedLog(log[..keep])
  {
  }

  /** Right after a start nothing counts as heard: every source must report again, and later. */
  lemma NothingHeardAfterStart(b: Bounds, w: World, boot: Id, accept: bool, at: int, p: Provenance, domain: Domain)
    requires NamedLog(w.log) && VouchedLog(w.log) && Start(b, w, EMPTY_STATE, w.log, boot, accept, at).1
    ensures
      var st := Start(b, w, EMPTY_STATE, w.log, boot, accept, at).0.st;
      Heard(st.ev, p, domain) ==> st.ev.sources[SourceKey(p.source, domain)].lastSequence < p.sequence
  {
    hide SuspendFrom, Replay, RebuildCounters, RebuildClaims, Decodable;
    var begun := Begun(b, w, EMPTY_STATE, w.log, boot);
    BegunIsVouched(b, w, boot);
    BegunFacts(b, w, EMPTY_STATE, w.log, boot);
    SoundMeansKeyed(begun.st);
    SuspensionEndsAuthority(b, begun, LiveIds(begun.st), at);
  }
}
