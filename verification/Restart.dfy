/** Conservative restart: whatever was journaled, a new process starts with no authority, no
    claims, no load and no current evidence (src/fabric.cpp, src/detail/fabric_state.hpp). */
module Restart {
  import opened Units
  import opened Types
  import opened Ordered
  import opened Decisions
  import opened Claims
  import opened Idempotency
  import opened Machine
  import opened Steps
  import opened Traces
  import opened Refinement
  import opened Revalidation
  import opened Capacity

  // ---- Evidence falls below the floor --------------------------------------------------------

  predicate HeardUpTo(ev: Evidence, p: Provenance, domain: Domain) {
    SourceKey(p.source, domain) in ev.sources && p.sequence <= ev.sources[SourceKey(p.source, domain)].lastSequence
  }

  /** The current topology and policy were heard from their sources. */
  predicate EvidenceMarked(ev: Evidence) {
    && (ev.topology.Some? ==> HeardUpTo(ev, ev.topology.value.provenance, TopologyEvidence))
    && (ev.policy.Some? ==> HeardUpTo(ev, ev.policy.value.provenance, PolicyEvidence))
  }

  predicate TopologyHeard(ev: Evidence) {
    ev.topology.Some? && EvidenceCurrent(ev, ev.topology.value.provenance, TopologyEvidence)
  }

  predicate PolicyHeard(ev: Evidence) {
    ev.policy.Some? && EvidenceCurrent(ev, ev.policy.value.provenance, PolicyEvidence)
  }

  lemma ApplyKeepsMarked(b: Bounds, st: State, r: Record)
    requires EvidenceMarked(st.ev)
    ensures EvidenceMarked(ApplyRecord(b, st, r).ev)
  {
    hide Reindex, RefreshUsage, Remember, ApplyGrants, WithCapabilities, WithObservations;
  }

  lemma ApplyKeepsKeyed(b: Bounds, st: State, r: Record)
    requires Keyed(st.assignments) && NamedRecord(r)
    ensures Keyed(ApplyRecord(b, st, r).assignments)
  {
    hide Reindex, Remember, ApplyGrants, ApplyEvidence;
  }

  lemma {:induction false} ReplayKeeps(b: Bounds, base: State, tail: seq<Record>)
    requires EvidenceMarked(base.ev) && Keyed(base.assignments) && NamedLog(tail)
    ensures EvidenceMarked(Replay(b, base, tail).ev) && Keyed(Replay(b, base, tail).assignments)
  {
    hide ApplyRecord, EvidenceMarked, Keyed;
    if tail != [] {
      var before := Replay(b, base, tail[..|tail| - 1]);
      ReplayKeeps(b, base, tail[..|tail| - 1]);
      ApplyKeepsMarked(b, before, tail[|tail| - 1]);
      ApplyKeepsKeyed(b, before, tail[|tail| - 1]);
    }
  }

  // ---- Nothing holds authority -------------------------------------------------------------------

  predicate NoHolders(m: map<Id, Assignment>) {
    forall id :: id in m ==> !HoldsAuthority(m[id].state)
  }

  /** Everything is suspended or finished. */
  predicate AtRest(m: map<Id, Assignment>) {
    forall id :: id in m ==> m[id].state.Suspended? || IsTerminal(m[id].state)
  }

  lemma {:induction false} SuspensionEndsAuthority(b: Bounds, w: World, ids: seq<Id>, at: int)
    requires Keyed(w.st.assignments)
    requires forall id :: id in w.st.assignments && IsLive(w.st.assignments[id].state) && !w.st.assignments[id].state.Suspended? ==> id in ids
    ensures SuspendFrom(b, w, ids, at).1 ==> AtRest(SuspendFrom(b, w, ids, at).0.st.assignments)
    ensures SameEvidence(SuspendFrom(b, w, ids, at).0.st, w.st)
    ensures SuspendFrom(b, w, ids, at).0.st.counters == w.st.counters
    ensures SuspendFrom(b, w, ids, at).0.issued == w.issued
    decreases |ids|
  {
    hide Put, Moved, SameEvidence;
    if ids == [] {
      SameEvidenceReflexive(w.st);
    } else {
      assert ids == [ids[0]] + ids[1..];
      if ids[0] !in w.st.assignments || w.st.assignments[ids[0]].state.Suspended? {
        SuspensionEndsAuthority(b, w, ids[1..], at);
      } else {
        var moved := Moved(b, w.st.assignments[ids[0]], Lifecycle.Suspended, RestartAuthorityReset, at);
        MovedKeepsId(b, w.st.assignments[ids[0]], Lifecycle.Suspended, RestartAuthorityReset, at);
        StoreFrame(b, w, moved, 0, NoFingerprint, at);
        StoreIssuesNothing(b, w, moved, 0, NoFingerprint, at);
        var (w', ok) := Store(b, w, moved, 0, NoFingerprint, at);
        if ok {
          SuspensionEndsAuthority(b, w', ids[1..], at);
          SameEvidenceTransitive(SuspendFrom(b, w, ids, at).0.st, w'.st, w.st);
        }
      }
    }
  }

  lemma StoreIssuesNothing(b: Bounds, w: World, a: Assignment, id: Id, fp: Fingerprint, at: int)
    ensures Store(b, w, a, id, fp, at).0.issued == w.issued
  {
  }

  lemma NoHoldersNoClaims(st: State)
    requires Sound(st) && NoHolders(st.assignments)
    ensures st.index.byClass == map[] && st.index.byScope == map[]
  {
    assert forall k :: k in st.index.byClass ==> ClassEntry(st.assignments, k, st.index.byClass[k]);
    assert forall k :: k in st.index.byScope ==> ScopeEntry(st.assignments, k, st.index.byScope[k]);
  }

  lemma NoHoldersNoDemand(st: State, device: Id)
    requires NeverOvercounted(st) && NoHolders(st.assignments)
    ensures CommittedFor(st.index.committed, device) == ZERO_DEMAND
  {
    var d := CommittedFor(st.index.committed, device);
    forall c: Component ensures d.Of(c) == 0 {
      NoHoldersNoLoad(st.assignments, device, c);
    }
    assert d.Of(Packets) == d.Of(Bytes) == d.Of(Flows) == d.Of(Queues) == d.Of(Memory) == 0;
  }

  /** A world in which nothing from before this process counts. */
  ghost predicate Conservative(st: State) {
    && AtRest(st.assignments) && st.index.byClass == map[] && st.index.byScope == map[]
    && (forall device: Id :: CommittedFor(st.index.committed, device) == ZERO_DEMAND)
    && st.ev.observations == map[] && !TopologyHeard(st.ev) && !PolicyHeard(st.ev)
    && st.counters.fence == 0
  }

  lemma BegunFacts(b: Bounds, w: World, base: State, tail: seq<Record>, boot: Id)
    requires EvidenceMarked(base.ev) && Keyed(base.assignments) && NamedLog(tail)
    requires Recovered(b, base, tail).epoch.highest < U64_MAX
    ensures
      var begun := Begun(b, w, base, tail, boot);
      && Sound(begun.st) && NeverOvercounted(begun.st) && NamedLog(tail)
      && begun.st.ev.observations == map[] && !TopologyHeard(begun.st.ev) && !PolicyHeard(begun.st.ev)
      && begun.st.counters.fence == 0 && begun.st.epoch.counter == Recovered(b, base, tail).epoch.highest + 1
      && begun.issued == w.issued
  {
    hide Replay, RebuildCounters, RebuildClaims, NeverOvercounted;
    var st := Replay(b, base, tail);
    ReplayKeeps(b, base, tail);
    RebuiltClaimsAreSound(st.assignments, EMPTY_INDEX, LiveIds(st));
    BegunNeverOvercounts(b, w, base, tail, boot);
  }

  /** Whatever state was snapshotted and whatever was journaled after it, a successful start
      ends conservatively, in an epoch above every journaled one. */
  lemma RestartIsConservative(b: Bounds, w: World, base: State, tail: seq<Record>, boot: Id, accept: bool, at: int)
    requires EvidenceMarked(base.ev) && Keyed(base.assignments) && NamedLog(tail)
    requires Start(b, w, base, tail, boot, accept, at).1
    ensures
      var w' := Start(b, w, base, tail, boot, accept, at).0;
      && w'.running && Conservative(w'.st) && Sound(w'.st)
      && w'.st.epoch.counter == Replay(b, base, tail).epoch.highest + 1
      && w'.issued == w.issued
  {
    hide SuspendFrom, NeverOvercounted, Sound, Replay, RebuildCounters, RebuildClaims, EvidenceCurrent;
    var w' := Start(b, w, base, tail, boot, accept, at).0;
    var begun := Begun(b, w, base, tail, boot);
    BegunFacts(b, w, base, tail, boot);
    SoundMeansKeyed(begun.st);
    SuspensionEndsAuthority(b, begun, LiveIds(begun.st), at);
    var tr := SuspendTrace(b, begun, LiveIds(begun.st), at);
    RunNeverOvercounts(b, begun, tr);
    RunKeepsSound(b, begun, tr);
    NoHoldersNoClaims(w'.st);
    forall device: Id ensures CommittedFor(w'.st.index.committed, device) == ZERO_DEMAND {
      NoHoldersNoDemand(w'.st, device);
    }
  }

  lemma SoundMeansKeyed(st: State)
    requires Sound(st)
    ensures Keyed(st.assignments)
  {
  }

  lemma {:induction false} RunKeepsSound(b: Bounds, w: World, tr: seq<Micro>)
    requires LegalRun(b, w, tr) && Sound(w.st)
    ensures Sound(Run(b, w, tr).st)
    decreases |tr|
  {
    hide Do, Legal, Sound;
    if tr != [] {
      DoKeepsSound(b, w, tr[0]);
      RunKeepsSound(b, Do(b, w, tr[0]), tr[1..]);
    }
  }

  lemma StartRunsOnlyIfOk(b: Bounds, w: World, boot: Id, accept: bool, at: int)
    ensures Start(b, w, EMPTY_STATE, w.log, boot, accept, at).0.running <==> Start(b, w, EMPTY_STATE, w.log, boot, accept, at).1
  {
    hide SuspendFrom, Recovered, Recover;
  }
}
