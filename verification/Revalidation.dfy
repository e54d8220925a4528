/** Revalidation is sound, leaves evidence alone, and treats every assignment on its own
    (src/fabric.cpp). */
module Revalidation {
  import opened Units
  import opened Types
  import opened Ordered
  import opened Decisions
  import opened Claims
  import opened Machine

  /** Validity reads evidence, the epoch and grants up to their use counter: what storing a
      transition never changes. */
  lemma ValidityReadsEvidence(s: State, t: State, a: Assignment, at: int)
    requires SameEvidence(s, t)
    ensures Validity(s, a, at) == Validity(t, a, at)
  {
    hide TargetValidity, EvidenceCurrent;
    if a.authority in s.grants {
      assert s.grants[a.authority].(used := 0) == t.grants[a.authority].(used := 0);
    }
  }

  lemma StoreFrame(b: Bounds, w: World, a: Assignment, id: Id, fp: Fingerprint, at: int)
    requires id == 0
    ensures
      var (w', ok) := Store(b, w, a, id, fp, at);
      && SameEvidence(w'.st, w.st) && w'.running == w.running && w'.accepted == w.accepted
      && w'.st.assignments == (if ok then w.st.assignments[a.id := a] else w.st.assignments)
      && w'.st.table == w.st.table && w'.st.counters == w.st.counters
  {
    if CommitFails(w) {
      SameEvidenceReflexive(w.st);
    } else {
      PutQuietly(b, w, a, fp, at);
      InsertFrame(w.st, a);
      InsertKeepsRest(w.st, a);
    }
    hide Put, Insert, SameEvidence;
  }

  /** Without a request identifier nothing is remembered. */
  lemma PutQuietly(b: Bounds, w: World, a: Assignment, fp: Fingerprint, at: int)
    ensures Put(b, w, a, 0, fp, at) == Logged(w, AssignmentStored(a, 0, fp)).(st := Insert(w.st, a))
  {
    hide Insert;
  }

  lemma InsertKeepsRest(st: State, a: Assignment)
    ensures Insert(st, a).table == st.table && Insert(st, a).counters == st.counters
  {
    hide Reindex;
  }

  lemma SameEvidenceTransitive(s: State, t: State, u: State)
    requires SameEvidence(s, t) && SameEvidence(t, u)
    ensures SameEvidence(s, u)
  {
  }

  /** What revalidation makes of one assignment, judged on the state it started from. */
  function Revised(b: Bounds, st: State, a: Assignment, at: int): Assignment {
    match Demotion(st, a, at)
    case None => a
    case Some(to) => Moved(b, a, to, Validity(st, a, at), at)
  }

  /** The identifiers already visited carry their revised record, the others are untouched. */
  predicate RevisedUpTo(b: Bounds, start: State, now: State, pending: seq<Id>, at: int) {
    && SameEvidence(now, start) && now.assignments.Keys == start.assignments.Keys
    && forall id :: id in start.assignments ==>
         now.assignments[id] ==
         if id in pending || !IsLive(start.assignments[id].state) then start.assignments[id]
         else Revised(b, start, start.assignments[id], at)
  }

  lemma VerdictReadsEvidence(s: State, t: State, a: Assignment, at: int)
    requires SameEvidence(s, t)
    ensures Demotion(s, a, at) == Demotion(t, a, at) && Validity(s, a, at) == Validity(t, a, at)
  {
    hide Validity;
    ValidityReadsEvidence(s, t, a, at);
  }

  lemma PendingIsUntouched(b: Bounds, start: State, now: State, pending: seq<Id>, at: int, id: Id)
    requires RevisedUpTo(b, start, now, pending, at) && id in pending && id in start.assignments
    ensures id in now.assignments && now.assignments[id] == start.assignments[id] && SameEvidence(now, start)
  {
  }

  /** Visiting one identifier: its record becomes its revision. */
  lemma Advance(b: Bounds, start: State, now: State, next: State, id: Id, rest: seq<Id>, at: int)
    requires id !in rest && id in start.assignments && IsLive(start.assignments[id].state)
    requires RevisedUpTo(b, start, now, [id] + rest, at) && SameEvidence(next, now)
    requires next.assignments == now.assignments[id := Revised(b, start, start.assignments[id], at)]
    ensures RevisedUpTo(b, start, next, rest, at)
  {
    hide Revised;
    SameEvidenceTransitive(next, now, start);
  }

  /** The loop computes the pointwise revision, whatever the order of the visits. */
  lemma {:induction false} RevalidationIsPointwise(b: Bounds, start: State, w: World, ids: seq<Id>, at: int, cancelFrom: nat, tally: Tally)
    requires Keyed(start.assignments) && Ascending(ids) && RevisedUpTo(b, start, w.st, ids, at)
    requires forall id :: id in ids ==> id in start.assignments && IsLive(start.assignments[id].state)
    ensures
      var r := RevalidateFrom(b, w, ids, at, cancelFrom, tally);
      r.failure.None? ==> RevisedUpTo(b, start, r.w.st, [], at)
    decreases |ids|
  {
    hide Validity, Put, Moved, RevisedUpTo, SameEvidence;
    if ids != [] && cancelFrom != 0 {
      var id, rest := ids[0], ids[1..];
      var a := start.assignments[id];
      PendingIsUntouched(b, start, w.st, ids, at, id);
      VerdictReadsEvidence(w.st, start, a, at);
      assert id !in rest && ids == [id] + rest;
      var seen := tally.(checked := tally.checked + 1);
      match Demotion(w.st, a, at)
      case None =>
        assert w.st.assignments[id := a] == w.st.assignments;
        SameEvidenceReflexive(w.st);
        Advance(b, start, w.st, w.st, id, rest, at);
        RevalidationIsPointwise(b, start, w, rest, at, cancelFrom - 1, seen);
      case Some(to) =>
        var moved := Moved(b, a, to, Validity(w.st, a, at), at);
        MovedKeepsId(b, a, to, Validity(w.st, a, at), at);
        var (w', ok) := Store(b, w, moved, 0, NoFingerprint, at);
        StoreFrame(b, w, moved, 0, NoFingerprint, at);
        if ok {
          Advance(b, start, w.st, w'.st, id, rest, at);
          RevalidationIsPointwise(b, start, w', rest, at, cancelFrom - 1,
                                  if to.Degraded? then seen.(degraded := seen.degraded + 1)
                                  else seen.(suspended := seen.suspended + 1));
        }
    }
  }

  lemma SameEvidenceReflexive(s: State) ensures SameEvidence(s, s) {}

  predicate Balanced(t: Tally) { t.checked == t.suspended + t.degraded + t.Unchanged() }

  /** Every outcome is counted once, however the loop ends. */
  lemma {:induction false} TallyBalances(b: Bounds, w: World, ids: seq<Id>, at: int, cancelFrom: nat, tally: Tally)
    requires Balanced(tally)
    ensures Balanced(RevalidateFrom(b, w, ids, at, cancelFrom, tally).tally)
    decreases |ids|
  {
    hide Validity, Store, Moved, Demotion;
    if ids != [] && cancelFrom != 0 {
      if ids[0] !in w.st.assignments || IsTerminal(w.st.assignments[ids[0]].state) {
        TallyBalances(b, w, ids[1..], at, cancelFrom - 1, tally);
      } else {
        var a := w.st.assignments[ids[0]];
        var seen := tally.(checked := tally.checked + 1);
        match Demotion(w.st, a, at)
        case None => TallyBalances(b, w, ids[1..], at, cancelFrom - 1, seen);
        case Some(to) =>
          var (w', ok) := Store(b, w, Moved(b, a, to, Validity(w.st, a, at), at), 0, NoFingerprint, at);
          TallyBalances(b, w', ids[1..], at, cancelFrom - 1,
                        if to.Degraded? then seen.(degraded := seen.degraded + 1)
                        else seen.(suspended := seen.suspended + 1));
      }
    }
  }

  lemma MovedKeepsId(b: Bounds, a: Assignment, to: Lifecycle, reason: Reason, at: int)
    ensures Moved(b, a, to, reason, at).id == a.id && Moved(b, a, to, reason, at).state == to
  {
  }

  lemma RevisedHoldersAreValid(b: Bounds, start: State, now: State, at: int, id: Id)
    requires RevisedUpTo(b, start, now, [], at) && id in now.assignments && HoldsAuthority(now.assignments[id].state)
    ensures Validity(now, now.assignments[id], at) == Reason.Ok
  {
    hide Validity, Moved;
    var a := start.assignments[id];
    VerdictReadsEvidence(now, start, a, at);
    if Demotion(start, a, at).Some? {
      MovedKeepsId(b, a, Demotion(start, a, at).value, Validity(start, a, at), at);
    }
  }

  /** After a successful revalidation at `at`: every authority holder is valid at `at`; each
      live assignment became its revision and no other changed; evidence is untouched; and
      the tally adds up. */
  lemma RevalidationIsSound(b: Bounds, w: World, at: int, cancelFrom: nat)
    requires Keyed(w.st.assignments) && RevalidateAll(b, w, at, cancelFrom).failure.None?
    ensures RevisedUpTo(b, w.st, RevalidateAll(b, w, at, cancelFrom).w.st, [], at)
    ensures
      var now := RevalidateAll(b, w, at, cancelFrom).w.st;
      forall id :: id in now.assignments && HoldsAuthority(now.assignments[id].state) ==>
        Validity(now, now.assignments[id], at) == Reason.Ok
    ensures Balanced(RevalidateAll(b, w, at, cancelFrom).tally)
  {
    hide Validity, Demotion, Moved, RevalidateFrom;
    var r := RevalidateAll(b, w, at, cancelFrom);
    assert RevisedUpTo(b, w.st, w.st, LiveIds(w.st), at);
    RevalidationIsPointwise(b, w.st, w, LiveIds(w.st), at, cancelFrom, Tally(0, 0, 0));
    TallyBalances(b, w, LiveIds(w.st), at, cancelFrom, Tally(0, 0, 0));
    forall id | id in r.w.st.assignments && HoldsAuthority(r.w.st.assignments[id].state)
      ensures Validity(r.w.st, r.w.st.assignments[id], at) == Reason.Ok
    {
      RevisedHoldersAreValid(b, w.st, r.w.st, at, id);
    }
  }

  /** A revalidation that succeeds leaves a valid assignment exactly as it was. */
  lemma ValidIsLeftAlone(b: Bounds, w: World, id: Id, at: int, cancelFrom: nat)
    requires Keyed(w.st.assignments) && RevalidateAll(b, w, at, cancelFrom).failure.None?
    requires id in w.st.assignments && Validity(w.st, w.st.assignments[id], at) == Reason.Ok
    ensures
      var r := RevalidateAll(b, w, at, cancelFrom);
      id in r.w.st.assignments && r.w.st.assignments[id] == w.st.assignments[id]
  {
    hide Validity, RevalidateAll;
    RevalidationIsSound(b, w, at, cancelFrom);
  }
}
