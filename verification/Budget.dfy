/** The reassignment budget: what a replacement costs, and what is left of it after a replay
    (src/fabric.cpp). */
module Budget {
  import opened Types
  import opened Claims
  import opened Idempotency
  import opened Machine
  import opened Standing

  /** The reassignments of a scope and class a journal records, in order. */
  function Recorded(log: seq<Record>, key: ClassKey): seq<int> {
    if log == [] then []
    else
      var r := log[|log| - 1];
      Recorded(log[..|log| - 1], key) +
      (if r.ReassignmentRecorded? && ClassKey(r.scope, r.cls) == key then [r.stamp] else [])
  }

  /** A replay finds exactly the recorded reassignments, for every scope and class. */
  lemma {:induction false} ReplayCountsAll(b: Bounds, st: State, log: seq<Record>, key: ClassKey)
    ensures Stamps(Replay(b, st, log), key) == Stamps(st, key) + Recorded(log, key)
  {
    if log != [] {
      ReplayCountsAll(b, st, log[..|log| - 1], key);
      ApplyCountsOne(b, Replay(b, st, log[..|log| - 1]), log[|log| - 1], key);
    }
  }

  lemma ApplyCountsOne(b: Bounds, st: State, r: Record, key: ClassKey)
    ensures Stamps(ApplyRecord(b, st, r), key) ==
            Stamps(st, key) + (if r.ReassignmentRecorded? && ClassKey(r.scope, r.cls) == key then [r.stamp] else [])
  {
    hide Remember, Reindex, RefreshUsage, ApplyEvidence, ApplyGrants;
  }

  /** A noted reassignment is counted in memory at once, before it is journaled; the newest eight times
      the bound are kept, and no other scope or class is charged. */
  lemma NoteChargesOne(b: Bounds, w: World, scope: Id, cls: Class, at: int, key: ClassKey)
    ensures
      var v := NoteInMemory(b, w, scope, cls, at);
      && v.log == w.log
      && if key == ClassKey(scope, cls) then Newest(Stamps(w.st, key) + [at], Stamps(v.st, key), b.maxReassignments * 8)
         else Stamps(v.st, key) == Stamps(w.st, key)
  {
    LastIsNewest(Stamps(w.st, ClassKey(scope, cls)) + [at], b.maxReassignments * 8);
    hide Last;
  }
}
