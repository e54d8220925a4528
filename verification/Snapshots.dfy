/** The theorems of whole runs carried across a compaction: restarting from a snapshot and the tail
    after it is as safe as restarting from the whole journal (src/fabric.cpp, src/journal.cpp). */
module Snapshots {
  import opened Units
  import opened Bytes
  import opened Types
  import opened Ordered
  import opened Decisions
  import opened Claims
  import opened Idempotency
  import opened Machine
  import opened Traces
  import opened Runs
  import opened Refinement
  import opened Capacity
  import opened Restart
  import opened Exclusion
  import opened Fences
  import opened Effects
  import opened Identifiers
  import opened Journal
  import opened Disk
  import opened Storage
  import opened Compaction

  // ---- The recovered state ---------------------------------------------------------------------

  /** In every run: a snapshot taken while running, followed by any records, recovers what the whole
      journal followed by those records recovers. */
  lemma SnapshotAgreesInRuns(b: Bounds, es: seq<Event>, tail: seq<Record>)
    requires RunAll(b, EMPTY_WORLD, es).running
    ensures
      var w := RunAll(b, EMPTY_WORLD, es);
      SameCore(Replay(b, SnapshotOf(w.st), tail), Replay(b, EMPTY_STATE, w.log + tail))
  {
    hide RunAll, Replay, SameCore, Sound;
    ReplayRefinesEveryRun(b, es);
    var w := RunAll(b, EMPTY_WORLD, es);
    SnapshotThenTail(b, w.st, w.log, tail);
  }

  /** Compaction anywhere in a safe run keeps crash-anywhere exclusion: whatever part of the later
      journal survives, the snapshot and that part replay to disjoint exclusive holders. */
  lemma SnapshotKeepsExclusion(b: Bounds, es: seq<Event>, more: seq<Event>, k: nat)
    requires AllSafe(b, EMPTY_WORLD, es + more) && RunAll(b, EMPTY_WORLD, es).running
    requires RunAll(b, EMPTY_WORLD, es).log <= RunAll(b, EMPTY_WORLD, es + more).log
    requires |RunAll(b, EMPTY_WORLD, es).log| <= k <= |RunAll(b, EMPTY_WORLD, es + more).log|
    ensures
      var w, v := RunAll(b, EMPTY_WORLD, es), RunAll(b, EMPTY_WORLD, es + more);
      MutuallyExclusive(Replay(b, SnapshotOf(w.st), v.log[|w.log|..k]).assignments)
  {
    hide RunAll, Replay, AllSafe, MutuallyExclusive, CrashSafe, GrantsAgree, MarksAgree, NamedLog;
    var w, v := RunAll(b, EMPTY_WORLD, es), RunAll(b, EMPTY_WORLD, es + more);
    CrashAnywhereExclusion(b, es + more);
    SnapshotAgreesInRuns(b, es, v.log[|w.log|..k]);
    assert w.log + v.log[|w.log|..k] == v.log[..k];
  }

  /** The same for fencing tokens, in runs that lose no committed epoch record: carried tokens stay
      distinct and below the epoch the next start takes. */
  lemma SnapshotKeepsFences(b: Bounds, es: seq<Event>, more: seq<Event>, k: nat)
    requires AllEpochsKept(b, EMPTY_WORLD, es + more) && RunAll(b, EMPTY_WORLD, es).running
    requires RunAll(b, EMPTY_WORLD, es).log <= RunAll(b, EMPTY_WORLD, es + more).log
    requires |RunAll(b, EMPTY_WORLD, es).log| <= k <= |RunAll(b, EMPTY_WORLD, es + more).log|
    ensures
      var w, v := RunAll(b, EMPTY_WORLD, es), RunAll(b, EMPTY_WORLD, es + more);
      var st := Replay(b, SnapshotOf(w.st), v.log[|w.log|..k]);
      && DistinctFences(st.assignments) && (forall id :: id in st.assignments ==> st.assignments[id].fence.epoch <= st.epoch.highest)
      && st.epoch == Replay(b, EMPTY_STATE, v.log[..k]).epoch
  {
    hide RunAll, Replay, AllEpochsKept, DistinctFences, GrantsAgree, MarksAgree, NamedLog, Increasing, Refines, Fenced, Sound;
    var w, v := RunAll(b, EMPTY_WORLD, es), RunAll(b, EMPTY_WORLD, es + more);
    FencesNeverRepeat(b, es + more);
    assert PrefixFenced(b, v.log, k);
    SnapshotAgreesInRuns(b, es, v.log[|w.log|..k]);
    assert w.log + v.log[|w.log|..k] == v.log[..k];
  }

  /** And for effects: what is verified in the recovered state carries its Applied effect. */
  lemma SnapshotKeepsEffects(b: Bounds, es: seq<Event>, more: seq<Event>)
    requires b.maxEffects >= 2 && RunAll(b, EMPTY_WORLD, es).running && RunAll(b, EMPTY_WORLD, es + more).running
    requires RunAll(b, EMPTY_WORLD, es).log <= RunAll(b, EMPTY_WORLD, es + more).log
    ensures
      var w, v := RunAll(b, EMPTY_WORLD, es), RunAll(b, EMPTY_WORLD, es + more);
      AllBacked(Replay(b, SnapshotOf(w.st), v.log[|w.log|..]).assignments)
  {
    hide RunAll, Replay, AllBacked, GrantsAgree, MarksAgree, NamedLog, Sound;
    var w, v := RunAll(b, EMPTY_WORLD, es), RunAll(b, EMPTY_WORLD, es + more);
    VerifiedMeansApplied(b, es + more);
    ReplayRefinesEveryRun(b, es + more);
    SnapshotAgreesInRuns(b, es, v.log[|w.log|..]);
    assert w.log + v.log[|w.log|..] == v.log;
  }

  lemma MarkedAgree(s: State, t: State)
    requires SameCore(s, t) && EvidenceMarked(t.ev)
    ensures EvidenceMarked(s.ev)
  {
    hide GrantsAgree;
    forall k | k in s.ev.sources ensures s.ev.sources[k].lastSequence == t.ev.sources[k].lastSequence {
      assert s.ev.sources[k].(restartFloor := 0) == t.ev.sources[k].(restartFloor := 0);
    }
  }

  /** A start from the snapshot is conservative, in the epoch a start from the whole journal takes. */
  lemma SnapshotRestartIsConservative(b: Bounds, es: seq<Event>, tail: seq<Record>, w0: World, boot: Id, accept: bool, at: int)
    requires RunAll(b, EMPTY_WORLD, es).running && NamedLog(tail)
    requires Start(b, w0, SnapshotOf(RunAll(b, EMPTY_WORLD, es).st), tail, boot, accept, at).1
    ensures
      var w := RunAll(b, EMPTY_WORLD, es);
      var v := Start(b, w0, SnapshotOf(w.st), tail, boot, accept, at).0;
      && v.running && Conservative(v.st) && v.st.epoch.counter == Replay(b, EMPTY_STATE, w.log + tail).epoch.highest + 1
  {
    assert EvidenceMarked(EMPTY_STATE.ev);
    hide RunAll, Start, Replay, Sound, GrantsAgree, MarksAgree, NamedLog, EvidenceMarked, Conservative;
    ReplayRefinesEveryRun(b, es);
    var w := RunAll(b, EMPTY_WORLD, es);
    ReplayKeeps(b, EMPTY_STATE, w.log);
    MarkedAgree(w.st, Replay(b, EMPTY_STATE, w.log));
    SoundMeansKeyed(w.st);
    RestartIsConservative(b, w0, SnapshotOf(w.st), tail, boot, accept, at);
    SnapshotAgreesInRuns(b, es, tail);
  }

  /** A snapshot keeps the counters: after a restart from it no identifier the counter had passed
      when it was taken is ever issued again. */
  lemma SnapshotKeepsIdentifiers(b: Bounds, st: State, tail: seq<Record>)
    requires Keyed(Replay(b, SnapshotOf(st), tail).assignments)
    ensures Machine.Recovered(b, SnapshotOf(st), tail).counters.ordinal >= st.counters.ordinal
  {
    hide RebuildClaims, RebuildCounters, RefreshUsage, Replay;
    var replayed := Replay(b, SnapshotOf(st), tail);
    ReplayKeepsCounters(b, SnapshotOf(st), tail);
    RebuiltOrdinal(replayed, replayed.counters, LiveIds(replayed));
  }

  // ---- The files ----------------------------------------------------------------------------------

  /** Replaying stored records, given how their bytes decode. */
  function Apply(b: Bounds, decode: Rec -> Record): (State, Rec) -> State {
    (st, r) => ApplyRecord(b, st, decode(r))
  }

  /** Compaction of the state machine's own journal: with the encoded snapshot of a live state that
      refines the stored one, every crash point reopens to the same durable core. */
  lemma CompactedStoreRecovers(b: Bounds, decode: Rec -> Record, load: seq<byte> -> State, live: State,
                               f: Files, m: Memory, o: Disk.Options, s: Snapshot, p: CrashPoint, id: seq<byte>, now: nat)
    requires Compactable(f, m, o, s) && (Interrupted(p) ==> !o.policy.RefuseTails?)
    requires |s.payload| + SNAPSHOT_HEADER <= o.maxSnapshot && load(s.payload) == SnapshotOf(live)
    requires SameCore(live, Logical(EMPTY_STATE, load, Apply(b, decode), f, m, o))
    ensures |m.id| == 32
    ensures var again := Open(Leftover(f, m, s, p), o, id, now);
      again.Pass? && SameCore(Logical(EMPTY_STATE, load, Apply(b, decode), again.value.0, again.value.1, o),
                              Logical(EMPTY_STATE, load, Apply(b, decode), f, m, o))
  {
    hide Open, Leftover, Compactable, Logical, Apply;
    CrashRecoversOldOrSnapshot(EMPTY_STATE, load, Apply(b, decode), f, m, o, s, p, id, now);
    assert SameCore(Logical(EMPTY_STATE, load, Apply(b, decode), f, m, o), Logical(EMPTY_STATE, load, Apply(b, decode), f, m, o));
  }
}
