/** Fencing tokens never repeat: over any number of crashes and restarts every issued token
    is strictly above every earlier one, and no two assignments ever carry the same token
    (src/fabric.cpp). */
module Fences {
  import opened Units
  import opened Types
  import opened Decisions
  import opened Claims
  import opened Idempotency
  import opened Machine
  import opened Steps
  import opened Traces
  import opened Runs
  import opened Refinement
  import opened Capacity
  import opened Restart

  predicate Increasing(fences: seq<Fence>) {
    forall i, j :: 0 <= i < j < |fences| ==>
      fences[i].epoch < fences[j].epoch || (fences[i].epoch == fences[j].epoch && fences[i].sequence < fences[j].sequence)
  }

  function Current(st: State): Fence { Fence(st.epoch.counter, st.counters.fence) }

  predicate UpTo(f: Fence, bound: Fence) { f == bound || f.Below(bound) }

  function HighestEpoch(b: Bounds, log: seq<Record>): nat { Replay(b, EMPTY_STATE, log).epoch.highest }

  /** No two assignments carry the same token. */
  predicate DistinctFences(m: map<Id, Assignment>) {
    forall i, j :: i in m && j in m && i != j ==> m[i].fence != m[j].fence
  }

  predicate FencesWithin(m: map<Id, Assignment>, bound: Fence) {
    forall id :: id in m ==> UpTo(m[id].fence, bound)
  }

  /** A running fabric: everything issued or carried is at most the current token, carried
      tokens are distinct, and an unused current token is carried by nobody. */
  predicate Fenced(w: World) {
    && Keyed(w.st.assignments)
    && w.st.epoch.counter == w.st.epoch.highest
    && Increasing(w.issued) && (forall f :: f in w.issued ==> UpTo(f, Current(w.st)))
    && DistinctFences(w.st.assignments) && FencesWithin(w.st.assignments, Current(w.st))
    && (w.freshFence ==> forall id :: id in w.st.assignments ==> w.st.assignments[id].fence != Current(w.st))
  }

  lemma RaiseKeepsFenced(b: Bounds, w: World, c: Counters)
    requires Legal(b, w, Counted(c)) && Fenced(w)
    ensures Fenced(Raise(w, c))
  {
    var v := Raise(w, c);
    forall i, j | 0 <= i < j < |v.issued| ensures v.issued[i].Below(v.issued[j]) {
      assert v.issued[i] in w.issued;
    }
  }

  /** Inserting a record under its old token, or under the unused current one. */
  lemma InsertKeepsFenced(w: World, v: World, a: Assignment)
    requires Fenced(w) && a.id != 0 && v.st.assignments == w.st.assignments[a.id := a]
    requires v.st.epoch == w.st.epoch && v.st.counters == w.st.counters && v.issued == w.issued
    requires || (a.id in w.st.assignments && a.fence == w.st.assignments[a.id].fence && v.freshFence == w.freshFence)
             || (w.freshFence && a.fence == Current(w.st) && !v.freshFence)
    ensures Fenced(v)
  {
  }

  lemma MicroKeepsFenced(b: Bounds, w: World, m: Micro)
    requires Legal(b, w, m) && Fenced(w)
    ensures Fenced(Do(b, w, m)) && Do(b, w, m).st.epoch == w.st.epoch
  {
    hide Remember, Reindex, RefreshUsage, LearnEvidence, ApplyGrants, ScopeConflict, EffectMatches;
    match m
    case Counted(c) => RaiseKeepsFenced(b, w, c);
    case Placed(a, _, _, _, _) => InsertKeepsFenced(w, Do(b, w, m), a);
    case Left(target, to, reason, _, _, at) =>
      InsertKeepsFenced(w, Do(b, w, m), Moved(b, w.st.assignments[target], to, reason, at));
    case Reentered(target, to, authority, _, _, at) =>
      InsertKeepsFenced(w, Do(b, w, m), Rebound(b, w.st, w.st.assignments[target], to, authority, at));
    case Reported(r, at) => InsertKeepsFenced(w, Do(b, w, m), WithEffect(b, w.st.assignments[r.assignment], r, at));
    case _ =>
  }

  // ---- Across restarts ---------------------------------------------------------------------

  /** What each journal prefix replays to: distinct tokens, none from a later epoch. */
  predicate PrefixFenced(b: Bounds, log: seq<Record>, k: nat)
    requires k <= |log|
  {
    var st := Replay(b, EMPTY_STATE, log[..k]);
    DistinctFences(st.assignments) && forall id :: id in st.assignments ==> st.assignments[id].fence.epoch <= st.epoch.highest
  }

  predicate PrefixesFenced(b: Bounds, log: seq<Record>) { forall k :: 0 <= k <= |log| ==> PrefixFenced(b, log, k) }

  predicate FenceSafe(b: Bounds, w: World) {
    && NamedLog(w.log) && PrefixesFenced(b, w.log)
    && Increasing(w.issued) && (forall f :: f in w.issued ==> f.epoch <= HighestEpoch(b, w.log))
    && (w.running ==> Sound(w.st) && Refines(b, w) && Fenced(w))
  }

  lemma PrefixesFencedGrow(b: Bounds, log: seq<Record>, r: Record)
    requires PrefixesFenced(b, log)
    requires
      var st := Replay(b, EMPTY_STATE, log + [r]);
      DistinctFences(st.assignments) && forall id :: id in st.assignments ==> st.assignments[id].fence.epoch <= st.epoch.highest
    ensures PrefixesFenced(b, log + [r])
  {
    hide Replay, DistinctFences;
    forall k | 0 <= k <= |log| + 1 ensures PrefixFenced(b, log + [r], k) {
      if k <= |log| {
        assert (log + [r])[..k] == log[..k];
        assert PrefixFenced(b, log, k);
      } else {
        assert (log + [r])[..k] == log + [r];
      }
    }
  }

  /** The running part of the invariant, one micro-step at a time. */
  predicate FenceRunning(b: Bounds, w: World) {
    NamedLog(w.log) && PrefixesFenced(b, w.log) && Sound(w.st) && Refines(b, w) && Fenced(w)
  }

  lemma MicroIsFenceSafe(b: Bounds, w: World, m: Micro)
    requires Legal(b, w, m) && FenceRunning(b, w)
    ensures FenceRunning(b, Do(b, w, m)) && Do(b, w, m).st.epoch == w.st.epoch
  {
    hide Do, Committed, Replay, NamedLog, Legal, PrefixesFenced, Fenced, Sound;
    MicroRefines(b, w, m);
    MicroKeepsSound(b, w, m);
    MicroKeepsFenced(b, w, m);
    FencedGivesPrefix(b, Do(b, w, m));
    DoCommits(b, w, m);
    if Committed(b, w, m).Some? {
      PrefixesFencedGrow(b, w.log, Committed(b, w, m).value);
    } else {
      assert w.log + [] == w.log;
    }
  }

  lemma FencedGivesPrefix(b: Bounds, w: World)
    requires Fenced(w) && Refines(b, w)
    ensures
      var st := Replay(b, EMPTY_STATE, w.log);
      && DistinctFences(st.assignments) && st.epoch == w.st.epoch
      && forall id :: id in st.assignments ==> st.assignments[id].fence.epoch <= st.epoch.highest
  {
    hide Replay, AnswersAlike;
  }

  lemma {:induction false} RunIsFenceSafe(b: Bounds, w: World, tr: seq<Micro>)
    requires LegalRun(b, w, tr) && FenceRunning(b, w)
    ensures FenceRunning(b, Run(b, w, tr)) && Run(b, w, tr).st.epoch == w.st.epoch
    decreases |tr|
  {
    hide Do, Legal, FenceRunning;
    if tr != [] {
      MicroIsFenceSafe(b, w, tr[0]);
      RunIsFenceSafe(b, Do(b, w, tr[0]), tr[1..]);
    }
  }

  lemma RunningIsSafe(b: Bounds, w: World)
    requires FenceRunning(b, w)
    ensures FenceSafe(b, w) && (forall f :: f in w.issued ==> f.epoch <= HighestEpoch(b, w.log))
  {
    hide Replay, PrefixesFenced, Sound, NamedLog, AnswersAlike, DistinctFences;
  }

  lemma SafeIsRunning(b: Bounds, w: World)
    requires FenceSafe(b, w) && w.running
    ensures FenceRunning(b, w)
  {
  }

  lemma FlagsKeepRunning(b: Bounds, w: World, v: World)
    requires FenceRunning(b, w) && v.st == w.st && v.log == w.log && v.issued == w.issued && v.freshFence == w.freshFence
    ensures FenceRunning(b, v)
  {
    hide Replay, PrefixesFenced, Sound, NamedLog, SameDurable;
  }

  /** A new process begins in an epoch above everything ever issued or carried. */
  lemma BegunIsFenced(b: Bounds, w: World, boot: Id)
    requires FenceSafe(b, w) && Recovered(b, EMPTY_STATE, w.log).epoch.highest < U64_MAX
    ensures FenceRunning(b, Begun(b, w, EMPTY_STATE, w.log, boot))
  {
    hide Replay, RebuildCounters, RebuildClaims, PrefixesFenced, NamedLog, AnswersAlike, IndexSound, MarksAgree, GrantsAgree;
    BegunIsConsistent(b, w, boot);
    var st := Replay(b, EMPTY_STATE, w.log);
    LastPrefixFenced(b, w.log);
    var begun := Begun(b, w, EMPTY_STATE, w.log, boot);
    ReplayJoins(b, EMPTY_STATE, w.log, EpochStarted(st.epoch.highest + 1, boot));
    PrefixesFencedGrow(b, w.log, EpochStarted(st.epoch.highest + 1, boot));
  }

  lemma LastPrefixFenced(b: Bounds, log: seq<Record>)
    requires PrefixesFenced(b, log)
    ensures
      var st := Replay(b, EMPTY_STATE, log);
      DistinctFences(st.assignments) && forall id :: id in st.assignments ==> st.assignments[id].fence.epoch <= st.epoch.highest
  {
    hide Replay;
    assert log[..|log|] == log && PrefixFenced(b, log, |log|);
  }

  lemma StartIsFenceSafe(b: Bounds, w: World, boot: Id, accept: bool, at: int)
    requires FenceSafe(b, w) && !w.running
    ensures FenceSafe(b, Start(b, w, EMPTY_STATE, w.log, boot, accept, at).0)
  {
    hide Recovered, SuspendFrom, Fenced, Sound, Refines, NamedLog, PrefixesFenced, Increasing, HighestEpoch, Recover;
    hide Decodable, Run, LegalRun, GuardedRun, Begun;
    if Begins(b, w, EMPTY_STATE, w.log) {
      var begun := Begun(b, w, EMPTY_STATE, w.log, boot);
      BegunIsFenced(b, w, boot);
      var tr := SuspendTrace(b, begun, LiveIds(begun.st), at);
      RunIsFenceSafe(b, begun, tr);
      var done := SuspendFrom(b, begun, LiveIds(begun.st), at).0;
      FlagsKeepRunning(b, done, Start(b, w, EMPTY_STATE, w.log, boot, accept, at).0);
      RunningIsSafe(b, Start(b, w, EMPTY_STATE, w.log, boot, accept, at).0);
    }
  }

  /** The hypothesis: a crash loses no committed epoch record. */
  predicate EpochKept(b: Bounds, w: World, e: Event) {
    e.CrashAt? && e.keep <= |w.log| ==> HighestEpoch(b, w.log[..e.keep]) == HighestEpoch(b, w.log)
  }

  predicate AllEpochsKept(b: Bounds, w: World, es: seq<Event>) {
    forall i :: 0 <= i < |es| ==> EpochKept(b, RunAll(b, w, es[..i]), es[i])
  }

  lemma CrashIsFenceSafe(b: Bounds, w: World, keep: nat)
    requires FenceSafe(b, w) && EpochKept(b, w, CrashAt(keep))
    ensures FenceSafe(b, Crash(w, keep))
  {
    hide Replay, DistinctFences, Increasing, Refines, Fenced, Sound;
    if keep <= |w.log| {
      forall k | 0 <= k <= keep ensures PrefixFenced(b, w.log[..keep], k) {
        assert w.log[..keep][..k] == w.log[..k];
        assert PrefixFenced(b, w.log, k);
      }
    }
  }

  lemma NextIsFenceSafe(b: Bounds, w: World, e: Event)
    requires FenceSafe(b, w) && EpochKept(b, w, e)
    ensures FenceSafe(b, Next(b, w, e))
  {
    hide Exec, Start, FenceRunning, FenceSafe, Crash;
    match e
    case Operate(op, at, faults) =>
      if w.running {
        var v := w.(faults := faults);
        SafeIsRunning(b, w);
        FlagsKeepRunning(b, w, v);
        if op.AcceptRecovery? {
          AcceptKeepsHistory(b, v, at);
          FlagsKeepRunning(b, v, Exec(b, v, op, at));
        } else {
          RunningIsSound(b, v);
          var tr := OperationTrace(b, v, op, at);
          RunIsFenceSafe(b, v, tr);
        }
        RunningIsSafe(b, Exec(b, v, op, at));
      }
    case CrashAt(keep) => CrashIsFenceSafe(b, w, keep);
    case Boot(boot, accept, at, faults) =>
      if !w.running {
        StoppedFlags(b, w, w.(faults := faults));
        StartIsFenceSafe(b, w.(faults := faults), boot, accept, at);
      }
  }

  lemma AcceptKeepsHistory(b: Bounds, w: World, at: int)
    ensures
      var v := Exec(b, w, AcceptRecovery, at);
      v.st == w.st && v.log == w.log && v.issued == w.issued && v.freshFence == w.freshFence
  {
  }

  lemma RunningIsSound(b: Bounds, w: World)
    requires FenceRunning(b, w)
    ensures Sound(w.st)
  {
  }

  lemma StoppedFlags(b: Bounds, w: World, v: World)
    requires FenceSafe(b, w) && !w.running && v == w.(faults := v.faults)
    ensures FenceSafe(b, v)
  {
  }

  /** In every run from an empty store in which no crash loses a committed epoch record, the
      tokens issued over all lifetimes are strictly increasing, and the assignments of a
      running fabric carry distinct tokens. */
  lemma {:induction false} FencesNeverRepeat(b: Bounds, es: seq<Event>)
    requires AllEpochsKept(b, EMPTY_WORLD, es)
    ensures FenceSafe(b, RunAll(b, EMPTY_WORLD, es))
    ensures Increasing(RunAll(b, EMPTY_WORLD, es).issued)
    ensures RunAll(b, EMPTY_WORLD, es).running ==> DistinctFences(RunAll(b, EMPTY_WORLD, es).st.assignments)
  {
    hide Next, EpochKept, HighestEpoch, PrefixesFenced;
    if es == [] {
      EmptyIsFenceSafe(b);
    } else {
      var before := es[..|es| - 1];
      forall i | 0 <= i < |before| ensures EpochKept(b, RunAll(b, EMPTY_WORLD, before[..i]), before[i]) {
        assert before[..i] == es[..i];
      }
      FencesNeverRepeat(b, before);
      NextIsFenceSafe(b, RunAll(b, EMPTY_WORLD, before), es[|es| - 1]);
    }
  }

  lemma EmptyIsFenceSafe(b: Bounds)
    ensures FenceSafe(b, EMPTY_WORLD)
  {
    assert EMPTY_WORLD.log[..0] == [];
  }

  // ---- Tokens of an earlier lifetime -----------------------------------------------------------

  lemma {:induction false} RunIssues(b: Bounds, w: World, tr: seq<Micro>)
    requires LegalRun(b, w, tr)
    ensures w.issued <= Run(b, w, tr).issued
    decreases |tr|
  {
    hide Legal;
    if tr != [] {
      MicroIssues(b, w, tr[0]);
      hide Do;
      RunIssues(b, Do(b, w, tr[0]), tr[1..]);
    }
  }

  lemma MicroIssues(b: Bounds, w: World, m: Micro)
    requires Legal(b, w, m)
    ensures w.issued <= Do(b, w, m).issued
  {
    hide Answer, Insert, Learn, Moved, Rebound, WithEffect;
  }

  lemma StartIssuesNothing(b: Bounds, w: World, boot: Id, accept: bool, at: int)
    ensures w.issued <= Start(b, w, EMPTY_STATE, w.log, boot, accept, at).0.issued
  {
    hide SuspendFrom, Recovered, Recover, Decodable, Run, LegalRun, GuardedRun;
    if Begins(b, w, EMPTY_STATE, w.log) {
      var begun := Begun(b, w, EMPTY_STATE, w.log, boot);
      var tr := SuspendTrace(b, begun, LiveIds(begun.st), at);
      RunIssues(b, begun, tr);
    }
  }

  /** The history of issued tokens is never rewritten. */
  lemma NextIssues(b: Bounds, w: World, e: Event)
    requires FenceSafe(b, w)
    ensures w.issued <= Next(b, w, e).issued
  {
    hide Exec, Start, FenceSafe;
    match e
    case Operate(op, at, faults) =>
      if w.running {
        var v := w.(faults := faults);
        if op.AcceptRecovery? {
          AcceptKeepsHistory(b, v, at);
        } else {
          SafeIsRunning(b, w);
          RunningIsSound(b, w);
          var tr := OperationTrace(b, v, op, at);
          RunIssues(b, v, tr);
        }
      }
    case CrashAt(_) =>
    case Boot(boot, accept, at, faults) => if !w.running { StartIssuesNothing(b, w.(faults := faults), boot, accept, at); }
  }

  /** A running fabric keeps its epoch through every event but a start. */
  lemma OperationKeepsEpoch(b: Bounds, w: World, op: Operation, at: int)
    requires FenceRunning(b, w)
    ensures Exec(b, w, op, at).st.epoch == w.st.epoch
  {
    hide Exec, FenceRunning;
    if op.AcceptRecovery? {
      AcceptKeepsHistory(b, w, at);
    } else {
      RunningIsSound(b, w);
      var tr := OperationTrace(b, w, op, at);
      RunIsFenceSafe(b, w, tr);
    }
  }

  lemma StartIsAbove(b: Bounds, w: World, boot: Id, accept: bool, at: int, f: Fence)
    requires FenceSafe(b, w) && f in w.issued && Start(b, w, EMPTY_STATE, w.log, boot, accept, at).1
    ensures f.epoch < Start(b, w, EMPTY_STATE, w.log, boot, accept, at).0.st.epoch.counter
  {
    hide Start, PrefixesFenced, NamedLog, Increasing, Refines, Fenced, Sound;
    RestartIsConservative(b, w, EMPTY_STATE, w.log, boot, accept, at);
  }

  /** A token issued before a stop is below the epoch of every later lifetime. */
  lemma {:induction false} StoppedTokenIsBelow(b: Bounds, es: seq<Event>, i: nat, f: Fence)
    requires AllEpochsKept(b, EMPTY_WORLD, es) && i <= |es|
    requires !RunAll(b, EMPTY_WORLD, es[..i]).running && f in RunAll(b, EMPTY_WORLD, es[..i]).issued
    ensures
      var w := RunAll(b, EMPTY_WORLD, es);
      f in w.issued && (w.running ==> f.epoch < w.st.epoch.counter)
    decreases |es|
  {
    hide Exec, Start, EpochKept, FenceSafe, FenceRunning;
    if i == |es| {
      assert es[..i] == es;
    } else {
      var before, e := es[..|es| - 1], es[|es| - 1];
      assert before[..i] == es[..i];
      forall k | 0 <= k < |before| ensures EpochKept(b, RunAll(b, EMPTY_WORLD, before[..k]), before[k]) { assert before[..k] == es[..k]; }
      StoppedTokenIsBelow(b, before, i, f);
      FencesNeverRepeat(b, before);
      var w := RunAll(b, EMPTY_WORLD, before);
      NextIssues(b, w, e);
      IssuedStays(w.issued, Next(b, w, e).issued, f);
      match e
      case Operate(op, at, faults) =>
        if w.running {
          SafeIsRunning(b, w);
          FlagsKeepRunning(b, w, w.(faults := faults));
          OperationKeepsEpoch(b, w.(faults := faults), op, at);
        }
      case CrashAt(_) =>
      case Boot(boot, accept, at, faults) =>
        if !w.running {
          var v := w.(faults := faults);
          StoppedFlags(b, w, v);
          StartRunsOnlyIfOk(b, v, boot, accept, at);
          if Start(b, v, EMPTY_STATE, v.log, boot, accept, at).1 { StartIsAbove(b, v, boot, accept, at, f); }
        }
    }
  }

  lemma IssuedStays(s: seq<Fence>, t: seq<Fence>, f: Fence)
    requires s <= t && f in s
    ensures f in t
  {
    var i :| 0 <= i < |s| && s[i] == f;
    assert t[i] == f;
  }

  lemma OtherEpochChangesNothing(b: Bounds, w: World, r: EffectReport, at: int)
    requires r.fence.epoch != w.st.epoch.counter
    ensures ReportEffect(b, w, r, at).w == w
    ensures !Known(w.st, r.requestId) ==> ReportEffect(b, w, r, at).result.Failure?
  {
    hide WithEffect, PutEffect;
  }

  /** In every run that loses no committed epoch record: a token issued before any stop of the
      fabric never changes anything afterwards; its report is refused, or answered from the table. */
  lemma StaleReportChangesNothing(b: Bounds, es: seq<Event>, i: nat, r: EffectReport, at: int)
    requires AllEpochsKept(b, EMPTY_WORLD, es) && i <= |es| && RunAll(b, EMPTY_WORLD, es).running
    requires !RunAll(b, EMPTY_WORLD, es[..i]).running && r.fence in RunAll(b, EMPTY_WORLD, es[..i]).issued
    ensures
      var w := RunAll(b, EMPTY_WORLD, es);
      && ReportEffect(b, w, r, at).w == w
      && (!Known(w.st, r.requestId) ==> ReportEffect(b, w, r, at).result.Failure?)
  {
    hide RunAll, ReportEffect, AllEpochsKept;
    StoppedTokenIsBelow(b, es, i, r.fence);
    OtherEpochChangesNothing(b, RunAll(b, EMPTY_WORLD, es), r, at);
  }

  /** The hypothesis is needed: if the crash takes the epoch record, the next lifetime repeats
      both the epoch and its first token. */
  lemma LostEpochRepeatsTokens(b: Bounds, boot: Id, at: int)
    ensures
      var first := Start(b, EMPTY_WORLD, EMPTY_STATE, [], boot, true, at);
      var issuedOnce := Raise(first.0, IssueTokens(first.0.st.counters).0);
      var second := Start(b, Crash(issuedOnce, 0), EMPTY_STATE, [], boot, true, at);
      var issuedTwice := Raise(second.0, IssueTokens(second.0.st.counters).0);
      && first.1 && second.1
      && issuedTwice.issued == [Fence(1, 1), Fence(1, 1)]
  {
    FirstStart(b, EMPTY_WORLD, boot, at);
    var first := Start(b, EMPTY_WORLD, EMPTY_STATE, [], boot, true, at).0;
    FirstStart(b, Crash(Raise(first, IssueTokens(first.st.counters).0), 0), boot, at);
  }

  lemma FirstStart(b: Bounds, w: World, boot: Id, at: int)
    requires w.faults == []
    ensures
      var (v, ok) := Start(b, w, EMPTY_STATE, [], boot, true, at);
      ok && v.st.epoch.counter == 1 && v.st.counters == Counters(0, 0, 0, 0) && v.issued == w.issued && v.faults == []
  {
    assert Replay(b, EMPTY_STATE, []) == EMPTY_STATE;
    NothingLive(EMPTY_STATE);
    NothingLive(Begun(b, w, EMPTY_STATE, [], boot).st);
  }

  lemma NothingLive(st: State)
    requires st.assignments == map[]
    ensures LiveIds(st) == []
  {
    assert LiveSet(st) == {};
  }
}
