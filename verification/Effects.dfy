/** Effect reports: verification always rests on a matching effect, and when a report makes the
    journal unreadable (src/fabric.cpp, src/wire.cpp). */
module Effects {
  import opened Units
  import opened Types
  import opened Ordered
  import opened Decisions
  import opened Claims
  import opened Idempotency
  import opened Machine
  import opened Steps
  import opened Traces
  import opened Runs
  import opened Refinement
  import opened Revalidation
  import opened Agreement
  import opened Capacity
  import opened Restart

  // ---- Verification rests on an effect ----------------------------------------------------

  predicate CarriesAt(a: Assignment, i: int, outcome: EffectOutcome) {
    && 0 <= i < |a.effects| && a.effects[i].outcome == outcome
    && a.effects[i].attempt == a.attempt && a.effects[i].fence == a.fence && a.effects[i].generation == a.generation
    && a.effects[i].incarnation == a.incarnation && a.effects[i].capabilityGeneration == a.binding.capability
  }

  /** The Applied effect of the current attempt is the last one, or only an Unknown report of
      the same attempt came after it. */
  predicate Backed(a: Assignment) {
    var last := |a.effects| - 1;
    a.state.AppliedVerified? ==>
      CarriesAt(a, last, Applied) || (CarriesAt(a, last, EffectOutcome.Unknown) && CarriesAt(a, last - 1, Applied))
  }

  predicate AllBacked(m: map<Id, Assignment>) { forall id :: id in m ==> Backed(m[id]) }

  lemma ReportKeepsBacked(b: Bounds, st: State, a: Assignment, r: EffectReport, at: int)
    requires b.maxEffects >= 2 && Backed(a) && Acceptable(st, a, r)
    ensures Backed(WithEffect(b, a, r, at))
  {
    var next := WithEffect(b, a, r, at);
    var last := |a.effects| - 1;
    assert next.effects[|next.effects| - 1].outcome == r.outcome;
    if a.state.AppliedVerified? && r.outcome.Unknown? {
      assert 0 <= last ==> !SameEffect(a.effects[last], r);
      assert next.effects[|next.effects| - 2] == a.effects[last];
    }
  }

  lemma WrittenIsBacked(b: Bounds, w: World, m: Micro)
    requires b.maxEffects >= 2 && Legal(b, w, m) && AllBacked(w.st.assignments) && Written(b, w, m).Some?
    ensures Backed(Written(b, w, m).value)
  {
    hide ScopeConflict, EffectMatches, WithEffect;
    match m
    case Reported(r, at) => ReportKeepsBacked(b, w.st, w.st.assignments[r.assignment], r, at);
    case _ =>
  }

  lemma MicroKeepsBacked(b: Bounds, w: World, m: Micro)
    requires b.maxEffects >= 2 && Legal(b, w, m) && AllBacked(w.st.assignments)
    ensures AllBacked(Do(b, w, m).st.assignments)
  {
    hide Do, Insert, Legal;
    DoWrites(b, w, m);
    if Written(b, w, m).Some? {
      WrittenIsBacked(b, w, m);
      InsertFrame(w.st, Written(b, w, m).value);
      hide Written, Backed;
    }
  }

  lemma {:induction false} RunKeepsBacked(b: Bounds, w: World, tr: seq<Micro>)
    requires b.maxEffects >= 2 && LegalRun(b, w, tr) && AllBacked(w.st.assignments)
    ensures AllBacked(Run(b, w, tr).st.assignments)
    decreases |tr|
  {
    hide Do, Legal, AllBacked;
    if tr != [] {
      MicroKeepsBacked(b, w, tr[0]);
      RunKeepsBacked(b, Do(b, w, tr[0]), tr[1..]);
    }
  }

  lemma StartedIsBacked(b: Bounds, w: World, boot: Id, accept: bool, at: int)
    requires NamedLog(w.log) && Start(b, w, EMPTY_STATE, w.log, boot, accept, at).1
    ensures AllBacked(Start(b, w, EMPTY_STATE, w.log, boot, accept, at).0.st.assignments)
  {
    hide Start;
    RestartIsConservative(b, w, EMPTY_STATE, w.log, boot, accept, at);
  }

  /** In every run, with room for two effects per assignment, an AppliedVerified assignment
      carries an Applied effect of its current attempt and token. */
  lemma {:induction false} VerifiedMeansApplied(b: Bounds, es: seq<Event>)
    requires b.maxEffects >= 2
    ensures
      var w := RunAll(b, EMPTY_WORLD, es);
      w.running ==> AllBacked(w.st.assignments)
  {
    hide Exec, Start, Consistent, AllBacked;
    if es != [] {
      var w, e := RunAll(b, EMPTY_WORLD, es[..|es| - 1]), es[|es| - 1];
      VerifiedMeansApplied(b, es[..|es| - 1]);
      ReplayRefinesEveryRun(b, es[..|es| - 1]);
      ConsistentParts(b, w);
      match e
      case Operate(op, at, faults) =>
        if w.running {
          var v := w.(faults := faults);
          if op.AcceptRecovery? {
            AcceptOnlyFlags(b, v, at);
          } else {
            var tr := OperationTrace(b, v, op, at);
            RunKeepsBacked(b, v, tr);
          }
        }
      case CrashAt(_) =>
      case Boot(boot, accept, at, faults) =>
        if !w.running {
          StartRunsOnlyIfOk(b, w.(faults := faults), boot, accept, at);
          if Start(b, w.(faults := faults), EMPTY_STATE, w.log, boot, accept, at).1 {
            StartedIsBacked(b, w.(faults := faults), boot, accept, at);
          }
        }
    }
  }

  /** With room for one effect only, an Unknown report displaces the effect that verified the
      assignment, which stays AppliedVerified. */
  lemma OneEffectIsNotEnough(b: Bounds, st: State, a: Assignment, r: EffectReport, at: int)
    requires b.maxEffects == 1 && a.state.AppliedVerified? && Acceptable(st, a, r) && r.outcome.Unknown?
    ensures WithEffect(b, a, r, at).state.AppliedVerified? && !Backed(WithEffect(b, a, r, at))
  {
  }

  // ---- When the journal stops decoding ----------------------------------------------------------

  /** Every record an operation commits decodes, except that of an effect report on an
      assignment whose history is already full. */
  lemma CommittedDecodesIff(b: Bounds, w: World, m: Micro)
    requires Legal(b, w, m) && Committed(b, w, m).Some?
    ensures Decodable(b, Committed(b, w, m).value) <==>
            (m.Reported? ==> |w.st.assignments[m.report.assignment].history| < b.maxHistory)
  {
    hide ScopeConflict, EffectMatches;
  }

  lemma {:induction false} RunLogGrows(b: Bounds, w: World, tr: seq<Micro>)
    requires LegalRun(b, w, tr)
    ensures w.log <= Run(b, w, tr).log
    decreases |tr|
  {
    hide Do, Legal, Committed;
    if tr != [] {
      DoCommits(b, w, tr[0]);
      RunLogGrows(b, Do(b, w, tr[0]), tr[1..]);
    }
  }

  lemma UndecodableIsRefused(b: Bounds, w: World, i: nat, boot: Id, accept: bool, at: int)
    requires i < |w.log| && !Decodable(b, w.log[i])
    ensures
      var v := Start(b, w, EMPTY_STATE, w.log, boot, accept, at).0;
      !v.running && v.log == w.log
  {
    hide Recovered, Launch, Begun;
  }

  /** And then no process ever runs on that journal again: in every continuation of the run whose
      crashes keep the record, the fabric is stopped from the first crash on, whatever is tried. */
  lemma {:induction false} UndecodableStaysRefused(b: Bounds, es: seq<Event>, more: seq<Event>, i: nat)
    requires i < |RunAll(b, EMPTY_WORLD, es).log| && !Decodable(b, RunAll(b, EMPTY_WORLD, es).log[i])
    requires forall k :: 0 <= k < |more| && more[k].CrashAt? ==> more[k].keep > i
    ensures
      var w, v := RunAll(b, EMPTY_WORLD, es), RunAll(b, EMPTY_WORLD, es + more);
      && i < |v.log| && v.log[i] == w.log[i]
      && (v.running ==> w.running && forall k :: 0 <= k < |more| ==> !more[k].CrashAt?)
    decreases |more|
  {
    hide Exec, Start, Decodable, Consistent;
    if more == [] {
      assert es + more == es;
    } else {
      var before, e := more[..|more| - 1], more[|more| - 1];
      assert (es + more)[..|es + more| - 1] == es + before;
      UndecodableStaysRefused(b, es, before, i);
      var v := RunAll(b, EMPTY_WORLD, es + before);
      ReplayRefinesEveryRun(b, es + before);
      ConsistentParts(b, v);
      match e
      case Operate(op, at, faults) =>
        if v.running {
          var u := v.(faults := faults);
          if op.AcceptRecovery? {
            AcceptOnlyFlags(b, u, at);
          } else {
            var tr := OperationTrace(b, u, op, at);
            RunLogGrows(b, u, tr);
          }
        }
      case CrashAt(_) =>
      case Boot(boot, accept, at, faults) => if !v.running { UndecodableIsRefused(b, v.(faults := faults), i, boot, accept, at); }
    }
  }
}
