/** Which effect reports are stored, and what they make of the record, over the stored fields
    themselves (src/fabric.cpp). */
module Reports {
  import opened Units
  import opened Types
  import opened Decisions
  import opened Claims
  import opened Machine
  import opened Steps
  import opened Criteria
  import opened Standing

  /** The report is about exactly this record: its token, of the current epoch, its attempt,
      generation, device incarnation and bound capability generation. */
  predicate Addressed(st: State, a: Assignment, r: EffectReport) {
    && r.fence.epoch != 0 && r.fence.sequence != 0 && r.fence == a.fence && r.fence.epoch == st.epoch.counter
    && r.attempt == a.attempt && r.generation == a.generation && r.incarnation == a.incarnation
    && r.capabilityGeneration == a.binding.capability
  }

  /** The same outcome of the same attempt was reported before. */
  predicate Repeated(a: Assignment, r: EffectReport) {
    exists i :: 0 <= i < |a.effects| && a.effects[i].attempt == r.attempt && a.effects[i].fence == r.fence && a.effects[i].outcome == r.outcome
  }

  predicate Storable(st: State, a: Assignment, r: EffectReport) {
    && Addressed(st, a, r) && !Repeated(a, r) && !Ended(a.state)
    && (r.outcome.Applied? ==> a.state.Dispatched? || a.state.Acknowledged? || a.state.Degraded?)
  }

  /** The record with the effect: verified, rejected or failed as reported; an unknown outcome leaves the
      lifecycle alone. The newest effects and the trace are kept. */
  ghost predicate Carries(b: Bounds, a: Assignment, c: Assignment, r: EffectReport, at: int) {
    && c == a.(state := c.state, stateReason := c.stateReason, updatedAt := at, history := c.history, effects := c.effects)
    && (match r.outcome
        case Applied => c.state.AppliedVerified? && c.stateReason == Reason.AppliedVerified
        case Rejected => c.state.Rejected? && c.stateReason == EffectRejected
        case Failed => c.state.Failed? && c.stateReason == EffectFailed
        case Unknown => c.state == a.state && c.stateReason == EffectUnknown)
    && Newest(a.effects + [Effect(a.attempt, a.fence, a.generation, a.incarnation, a.binding.capability, r.outcome,
                                  r.detailReason, r.observedAt)],
              c.effects, b.maxEffects)
    && c.history != [] && c.history[|c.history| - 1] == Transition(a.state, c.state, c.stateReason, at, a.fence)
    && Newest(a.history, c.history[..|c.history| - 1], b.maxHistory)
  }

  lemma StorableIs(st: State, a: Assignment, r: EffectReport)
    ensures Acceptable(st, a, r) <==> Storable(st, a, r)
  {
    assert (exists i :: 0 <= i < |a.effects| && SameEffect(a.effects[i], r)) <==> Repeated(a, r) by {
      if i :| 0 <= i < |a.effects| && SameEffect(a.effects[i], r) { assert Repeated(a, r); }
      if Repeated(a, r) {
        var i :| 0 <= i < |a.effects| && a.effects[i].attempt == r.attempt && a.effects[i].fence == r.fence && a.effects[i].outcome == r.outcome;
        assert SameEffect(a.effects[i], r);
      }
    }
  }

  lemma WithEffectCarries(b: Bounds, st: State, a: Assignment, r: EffectReport, at: int)
    requires Addressed(st, a, r)
    ensures Carries(b, a, WithEffect(b, a, r, at), r, at)
  {
    var c := WithEffect(b, a, r, at);
    var effect := Effect(a.attempt, a.fence, a.generation, a.incarnation, a.binding.capability, r.outcome, r.detailReason, r.observedAt);
    LastIsNewest(a.effects + [effect], b.maxEffects);
    LastIsNewest(a.history, b.maxHistory);
    assert c.history[..|c.history| - 1] == Last(a.history, b.maxHistory);
  }

  /** An effect report that is not remembered is stored exactly when it is addressed to the record, not a
      repetition, the record is not finished, an Applied outcome finds it dispatched, acknowledged or
      degraded, and the store accepts the commit; otherwise no assignment and no journal record changes. */
  lemma ReportStoredIff(b: Bounds, w: World, r: EffectReport, at: int)
    requires r.requestId == 0 || r.requestId !in w.st.table.entries
    ensures
      var o := ReportEffect(b, w, r, at);
      o.w.log != w.log <==>
        && w.running && w.accepted && r.assignment in w.st.assignments && Storable(w.st, w.st.assignments[r.assignment], r)
        && !(w.faults != [] && w.faults[0])
    ensures
      var o := ReportEffect(b, w, r, at);
      if o.w.log == w.log then o.w.st == w.st
      else
        && o.result.Success? && Carries(b, w.st.assignments[r.assignment], o.result.value, r, at)
        && o.w.log == w.log + [EffectRecorded(r, o.result.value, OfEffect(r))]
        && o.w.st.assignments == w.st.assignments[o.result.value.id := o.result.value]
  {
    hide EffectMatches, WithEffect, PutEffect, Storable, Carries;
    if r.assignment in w.st.assignments {
      var a := w.st.assignments[r.assignment];
      StorableIs(w.st, a, r);
      if Storable(w.st, a, r) {
        StorableIsAddressed(w.st, a, r);
        WithEffectCarries(b, w.st, a, r, at);
      }
      PutEffectIs(b, w, r, WithEffect(b, a, r, at), at);
    }
  }

  lemma StorableIsAddressed(st: State, a: Assignment, r: EffectReport)
    requires Storable(st, a, r)
    ensures Addressed(st, a, r)
  {
  }

  lemma PutEffectIs(b: Bounds, w: World, r: EffectReport, a: Assignment, at: int)
    ensures
      var v := PutEffect(b, w, r, a, at);
      && v.log == w.log + [EffectRecorded(r, a, OfEffect(r))] && |v.log| == |w.log| + 1
      && v.st.assignments == w.st.assignments[a.id := a]
  {
    hide Reindex, RefreshUsage;
  }

  /** A refusal of a mismatch names a field that does not match. */
  lemma MismatchIsReported(b: Bounds, w: World, r: EffectReport, at: int)
    requires w.running && w.accepted && (r.requestId == 0 || r.requestId !in w.st.table.entries) && r.assignment in w.st.assignments
    requires !Addressed(w.st, w.st.assignments[r.assignment], r)
    ensures
      var o, a := ReportEffect(b, w, r, at), w.st.assignments[r.assignment];
      o.w == w && o.result.Failure? &&
      match o.result.reason
      case FencedAttempt => r.fence.epoch == 0 || r.fence.sequence == 0 || r.fence != a.fence
      case EpochStale => r.fence.epoch != w.st.epoch.counter
      case AttemptMismatch => r.attempt != a.attempt
      case GenerationMismatch => r.generation != a.generation || r.capabilityGeneration != a.binding.capability
      case IncarnationMismatch => r.incarnation != a.incarnation
      case _ => false
  {
    hide WithEffect, PutEffect;
  }
}
