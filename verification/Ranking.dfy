/** Candidate ranking (src/fabric.cpp): the documented tuple, its packed 64-bit form, and the
    selection loop. */
module Ranking {
  import opened Units
  import opened Types

  const WRAP: nat := U64_MAX + 1

  function KindRank(kind: DeviceKind): nat {
    match kind
    case Dpu => 0
    case SmartNic => 1
    case Nic => 2
    case HostStack => 3
  }

  function LocalityRank(domain: Id, preferredHosts: seq<Id>, host: Id): nat {
    if domain != 0 && domain == host then 0
    else if host in preferredHosts then 1
    else 2
  }

  /** Unchecked `uint64_t` addition of four components. */
  function WrappedTotal(d: Demand): nat {
    (d.packets + d.flows + d.queues + d.memory) % WRAP
  }

  /** `utilization_ppm`: at most one million even when the totals wrap around. */
  function Utilization(used: Demand, capacity: Demand): (ppm: nat)
    ensures ppm <= 1_000_000
  {
    var u, c := WrappedTotal(used), WrappedTotal(capacity);
    PartsPerMillion(u, c)
  }

  function PartsPerMillion(u: nat, c: nat): (ppm: nat)
    ensures ppm <= 1_000_000
  {
    if c == 0 then if u == 0 then 0 else 1_000_000
    else if u == 0 then 0
    else if u * 1_000_000 > U64_MAX then 1_000_000
    else
      var ratio: nat := u * 1_000_000 / c;
      if ratio > 1_000_000 then 1_000_000 else ratio
  }

  /** The ranked fields of a candidate, in order of significance. */
  datatype Candidate = Candidate(offload: nat, kind: nat, locality: nat, utilization: nat, device: Id) {
    /** The ranges `finalize_ranking` produces. */
    predicate InRange() {
      offload <= 1 && kind <= 3 && locality <= 2 && utilization <= 1_000_000
    }

    /** `evaluation.rank`, packed into one integer. */
    function Rank(): nat {
      offload * 1_000_000_000_000 + kind * 10_000_000_000 + locality * 100_000_000 + utilization
    }
  }

  function Finalize(mode: Mode, kind: DeviceKind, host: Id, device: Id, domain: Id, preferredHosts: seq<Id>,
                    used: Demand, capacity: Demand): (c: Candidate)
    ensures c.InRange() && c.device == device
  {
    Candidate(if mode.HostFallback? then 1 else 0, KindRank(kind), LocalityRank(domain, preferredHosts, host),
              Utilization(used, capacity), device)
  }

  /** `candidate_precedes`. */
  predicate Precedes(a: Candidate, b: Candidate) {
    if a.offload != b.offload then a.offload < b.offload
    else if a.kind != b.kind then a.kind < b.kind
    else if a.locality != b.locality then a.locality < b.locality
    else if a.utilization != b.utilization then a.utilization < b.utilization
    else a.device < b.device
  }

  /** Comparing the packed rank and then the device is comparing the tuple: no field of an
      in-range candidate can carry into the next, and the packed rank fits in 64 bits. */
  lemma PackedRankAgrees(a: Candidate, b: Candidate)
    requires a.InRange() && b.InRange()
    ensures a.Rank() <= U64_MAX
    ensures Precedes(a, b) <==> a.Rank() < b.Rank() || (a.Rank() == b.Rank() && a.device < b.device)
    ensures a.Rank() == b.Rank() <==>
            a.offload == b.offload && a.kind == b.kind && a.locality == b.locality && a.utilization == b.utilization
  {
    if a.offload == b.offload {
      if a.kind == b.kind {
      } else if a.kind < b.kind {
        assert a.kind + 1 <= b.kind;
      } else {
        assert b.kind + 1 <= a.kind;
      }
    }
  }

  predicate NotAfter(a: Candidate, b: Candidate) { a == b || Precedes(a, b) }

  /** The minimum of a candidate list under the ranking order. */
  predicate IsBest(best: Candidate, candidates: seq<Candidate>) {
    best in candidates && forall c :: c in candidates ==> NotAfter(best, c)
  }

  /** The selection loop of `plan_locked`: keep the first candidate no later one precedes. */
  method Select(candidates: seq<Candidate>) returns (best: Option<Candidate>)
    ensures best == Best(candidates)
  {
    best := None;
    for i := 0 to |candidates|
      invariant best == Best(candidates[..i])
    {
      assert candidates[..i + 1][..i] == candidates[..i];
      if best.None? || Precedes(candidates[i], best.value) {
        best := Some(candidates[i]);
      }
    }
    assert candidates[..|candidates|] == candidates;
  }

  /** What the selection loop has kept after the whole list. */
  function Best(candidates: seq<Candidate>): (best: Option<Candidate>)
    ensures best.None? <==> candidates == []
    ensures best.Some? ==> IsBest(best.value, candidates)
  {
    if candidates == [] then None
    else
      var last := |candidates| - 1;
      var before := Best(candidates[..last]);
      assert candidates == candidates[..last] + [candidates[last]];
      if before.None? || Precedes(candidates[last], before.value) then Some(candidates[last]) else before
  }

  /** The choice does not depend on the order in which candidates are enumerated, nor on
      repetitions: it is the unique minimum of the set of candidates. */
  lemma SelectionIgnoresOrder(xs: seq<Candidate>, ys: seq<Candidate>)
    requires forall c :: c in xs <==> c in ys
    ensures Best(xs) == Best(ys)
  {
    if xs != [] {
      assert xs[0] in ys;
      assert Best(xs).value in ys && Best(ys).value in xs;
      assert NotAfter(Best(xs).value, Best(ys).value) && NotAfter(Best(ys).value, Best(xs).value);
    }
  }
}
