/** Checked 64-bit arithmetic and the demand and capacity vectors built on it
    (include/nof/checked.hpp, include/nof/units.hpp). */
module Units {

  const U64_MAX: nat := 0xFFFF_FFFF_FFFF_FFFF

  type U64 = n: nat | n <= U64_MAX

  datatype Option<+T> = None | Some(value: T)

  /** `checked_add`: the sum, or nothing when it does not fit in 64 bits. */
  function CheckedAdd(a: U64, b: U64): (r: Option<U64>)
    ensures r == None <==> a + b > U64_MAX
    ensures r.Some? ==> r.value == a + b
  {
    if a > U64_MAX - b then None else Some(a + b)
  }

  /** The counters use `(void)checked_add(a, b, out)` with `out` preset to zero, so an
      overflowing component is stored as zero. */
  function AddOrZero(a: U64, b: U64): U64 {
    match CheckedAdd(a, b)
    case Some(v) => v
    case None => 0
  }

  /** `checked_sub` with the underflow branch clamped to zero. */
  function SubClamped(a: U64, b: U64): U64 {
    if a < b then 0 else a - b
  }

  /** The five typed quantities of a demand vector; a proof about one component is a
      proof about each. */
  datatype Component = Packets | Bytes | Flows | Queues | Memory

  datatype Demand = Demand(packets: U64, bytes: U64, flows: U64, queues: U64, memory: U64) {
    function Of(c: Component): U64 {
      match c
      case Packets => packets
      case Bytes => bytes
      case Flows => flows
      case Queues => queues
      case Memory => memory
    }
  }

  const ZERO_DEMAND := Demand(0, 0, 0, 0, 0)

  function AddDemand(a: Demand, b: Demand): (r: Demand)
    ensures forall c: Component :: r.Of(c) == AddOrZero(a.Of(c), b.Of(c))
  {
    Demand(AddOrZero(a.packets, b.packets), AddOrZero(a.bytes, b.bytes), AddOrZero(a.flows, b.flows),
           AddOrZero(a.queues, b.queues), AddOrZero(a.memory, b.memory))
  }

  function SubDemand(a: Demand, b: Demand): (r: Demand)
    ensures forall c: Component :: r.Of(c) == SubClamped(a.Of(c), b.Of(c))
  {
    Demand(SubClamped(a.packets, b.packets), SubClamped(a.bytes, b.bytes), SubClamped(a.flows, b.flows),
           SubClamped(a.queues, b.queues), SubClamped(a.memory, b.memory))
  }

  /** `capacity_admits`: admitted exactly when every component of the true, unbounded
      sum stays within the capacity, so exhaustion and overflow are one refusal. */
  function CapacityAdmits(capacity: Demand, committed: Demand, demand: Demand): (ok: bool)
    ensures ok <==> forall c: Component :: committed.Of(c) + demand.Of(c) <= capacity.Of(c)
  {
    var sums := [CheckedAdd(committed.packets, demand.packets), CheckedAdd(committed.bytes, demand.bytes),
                 CheckedAdd(committed.flows, demand.flows), CheckedAdd(committed.queues, demand.queues),
                 CheckedAdd(committed.memory, demand.memory)];
    var ok :=
      && sums[0].Some? && sums[1].Some? && sums[2].Some? && sums[3].Some? && sums[4].Some?
      && sums[0].value <= capacity.packets && sums[1].value <= capacity.bytes
      && sums[2].value <= capacity.flows && sums[3].value <= capacity.queues
      && sums[4].value <= capacity.memory;
    assert ok ==> forall c: Component :: committed.Of(c) + demand.Of(c) <= capacity.Of(c);
    assert committed.Of(Packets) == committed.packets && committed.Of(Bytes) == committed.bytes;
    assert committed.Of(Flows) == committed.flows && committed.Of(Queues) == committed.queues;
    assert committed.Of(Memory) == committed.memory;
    ok
  }
}
