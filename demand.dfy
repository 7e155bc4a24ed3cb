/**
 * Flow-control accounting of smelter-reflux: a `Demand` is the number of
 * further values a consumer accepts, held in an unsigned 64-bit counter whose
 * largest value is reserved to mean "unlimited".
 */
module Demands {
  import opened Wrappers

  /** Rust's `u64`. */
  newtype u64 = x: int | 0 <= x < 0x1_0000_0000_0000_0000

  /** `u64::MAX`, the sentinel that marks unlimited demand. */
  const U64_MAX: u64 := 0xFFFF_FFFF_FFFF_FFFF

  datatype Demand = Demand(count: u64)

  predicate IsUnlimited(d: Demand) {
    d.count == U64_MAX
  }

  /** `Demand::nothing()`: no further value is accepted. */
  function Nothing(): (d: Demand)
    ensures !IsUnlimited(d)
    ensures forall n: u64 :: Consumed(d, n).Some? <==> n == 0
  {
    Demand(0)
  }

  /** `Demand::unlimited()`. */
  function Unlimited(): (d: Demand)
    ensures IsUnlimited(d)
    ensures forall n: u64 :: Consumed(d, n) == Some(d)
  {
    Demand(U64_MAX)
  }

  /**
   * `Demand::consumed(n)`: the demand left after `n` values were taken, or
   * `None` when fewer than `n` were still allowed. Unlimited demand absorbs
   * every consumption, and a finite count never grows.
   */
  function Consumed(d: Demand, n: u64): (r: Option<Demand>)
    ensures IsUnlimited(d) ==> r == Some(d)
    ensures !IsUnlimited(d) ==> (r.Some? <==> n <= d.count)
    ensures r.Some? && !IsUnlimited(d) ==> r.value.count as int == d.count as int - n as int
    ensures r.Some? ==> r.value.count <= d.count
  {
    if d.count == U64_MAX then Some(d)
    else if d.count >= n then Some(Demand(d.count - n))
    else None
  }

  /**
   * Consuming nothing always succeeds and changes nothing, whatever the demand
   * (also `Nothing()`): this is what lets a publisher keep every subscription.
   */
  lemma ConsumedZeroKeeps(d: Demand)
    ensures Consumed(d, 0) == Some(d)
  {
  }

  /**
   * Two consumptions on a finite demand succeed exactly when one consumption
   * of their sum does, and leave the same count.
   */
  lemma ConsumedTwice(d: Demand, a: u64, b: u64)
    requires !IsUnlimited(d)
    requires a as int + b as int <= U64_MAX as int
    ensures Consumed(d, a).Some? && Consumed(Consumed(d, a).value, b).Some?
            <==> Consumed(d, (a as int + b as int) as u64).Some?
    ensures Consumed(d, (a as int + b as int) as u64).Some? ==>
              Consumed(Consumed(d, a).value, b) == Consumed(d, (a as int + b as int) as u64)
  {
  }
}
