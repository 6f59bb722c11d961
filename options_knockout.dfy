/**
 * The packaged knock-out option (options/european/barrier_knockout.py):
 * the same in-place strategy as _slow_price, over the spot function and
 * one-step rule of its vanilla parent.
 */
module OptionsKnockOut {
  import opened Lattice
  import KnockOutPricing

  /** price: 0 when the initial spot is terminated, otherwise the level-0
      knock-out value of the parent's lattice. */
  method Price(v: Valuation, b: Barrier) returns (r: real)
    ensures r == if Trips(b, v.s0) then 0.0 else KnockOut(v, b, 0, 0)
  {
    r := KnockOutPricing.SlowPrice(v, b);
  }
}
