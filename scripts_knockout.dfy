/**
 * The knock-out prototype (scripts/european/barrier_knockout.py): one
 * zero-initialised array of n + 1 values swept in place, over the
 * prototype's spot function.
 */
module ScriptsKnockOut {
  import opened Lattice
  import KnockOutPricing

  /** price: 0 when the initial spot trips the barrier; otherwise the
      payoff is written at every untripped terminal node (a tripped one
      keeps the 0 the array starts with), then the levels are swept in
      place. */
  method Price(v: Valuation, b: Barrier) returns (r: real)
    ensures Trips(b, v.s0) ==> r == 0.0
    ensures !Trips(b, v.s0) ==> r == KnockOut(v, b, 0, 0)
  {
    var pv := new real[v.n + 1](_ => 0.0);
    if Trips(b, v.s0) {
      return 0.0;
    }
    for j := 0 to v.n + 1
      invariant forall k :: 0 <= k < j ==> pv[k] == KnockOut(v, b, v.n, k)
      invariant forall k :: j <= k <= v.n ==> pv[k] == 0.0
    {
      var spot := v.spot(v.n, j);
      if !Trips(b, spot) {
        pv[j] := Payoff(v.opt, v.strike, spot, v.shares);
      }
    }
    r := KnockOutPricing.SweepLevels(v, b, pv);
  }
}
