/**
 * The vanilla prototype (scripts/european/vanilla.py): CRR parameters set
 * directly in the constructor, and the same grid fill as the main version,
 * over a spot function s0 * u^sqrt(j) * d^sqrt(i-j). That spot enters as
 * its factor table, factor(i, j) = u^sqrt(j) * d^sqrt(i-j), whose values
 * come from the floating-point power function.
 */
module ScriptsVanilla {
  import opened Wrappers
  import opened Lattice
  import opened Calibration
  import VanillaPricing

  /** The constructor: h = tenor / n fails for n == 0; otherwise the CRR
      parameters, the down probability being the 1 - p of _f. */
  function Construct(terms: Terms, t: Transcendentals): (r: Result<Params>)
    requires t.df > 0.0 && t.crrUp > 1.0
    ensures r.Failure? <==> terms.n == 0
    ensures r.Failure? ==> r.error == ZeroSteps
    ensures r.Success? ==>
      var p := r.value;
      && p.n == terms.n && p.df == t.df && p.u == t.crrUp
      && p.d * p.u == 1.0 && p.pd == 1.0 - p.pu
      && p.df * (p.pu * p.u + p.pd * p.d) == 1.0
  {
    if terms.n == 0 then Failure(ZeroSteps) else Success(Crr(terms, t))
  }

  /** The valuation one call price(initSpot, noShares) works with: spot
      s(i, j) = initSpot * factor(i, j), and the one-step rule _f, which
      weighs the down child by 1 - p whatever parameters it is given. */
  function ScriptValuation(terms: Terms, p: Params, factor: (nat, nat) -> real, s0: real, shares: real): (v: Valuation)
    ensures v.spot(0, 0) == s0 * factor(0, 0)
    ensures v.n == p.n && v.df == p.df && v.pu == p.pu && v.shares == shares
    ensures v.pu + v.pd == 1.0
  {
    Valuation(p.n, p.df, p.pu, 1.0 - p.pu, (i: nat, j: nat) => s0 * factor(i, j), s0, terms.strike, terms.opt, shares)
  }

  /** price: pv[0][0] of the grid _vanilla fills. */
  method Price(terms: Terms, p: Params, factor: (nat, nat) -> real, s0: real, shares: real) returns (r: real)
    ensures r == Vanilla(ScriptValuation(terms, p, factor, s0, shares), 0, 0)
  {
    var pv := VanillaPricing.Grid(ScriptValuation(terms, p, factor, s0, shares));
    r := pv[0, 0];
  }
}
