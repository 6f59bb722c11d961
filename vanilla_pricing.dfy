/**
 * Vanilla lattice pricing (src/model/european/vanilla.py, _vanilla and the
 * lattice branch of price): fill the full (n+1) x (n+1) grid, terminal row
 * first, then each level i = n-1 .. 0 from the level above, and return the
 * root.
 */
module VanillaPricing {
  import opened Lattice
  import opened Calibration

  /** The grid _vanilla returns: the vanilla value at every node, and the
      zero it was initialised with above the diagonal. */
  ghost predicate IsVanillaGrid(v: Valuation, pv: array2<real>)
    reads pv
  {
    && pv.Length0 == v.n + 1 && pv.Length1 == v.n + 1
    && (forall i, j :: 0 <= j <= i <= v.n ==> pv[i, j] == Vanilla(v, i, j))
    && (forall i, j :: 0 <= i < j <= v.n ==> pv[i, j] == 0.0)
  }

  /** Rows i..n of pv hold the vanilla values. */
  ghost predicate RowsFrom(v: Valuation, pv: array2<real>, i: nat)
    requires pv.Length0 == v.n + 1 && pv.Length1 == v.n + 1
    reads pv
  {
    forall a, c :: i <= a <= v.n && 0 <= c <= a ==> pv[a, c] == Vanilla(v, a, c)
  }

  /** Nothing above the diagonal is written. */
  ghost predicate UpperZero(pv: array2<real>)
    reads pv
  {
    forall a, c :: 0 <= a < c < pv.Length0 && c < pv.Length1 ==> pv[a, c] == 0.0
  }

  /** Since the previous state, only entries (i, 0) .. (i, j - 1) of pv
      have changed. */
  twostate predicate WritesOnly(pv: array2<real>, i: nat, j: nat)
    reads pv
  {
    forall r, c :: 0 <= r < pv.Length0 && 0 <= c < pv.Length1 && (r != i || c >= j) ==> pv[r, c] == old(pv[r, c])
  }

  /** _vanilla: the terminal row holds the payoffs, every node below it the
      one-step rule applied to its two children. */
  method Grid(v: Valuation) returns (pv: array2<real>)
    ensures fresh(pv)
    ensures IsVanillaGrid(v, pv)
    ensures forall j :: 0 <= j <= v.n ==> pv[v.n, j] == Payoff(v.opt, v.strike, v.spot(v.n, j), v.shares)
    ensures forall i, j :: 0 <= j <= i < v.n ==> pv[i, j] == Step(v, pv[i + 1, j + 1], pv[i + 1, j])
  {
    pv := new real[v.n + 1, v.n + 1]((_, _) => 0.0);
    for j := 0 to v.n + 1
      invariant forall c :: 0 <= c < j ==> pv[v.n, c] == Vanilla(v, v.n, c)
      invariant UpperZero(pv)
    {
      var spot := v.spot(v.n, j);
      pv[v.n, j] := Payoff(v.opt, v.strike, spot, v.shares);
    }
    var i := v.n;
    while i > 0
      invariant 0 <= i <= v.n
      invariant RowsFrom(v, pv, i)
      invariant UpperZero(pv)
    {
      i := i - 1;
      FillLevel(v, pv, i);
    }
  }

  /** The inner loop of _vanilla: level i from level i + 1, j = 0 .. i. */
  method FillLevel(v: Valuation, pv: array2<real>, i: nat)
    requires pv.Length0 == v.n + 1 && pv.Length1 == v.n + 1
    requires i < v.n && RowsFrom(v, pv, i + 1) && UpperZero(pv)
    modifies pv
    ensures RowsFrom(v, pv, i) && UpperZero(pv)
    ensures WritesOnly(pv, i, i + 1)
  {
    for j := 0 to i + 1
      invariant forall c :: 0 <= c < j ==> pv[i, c] == Vanilla(v, i, c)
      invariant RowsFrom(v, pv, i + 1)
      invariant UpperZero(pv)
      invariant WritesOnly(pv, i, j)
    {
      pv[i, j] := Step(v, pv[i + 1, j + 1], pv[i + 1, j]);
    }
  }

  /** price for a lattice model: the root pv[0][0] of the grid. */
  method Price(c: Contract, s0: real, shares: real) returns (r: real)
    requires c.model.LatticeModel?
    ensures r == Vanilla(ValuationOf(c.terms, c.model.p, s0, shares), 0, 0)
  {
    var pv := Grid(ValuationOf(c.terms, c.model.p, s0, shares));
    r := pv[0, 0];
  }
}
