/**
 * Knock-in barrier pricing (src/model/european/barrier_knockin.py): a
 * top-down recursion over the lattice that returns the vanilla grid value
 * at the first activated node on each path, memoised in an (n+1) x (n+1)
 * table whose unset entries hold the sentinel -1.
 */
module KnockInPricing {
  import opened Wrappers
  import opened Lattice
  import opened Calibration
  import VanillaPricing

  /** The value np.full writes into every memo entry before the recursion. */
  const Unset: real := -1.0

  /** The knock-in constructor: the parent's constructor with its default
      model, so every knock-in contract is calibrated with CRR. It fails
      only where tenor / n divides by zero, and otherwise yields a lattice
      contract, the only kind `price` is given. */
  function Construct(terms: Terms, t: Transcendentals): (r: Result<Contract>)
    requires Admissible(t)
    ensures r.Failure? <==> terms.n == 0
    ensures r.Success? ==> r.value.terms == terms && r.value.model.LatticeModel?
    ensures r.Success? ==> r.value.model.p.d * r.value.model.p.u == 1.0
  {
    Calibration.Construct(terms, Tag("CRR"), t)
  }

  /** Every entry of the memo that is not the sentinel holds the
      un-memoised knock-in value of its node. */
  ghost predicate MemoSound(v: Valuation, b: Barrier, memo: array2<real>)
    requires memo.Length0 == v.n + 1 && memo.Length1 == v.n + 1
    reads memo
  {
    forall i, j :: 0 <= j <= i <= v.n && memo[i, j] != Unset ==> memo[i, j] == KnockIn(v, b, i, j)
  }

  /** _dfs: 0 beyond the last level; a memoised entry as stored; the vanilla
      grid value at an activated node; otherwise the one-step rule on the
      two children, stored in the memo. Whatever the memo held before, the
      result is the knock-in value and the memo stays sound. */
  method Dfs(v: Valuation, b: Barrier, i: nat, j: nat, vanilla: array2<real>, memo: array2<real>) returns (r: real)
    requires j <= i <= v.n + 1
    requires VanillaPricing.IsVanillaGrid(v, vanilla)
    requires memo.Length0 == v.n + 1 && memo.Length1 == v.n + 1 && memo != vanilla
    requires MemoSound(v, b, memo)
    modifies memo
    ensures MemoSound(v, b, memo)
    ensures r == KnockIn(v, b, i, j)
    decreases v.n + 1 - i
  {
    if i > v.n {
      return 0.0;
    }
    if memo[i, j] != Unset {
      return memo[i, j];
    }
    var spot := v.spot(i, j);
    if Trips(b, spot) {
      return vanilla[i, j];
    }
    var up := Dfs(v, b, i + 1, j + 1, vanilla, memo);
    var down := Dfs(v, b, i + 1, j, vanilla, memo);
    memo[i, j] := Step(v, up, down);
    r := memo[i, j];
  }

  /** price: a memo of sentinels, the vanilla grid, and the recursion from
      the root. The result is the knock-in value; when the initial spot is
      already activated it is the vanilla price. */
  method Price(c: Contract, b: Barrier, s0: real, shares: real) returns (r: real)
    requires c.model.LatticeModel?
    ensures r == KnockIn(ValuationOf(c.terms, c.model.p, s0, shares), b, 0, 0)
    ensures Trips(b, s0) ==> r == Vanilla(ValuationOf(c.terms, c.model.p, s0, shares), 0, 0)
  {
    var v := ValuationOf(c.terms, c.model.p, s0, shares);
    var memo := new real[v.n + 1, v.n + 1]((_, _) => Unset);
    var vanilla := VanillaPricing.Grid(v);
    r := Dfs(v, b, 0, 0, vanilla, memo);
    ValuationSpot(c.terms, c.model.p, s0, shares, 0, 0);
  }
}
