/**
 * Construction of a European option (src/model/european/vanilla.py): the
 * model tag selects one of three lattice calibrations (CRR, JR, TRG) or the
 * closed-form model, and any other tag is rejected before any lattice
 * parameter is set.
 *
 * The values np.exp and np.sqrt return enter as `Transcendentals`; the
 * model keeps the exact algebra the source builds on top of them.
 */
module Calibration {
  import opened Wrappers
  import opened Lattice

  /** The constructor's contract terms. */
  datatype Terms = Terms(r: real, std: real, tenor: real, n: nat, strike: real, opt: string)

  /** The values of exp and sqrt at the points where the calibration calls them. */
  datatype Transcendentals = Transcendentals(
    df: real,           // exp(-h * r)
    crrUp: real,        // exp(sqrt(h) * std)
    jrUp: real,         // exp(nu * h + std * sqrt(h))
    jrDown: real,       // exp(nu * h - std * sqrt(h))
    trgStep: real,      // sqrt(std^2 * h + nu^2 * h^2)
    trgUpFactor: real)  // exp(trgStep): the spot factor of one TRG up-move

  /** What exp and sqrt deliver for a positive tenor and a positive
      volatility, and what the calibration's divisions need. */
  predicate Admissible(t: Transcendentals)
  {
    t.df > 0.0 && t.crrUp > 1.0 && t.trgStep > 0.0 && t.trgUpFactor > 0.0
  }

  /** Calibrated lattice: step size, discount factor, the source's u and d,
      the probabilities, and the factors the spot function applies per
      up- and down-move (u and d themselves, except for TRG whose u and d
      are log-steps). */
  datatype Params = Params(
    n: nat, h: real, df: real, u: real, d: real, pu: real, pd: real,
    upFactor: real, downFactor: real)

  datatype Model = LatticeModel(p: Params) | ClosedForm

  /** What arrives in the constructor's `model` slot: a tag string, or, from
      the knock-out subclass, its boolean `fast` flag. */
  datatype ModelArg = Tag(name: string) | Flag(flag: bool)

  datatype Contract = Contract(terms: Terms, model: Model)

  predicate KnownTag(m: ModelArg)
  {
    m.Tag? && m.name in {"CRR", "JR", "TRG", "BS"}
  }

  /** nu = r - std^2 / 2, the drift of the log-spot. */
  function Drift(terms: Terms): real
  {
    terms.r - 0.5 * terms.std * terms.std
  }

  /** _crr: u = exp(sqrt(h) std), d = 1/u, pu = (1/df - d)/(u - d), pd = 1 - pu. */
  function Crr(terms: Terms, t: Transcendentals): (p: Params)
    requires terms.n > 0 && t.df > 0.0 && t.crrUp > 1.0
    ensures p.n == terms.n && p.h * (terms.n as real) == terms.tenor && p.df == t.df
    ensures p.d * p.u == 1.0
    ensures p.pu + p.pd == 1.0
    ensures p.df * (p.pu * p.u + p.pd * p.d) == 1.0
    ensures p.upFactor == p.u && p.downFactor == p.d
  {
    var u := t.crrUp;
    var d := 1.0 / u;
    var pu := (1.0 / t.df - d) / (u - d);
    RiskNeutral(t.df, u, d, pu);
    Params(terms.n, terms.tenor / (terms.n as real), t.df, u, d, pu, 1.0 - pu, u, d)
  }

  /** pu = (1/df - d)/(u - d) makes the discounted expected growth one. */
  lemma RiskNeutral(df: real, u: real, d: real, pu: real)
    requires df > 0.0 && u != d
    requires pu == (1.0 / df - d) / (u - d)
    ensures df * (pu * u + (1.0 - pu) * d) == 1.0
  {
    calc {
      pu * u + (1.0 - pu) * d;
      pu * (u - d) + d;
      { assert pu * (u - d) == 1.0 / df - d; }
      1.0 / df;
    }
  }

  /** _jr: u and d from exp, pu = pd = 1/2. */
  function Jr(terms: Terms, t: Transcendentals): (p: Params)
    requires terms.n > 0
    ensures p.n == terms.n && p.h * (terms.n as real) == terms.tenor && p.df == t.df
    ensures p.pu == p.pd && p.pu + p.pd == 1.0
    ensures p.upFactor == p.u && p.downFactor == p.d
  {
    Params(terms.n, terms.tenor / (terms.n as real), t.df, t.jrUp, t.jrDown, 0.5, 1.0 - 0.5, t.jrUp, t.jrDown)
  }

  /** _trg: additive log-steps u = sqrt(std^2 h + nu^2 h^2) and d = -u,
      pu = 1/2 + (nu h) / (2 u), pd = 1 - pu. */
  function Trg(terms: Terms, t: Transcendentals): (p: Params)
    requires terms.n > 0 && t.trgStep > 0.0 && t.trgUpFactor > 0.0
    ensures p.n == terms.n && p.h * (terms.n as real) == terms.tenor && p.df == t.df
    ensures p.d == -p.u
    ensures p.pu + p.pd == 1.0
    ensures (p.pu - p.pd) * p.u == Drift(terms) * p.h
    ensures p.upFactor * p.downFactor == 1.0
  {
    var h := terms.tenor / (terms.n as real);
    var u := t.trgStep;
    var pu := 0.5 + 0.5 * Drift(terms) * h / u;
    assert (pu - (1.0 - pu)) * u == Drift(terms) * h by {
      var x := 0.5 * Drift(terms) * h;
      assert x / u * u == x;
      assert (pu - (1.0 - pu)) * u == 2.0 * (x / u) * u;
    }
    Params(terms.n, h, t.df, u, -u, pu, 1.0 - pu, t.trgUpFactor, 1.0 / t.trgUpFactor)
  }

  /** Vanilla.__init__: dispatch on the model tag. An unknown tag raises
      before any calibration runs; a lattice tag with n == 0 fails in
      tenor / n. */
  function Construct(terms: Terms, model: ModelArg, t: Transcendentals): (r: Result<Contract>)
    requires Admissible(t)
    ensures r.Failure? <==> !KnownTag(model) || (model != Tag("BS") && terms.n == 0)
    ensures !KnownTag(model) ==> r == Failure(InvalidModel)
    ensures r.Success? ==> r.value.terms == terms
    ensures r.Success? ==> (r.value.model.ClosedForm? <==> model == Tag("BS"))
    ensures r.Success? && r.value.model.LatticeModel? ==>
      var p := r.value.model.p;
      p.n == terms.n && p.n > 0 && p.pu + p.pd == 1.0 && p.df == t.df
    ensures r.Success? && model == Tag("CRR") ==>
      var p := r.value.model.p;
      p.d * p.u == 1.0 && p.df * (p.pu * p.u + p.pd * p.d) == 1.0
  {
    if model == Tag("CRR") then
      if terms.n == 0 then Failure(ZeroSteps) else Success(Contract(terms, LatticeModel(Crr(terms, t))))
    else if model == Tag("JR") then
      if terms.n == 0 then Failure(ZeroSteps) else Success(Contract(terms, LatticeModel(Jr(terms, t))))
    else if model == Tag("TRG") then
      if terms.n == 0 then Failure(ZeroSteps) else Success(Contract(terms, LatticeModel(Trg(terms, t))))
    else if model == Tag("BS") then
      Success(Contract(terms, ClosedForm))
    else
      Failure(InvalidModel)
  }

  /** The valuation one call price(initSpot, noShares) of a lattice contract
      works with: the spot lambda `s` is s0 * upFactor^j * downFactor^(i-j). */
  function ValuationOf(terms: Terms, p: Params, s0: real, shares: real): Valuation
  {
    Valuation(p.n, p.df, p.pu, p.pd, MultiplicativeSpot(s0, p.upFactor, p.downFactor),
              s0, terms.strike, terms.opt, shares)
  }

  /** Spot at the lattice's nodes: the root is the initial spot, and each
      up- or down-move multiplies by the lattice's factor. */
  lemma ValuationSpot(terms: Terms, p: Params, s0: real, shares: real, i: nat, j: nat)
    requires j <= i
    ensures var v := ValuationOf(terms, p, s0, shares);
      v.spot(0, 0) == s0 &&
      v.spot(i + 1, j + 1) == v.spot(i, j) * p.upFactor &&
      v.spot(i + 1, j) == v.spot(i, j) * p.downFactor
  {
    NodeSpotSteps(s0, p.upFactor, p.downFactor, i, j);
  }
}
