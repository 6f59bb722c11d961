# Binomial-lattice pricer for European options, in Dafny

This project models the pricing core of a small option-pricing repository. The core prices European options on a recombining binomial lattice. Three kinds are covered:

- vanilla calls and puts;
- knock-out barrier options, worth 0 once the spot touches the barrier;
- knock-in barrier options, worth the vanilla once the spot touches the barrier.

A contract is calibrated at construction with one of three schemes: Cox-Ross-Rubinstein (CRR), Jarrow-Rudd (JR) or Trigeorgis (TRG). Each `price(initSpot, noShares)` call then fills a fresh value lattice by backward induction.

## How the model is built

Everything a pricing call works with is gathered into one `Lattice.Valuation`:

- the step count `n`;
- the discount factor `df`;
- the up and down probabilities `pu` and `pd`;
- the spot function `spot(i, j)`;
- the initial spot, the strike, the option kind and the share count.

On top of it sit three specification recursions: `Lattice.Vanilla`, `Lattice.KnockOut` and `Lattice.KnockIn`. `KnockIn` is the memo-free form of the knock-in `_dfs` recursion. Each imperative strategy of the repository is proved against one of these three, as follows:

- **2-D grid.** `_vanilla` fills an `(n+1) x (n+1)` grid with nested loops: `VanillaPricing.Grid` on an `array2`.
- **Shrinking array.** `_fast_price` keeps a vectorised array of level values that shrinks by one each level: `KnockOutPricing.FastPrice` on a `seq`.
- **In-place sweep.** `_slow_price` and the two prototype knock-out pricers sweep one array of `n + 1` values in place, in ascending `j`: `KnockOutPricing.SweepLevels` on an `array`.
- **Memoised recursion.** The knock-in `_dfs` is a recursion memoised with a −1 sentinel table: `KnockInPricing.Dfs`, whose memo is an `array2`.
- **Zero-then-reprice.** The abandoned knock-in prototype zeroes the grid top-down and reprices it bottom-up: `ScriptsKnockIn`. As written it never clears the root. Under risk-neutral weights it is proved to return the vanilla price, not the knock-in value (`ScriptsKnockIn.AsWrittenIsVanilla`). With the root cleared (`ScriptsKnockIn.Price`), it is proved to return the knock-in value under risk-neutral weights on a lattice whose root spot is the initial spot.

The relations between the three values are proved once, in `Properties`:

- knock-in + knock-out = vanilla at every node;
- each value is linear in the share count;
- each value is non-negative under risk-neutral parameters, and a barrier option is bounded by its vanilla;
- a barrier whose move is neither "up" nor "down" never trips.

The constructors of the `scripts/` prototypes repeat the CRR calibration of `scripts/european/vanilla.py`, so they are modelled once, by `ScriptsVanilla.Construct`. Their spot function `s0 * u^sqrt(j) * d^sqrt(i-j)` is taken as an opaque factor table. The `options/` knock-out price runs the same algorithm as `_slow_price`. Its vanilla parent is not part of this model, so that parent's spot function and one-step rule are taken as parameters.

The accumulator simulation is modelled separately, in `Accumulator`, and the float-comparison helpers of the pricer base class in `Precision`.

Where the specification and the code disagree, the model follows the code:

- **Option kind.** Among the lattice pricers, only `_fast_price` rejects an option kind other than "call" or "put". (The closed-form price and the Greeks reject it too, but they are not part of this model.) The grid fill and the in-place sweeps price any other kind as a put. The constructor does not check the option kind at all.
- **Vectorised strategy.** Only the knock-out has one; the vanilla grid is always filled by nested loops.

## Model

| member | source | states |
|---|---|---|
| Lattice.NodeSpotPositive | src/model/european/vanilla.py:41-43 | the spot `s` of node (i, j), s0·u^j·d^(i−j) (`Lattice.NodeSpot`), is positive whenever s0, u and d are |
| Lattice.TripsMonotone | src/model/european/barrier_knockout.py:13-15 | the barrier predicate `Lattice.Trips` (`_isTerminated` here, `_isActivated` at src/model/european/barrier_knockin.py:12-13): an "up" barrier that trips at a spot trips at every higher spot, a "down" barrier at every lower one |
| Lattice.StepBounded | src/model/european/vanilla.py:37-39 | with 0 ≤ pu ≤ 1, pd = 1 − pu and df > 0, the one-step rule `_f` is df times a value between its two children |
| Lattice.PayoffBounds | src/model/european/vanilla.py:110-115 | the terminal payoff (`Lattice.Payoff`, used at every terminal node by `Lattice.Terminal`) is ≥ 0 for a non-negative share count, 0 out of the money, and the intrinsic gain times the shares in the money, "call" for calls and every other kind as a put |
| Lattice.KnockInNeverActivated | src/model/european/barrier_knockin.py:15-29 | the memo-free `_dfs` (`Lattice.KnockIn`): a knock-in none of whose nodes from level i on activates is worth 0 at every such node |
| Lattice.NodeSpotSteps | src/model/european/vanilla.py:41-43 | the spot s0·u^j·d^(i−j) recombines: an up-move multiplies by u, a down-move by d, and the root is s0 |
| Lattice.UnknownMoveNeverTrips | src/model/european/barrier_knockout.py:13-15 | a barrier whose move is neither "up" nor "down" never trips |
| Lattice.StepAdditive | src/model/european/vanilla.py:37-39 | the one-step rule _f is additive in its two children |
| Lattice.StepMonotone | src/model/european/vanilla.py:37-39 | with df > 0, 0 ≤ pu ≤ 1 and pd = 1 − pu, _f is monotone in both children and keeps non-negative values non-negative |
| Lattice.PayoffScales | src/model/european/vanilla.py:110-115 | the terminal payoff is linear in the share count |
| Calibration.Crr | src/model/european/vanilla.py:29-43 | CRR: d·u = 1, pu + pd = 1, df·(pu·u + pd·d) = 1 (risk-neutral), h·n = tenor, spot factors u and d |
| Calibration.RiskNeutral | src/model/european/vanilla.py:33-35 | pu = (1/df − d)/(u − d) with u ≠ d gives df·(pu·u + (1 − pu)·d) = 1 |
| Calibration.Jr | src/model/european/vanilla.py:45-60 | JR: pu = pd = 1/2, h·n = tenor, spot factors u and d |
| Calibration.Trg | src/model/european/vanilla.py:62-78 | TRG: d = −u, pu + pd = 1, (pu − pd)·u = ν·h, spot factors exp(u) and exp(−u) are reciprocal |
| Calibration.Construct | src/model/european/vanilla.py:9-27 | construction fails exactly for an unknown tag (InvalidModel, before any calibration) or a lattice tag with n = 0; "BS" gives the closed form; a CRR contract satisfies the CRR identities |
| Calibration.ValuationSpot | src/model/european/vanilla.py:41-43 | the spot lambda `s` of a calibrated lattice has root s0 and steps by its up and down factors |
| VanillaPricing.Grid | src/model/european/vanilla.py:105-135 | the returned grid holds the vanilla value at every node with j ≤ i and 0 above the diagonal; its last row is the call payoff for "call" and the put payoff otherwise; every entry below it is _f of its two children |
| VanillaPricing.FillLevel | src/model/european/vanilla.py:131-133 | one pass of the inner loop turns level i into vanilla values, given level i + 1; it changes only entries (i, 0..i) of the grid |
| VanillaPricing.Price | src/model/european/vanilla.py:137-142 | the lattice price is the root of the grid, the vanilla value of node (0, 0) |
| KnockOutPricing.ConstructAsWritten | src/model/european/barrier_knockout.py:8-15 | as written, every construction fails with the invalid-model error, since `fast` arrives in the parent's model slot |
| KnockOutPricing.ConstructCorrected | src/model/european/barrier_knockout.py:8-15 | with the default CRR model, construction fails exactly when n = 0; otherwise it records barrier and `fast` and yields a lattice whose spot factors are its u and d |
| KnockOutPricing.Mask | src/model/european/barrier_knockout.py:36-37 | the boolean-mask assignment zeroes exactly the entries whose spot trips the barrier and keeps the others |
| KnockOutPricing.FastPrice | src/model/european/barrier_knockout.py:24-51 | an option kind other than call or put raises; otherwise the result is the knock-out value of the root on the s0·u^j·d^(i−j) lattice |
| KnockOutPricing.ShrinkingSweep | src/model/european/barrier_knockout.py:39-51 | recomputing the level from adjacent pairs, shrinking by one and masking, from the masked terminal row down, ends at the knock-out value of the root |
| KnockOutPricing.MaskedLevel | src/model/european/barrier_knockout.py:43-49 | one shrink-and-mask step turns the knock-out values of level i + 1 into those of level i |
| KnockOutPricing.SlowPrice | src/model/european/barrier_knockout.py:53-79 | 0 when the initial spot trips; otherwise the knock-out value of the root, terminal entries being 0 at tripped nodes and the payoff elsewhere |
| KnockOutPricing.SweepLevels | src/model/european/barrier_knockout.py:71-79 | the in-place ascending-j sweep from the knock-out terminal row ends at the knock-out value of the root (pv[0..j) hold level i, pv[j..i+1] still level i + 1) |
| KnockOutPricing.RootTripIsZero | src/model/european/barrier_knockout.py:56-58 | on the multiplicative lattice, a tripping initial spot makes the knock-out value 0, as the early return of _slow_price says |
| KnockOutPricing.CompareStrategies | src/model/european/barrier_knockout.py:24-79 | for a call or a put, _fast_price and _slow_price return the same value on the same lattice |
| KnockOutPricing.Price | src/model/european/barrier_knockout.py:17-22 | price dispatches on `fast`; for a call or a put, and for any kind on the in-place path, it is the knock-out value of the root; with `fast` set, any other kind fails with the invalid-option-kind error |
| KnockInPricing.Construct | src/model/european/barrier_knockin.py:6-9 | the knock-in constructor calibrates with the parent's default CRR model: it fails exactly when n = 0, and otherwise yields a lattice contract with d·u = 1 |
| KnockInPricing.Dfs | src/model/european/barrier_knockin.py:15-29 | _dfs returns the un-memoised knock-in value (0 beyond level n, the vanilla grid value at an activated node, _f of the children otherwise) and leaves every non-sentinel memo entry equal to that value; it terminates with measure n + 1 − i |
| KnockInPricing.Price | src/model/european/barrier_knockin.py:36-39 | price is the knock-in value of the root, and the vanilla price when the initial spot is already activated |
| Properties.Replication | src/model/european/barrier_knockin.py:15-29 | knock-in + knock-out = vanilla at every node of the lattice |
| Properties.PriceReplication | src/model/european/barrier_knockin.py:36-39 | the knock-in price plus the in-place knock-out price equals the vanilla grid price of the same contract |
| Properties.VanillaScales | src/model/european/vanilla.py:105-135 | the vanilla value of every node is linear in the share count |
| Properties.KnockOutScales | src/model/european/barrier_knockout.py:53-79 | the knock-out value of every node is linear in the share count |
| Properties.KnockInScales | src/model/european/barrier_knockin.py:15-29 | the knock-in value of every node is linear in the share count |
| Properties.VanillaPriceScales | src/model/european/vanilla.py:137-142 | price(S, k·m) = k·price(S, m) for the vanilla lattice price |
| Properties.KnockOutPriceScales | src/model/european/barrier_knockout.py:17-22 | price(S, k·m) = k·price(S, m) for the knock-out price |
| Properties.KnockInPriceScales | src/model/european/barrier_knockin.py:36-39 | price(S, k·m) = k·price(S, m) for the knock-in price |
| Properties.VanillaNonNegative | src/model/european/vanilla.py:105-135 | with shares ≥ 0, 0 ≤ pu ≤ 1, pd = 1 − pu and df > 0, every vanilla value is ≥ 0 |
| Properties.GridNonNegative | src/model/european/vanilla.py:105-135 | under the same conditions every entry of the grid _vanilla returns is ≥ 0 |
| Properties.KnockOutBounded | src/model/european/barrier_knockout.py:53-79 | under the same conditions 0 ≤ knock-out ≤ vanilla at every node |
| Properties.KnockInBounded | src/model/european/barrier_knockin.py:15-29 | under the same conditions 0 ≤ knock-in ≤ vanilla at every node |
| Properties.UnknownMoveIsVanilla | src/model/european/barrier_knockout.py:13-15 | with a move other than "up" or "down" the knock-out is the vanilla and the knock-in is 0 |
| ScriptsVanilla.Construct | scripts/european/vanilla.py:9-21 | the prototype constructor fails exactly when n = 0; otherwise d·u = 1, pd = 1 − p and df·(p·u + (1 − p)·d) = 1 |
| ScriptsVanilla.ScriptValuation | scripts/european/vanilla.py:23-29 | the prototype lattice: one-step rule df·(p·up + (1 − p)·down) whatever the parameters, so its probabilities sum to 1; spot initSpot times the factor table |
| ScriptsVanilla.Price | scripts/european/vanilla.py:34-55 | the prototype price is the vanilla value of the root of its grid |
| ScriptsKnockOut.Price | scripts/european/barrier_knockout.py:38-62 | 0 when the initial spot trips; otherwise the knock-out value of the root, tripped terminal nodes keeping their initial 0 |
| OptionsKnockOut.Price | options/european/barrier_knockout.py:17-43 | 0 when the initial spot is terminated; otherwise the level-0 knock-out value of the parent's lattice |
| ScriptsKnockIn.ClearInactive | scripts/european/barrier_knockin.py:66-74 | the top-down pass leaves the root alone, keeps the vanilla value at every activated node of levels 1..n, zeroes every other one, and marks exactly the activated nodes |
| ScriptsKnockIn.ClearLevel | scripts/european/barrier_knockin.py:67-74 | one level of the top-down pass |
| ScriptsKnockIn.Reprice | scripts/european/barrier_knockin.py:77-80 | the bottom-up pass recomputes, from the level above, exactly the entries below level n that hold 0 |
| ScriptsKnockIn.RepriceLevel | scripts/european/barrier_knockin.py:78-80 | one level of the bottom-up pass |
| ScriptsKnockIn.PriceAsWritten | scripts/european/barrier_knockin.py:58-82 | as written: the vanilla price when the initial spot is activated, the vanilla price whenever that price is not 0, and the vanilla price under risk-neutral weights in every case |
| ScriptsKnockIn.AsWrittenIsVanilla | scripts/european/barrier_knockin.py:65-80 | with the root left uncleared, the two passes return the vanilla price under risk-neutral weights: a zero vanilla root is recomputed from knock-in children that lie between 0 and their vanilla values |
| ScriptsKnockIn.Disagree | scripts/european/barrier_knockin.py:65-80 | on a risk-neutral lattice whose root does not activate, the as-written passes give the vanilla price and the corrected ones the knock-in value |
| ScriptsKnockIn.AsWrittenCounterexample | scripts/european/barrier_knockin.py:65 | a one-step CRR lattice on which the as-written price is 100/3 while the knock-in value is 0 |
| ScriptsKnockIn.Price | scripts/european/barrier_knockin.py:58-82 | with the root cleared, the price is the knock-in value under risk-neutral parameters |
| ScriptsKnockIn.RepricedIsKnockIn | scripts/european/barrier_knockin.py:77-80 | below a cleared root, zero-then-reprice gives the knock-in value at every node, including activated nodes whose vanilla value is 0 |
| Accumulator.BuyerPayoff | scripts/AccuSim.py:63-71 | 0 above the knock-out price; 1000·(price − strike) ≥ 0 between strike and knock-out; 2000·(price − strike) < 0 below the strike |
| Accumulator.KnockOutIndex | scripts/AccuSim.py:55-58 | the first settlement above the knock-out price (or the path length): every earlier price is at most the knock-out price |
| Accumulator.PathPayoffIsPrefixSum | scripts/AccuSim.py:54-59 | the path payoff is the sum of buyer_payoff over the settlements before the first knock-out |
| Accumulator.LaterPricesIgnored | scripts/AccuSim.py:55-58 | prices after a knock-out have no effect on the path payoff |
| Accumulator.NoKnockOutSumsAll | scripts/AccuSim.py:54-60 | with no price above the knock-out price, the path payoff is the sum over all settlements |
| Accumulator.PathPayoff | scripts/AccuSim.py:54-59 | the payoff of one path: a path that never settles below the strike never loses |
| Accumulator.Path | scripts/AccuSim.py:53 | the price path `cumprod(returns) * 100` has one price per return, and positive returns give positive prices |
| Accumulator.DrawsKeepPricesPositive | scripts/AccuSim.py:50-53 | with every draw above −100, each price is 100·∏(1 + draw/100) over the months so far, and is positive |
| Accumulator.PathIsProduct | scripts/AccuSim.py:53 | prices[k] = 100 · ∏ returns[0..k] |
| Accumulator.Run | scripts/AccuSim.py:44-61 | exactly `times` payoffs, the i-th being the path payoff of the i-th path |
| Precision.IsClose | src/model/european/derivatives.py:24 | `math.isclose` with `abs_tol=ε`: values within ε are close, and close values are within ε or within 1e-9 of one of their magnitudes |
| Precision.AllClose | src/model/european/derivatives.py:35 | `np.allclose` with `atol=ε` holds for equal arrays under a non-negative ε |
| Precision.CompareFloat | src/model/european/derivatives.py:20-29 | PrecisionError exactly when h² < ε, before anything else; a negative ε is refused; past the guards, 0 exactly for values `math.isclose` calls close, and 1 or −1 only for values more than ε apart in that order |
| Precision.CompareReflexive | src/model/european/derivatives.py:24-25 | compare_float(a, a) = 0 |
| Precision.CompareAntisymmetric | src/model/european/derivatives.py:24-29 | compare_float(a, b) = −compare_float(b, a), with the same errors |
| Precision.CompareSeparated | src/model/european/derivatives.py:26-29 | values further apart than both tolerances compare by their order |
| Precision.IsAllFloatGe | src/model/european/derivatives.py:31-35 | PrecisionError exactly when h² < ε; otherwise element k is allclose(a, b) or a[k] > b[k] |
| Precision.IsAllFloatLe | src/model/european/derivatives.py:37-41 | the mirror, with a[k] < b[k] |
| Precision.GeAndLe | src/model/european/derivatives.py:31-41 | an element is both ≥ and ≤ exactly when the arrays are allclose, and at least one of them exactly when they are allclose or the element differs |

## Left out

- The closed-form model: `_bs`, `_bs_price` and the Greeks in src/model/european/vanilla.py:80-100 and 144-218. It rests on the normal distribution and on log, sqrt and exp in floating point. The model only records that tag "BS" selects it.
- VanillaPricing.Price: requires a lattice model, because the closed-form branch of `price` is not modelled.
- KnockInPricing.Price: requires a lattice model. This excludes no knock-in contract. The knock-in constructor passes no `model` to its parent (src/model/european/barrier_knockin.py:7), so it always calibrates with CRR (`KnockInPricing.Construct`). Its `price` (lines 36-39) has no closed-form branch.
- exp and sqrt in the calibrations. Their values enter as `Calibration.Transcendentals`, and only the algebra built on them is modelled. The prototype spot factor u^sqrt(j)·d^sqrt(i−j) is likewise an input table.
- Floating point. All arithmetic is exact `real`, so the model does not capture `np.longdouble` accumulation, float32 in the simulation, or the round-off the precision guard is meant to protect against. NaN and infinities in `math.isclose` and `np.allclose` are not modelled either.
- KnockOutPricing.Price: requires the contract's spot factors to be its u and d (CRR, JR). For a TRG contract, `_fast_price` builds its spot array from the log-steps u and d, while `_slow_price` uses the exponential factors. That mismatch is not modelled.
- KnockOutPricing.ConstructCorrected: does not model the AttributeError that `price` raises as written. `self.fast` is never assigned, but construction already fails before `price` could be reached.
- Lattice.NodeSpot: at j > i, where no node exists, the down exponent is taken as 0. The source's behaviour there is not modelled.
- Precision.CompareFloat: takes the step size h as a parameter. For a "BS" contract the source never assigns `self.h` (src/model/european/vanilla.py assigns it only in `_crr`, `_jr` and `_trg`, and its constructor does not call `Derivatives.__init__`), so `compare_float`, `is_all_float_ge` and `is_all_float_le` raise AttributeError there. That error is not modelled.
- Precision.IsAllFloatGe: requires arrays of equal length. numpy broadcasting of other shapes is not modelled.
- Precision.IsAllFloatLe: requires arrays of equal length, for the same reason.
- Accumulator.Run: takes the generator's normal draws (already scaled by the volatility) as input, twelve per path. `np.random.seed`, numba and the jitclass field types are not modelled.
- Persistence is not part of this model: src/data/store.py, src/data/model/daily_price.py and scripts/sample/store.py.
- The timing and printing decorator in src/model/european/__init__.py is not part of this model.
- scripts/BarrierOptions.py is not part of this model. It is an unfinished stub that returns 0.0.
- scripts/european/derivatives.py is not part of this model. It is an abstract base with no logic.
- The vanilla parent of options/european/barrier_knockout.py is not part of this model. Its spot function and one-step rule enter through the `Valuation`.
- The activation array of the knock-in prototype is written but never read. Its final content is stated, but nothing depends on it.

## Findings

| source | as written | input that shows it | evidently intended | confidence | as-written member | corrected member |
|---|---|---|---|---|---|---|
| scripts/european/barrier_knockin.py:65 | `pv[0][0] == 0` compares the root with 0 and discards the result. The root keeps its vanilla value, and the bottom-up pass only recomputes entries equal to 0, so the vanilla price is returned whenever it is not 0 | n = 1, r = 0 (df = 1), u = 2 (d = 1/2, p = 1/3), s0 = 100, call struck at 100, 1 share, up barrier at 300: returns 100/3, while the knock-in value is 0 | `pv[0][0] = 0`, so that the root is recomputed and the price is the knock-in value | high; not executed | ScriptsKnockIn.PriceAsWritten, ScriptsKnockIn.AsWrittenIsVanilla, ScriptsKnockIn.AsWrittenCounterexample | ScriptsKnockIn.Price, ScriptsKnockIn.RepricedIsKnockIn |
| src/model/european/barrier_knockout.py:9 | `fast` is passed as the parent's `model` argument. The parent accepts only "CRR", "JR", "TRG" or "BS" there (src/model/european/vanilla.py:18-27), so every construction raises ValueError. `self.fast`, read at line 19, is never assigned | any arguments, e.g. fast=True | call the parent with its default model and store `self.fast = fast` | high; not executed | KnockOutPricing.ConstructAsWritten | KnockOutPricing.ConstructCorrected |
