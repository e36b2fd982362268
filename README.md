# Nomos structured-note cores, modelled in Dafny

The Nomos repository is a series of daily structured-note scripts. Each is a
floating-point Monte Carlo driver in Python. This project models the
deterministic core inside five of them, with prices as Dafny `real`. Every
random draw, and every value built from `exp`, `sqrt`, `tanh` or `norm.cdf`,
is an input or an abstract function parameter.

- **Adaptive-margin control note (Day001)**, `margin_note.dfy`, module
  `AdaptiveMarginNote`.
  - One path at a time: build the price path from its increments, split the
    terminal return into a capped payout and an excess pool, refill the lowest
    equity from the pool, then choose between liquidation and payout.
  - The Monte Carlo loop appends one payout per path, keeps the first four paths
    and pools, and takes the mean.
- **Credit-triggered note, teaching score (Day002)**, `credit_score.dfy`,
  module `CreditRiskScore`: four clamped inputs under a positive-weighted sum.
  The value is the one before the final rounding.
- **Tick-jump note (Day003)**, in both copies of the script.
  - `tick_jump.dfy` (module `TickJump`) states the trigger once, as a predicate
    on a path.
  - `tick_jump_model.dfy` (module `TickJumpModel`) is the `PricingModel` class.
  - `tick_jump_script.dfy` (module `TickJumpScript`) is the lower-case script
    whose parameters are module globals.
  - Both scan windows with an early return, count the triggering paths, keep the
    first one, and price the note as payout × trigger probability.
- **Volatility-triggered arbitrage swap (Day004)**.
  - `arbitrage_rates.dfy` (module `ArbitrageRates`) covers:
    - the rate and volatility tables and their two lookups;
    - the nested loop that fills the cross rates of the table in place;
    - the interest-parity forward and the CIP basis.
  - `arbitrage_swap.dfy` (module `ArbitrageSwap`) covers:
    - the closed currency loop;
    - the fee-bearing profit of one round of the loop;
    - the `ArbitrageSimulation` class, whose `simulate` stores leg rate paths
      and runs the sticky knock-in / first-exit flags over the daily profits;
    - `get_results` and the holding-period formula.
- **Gamma amplifier note (Day005)**, `gamma_note.dfy`, module `GammaNote`.
  - The closed activation band.
  - The payoff loop, with its sticky `activated` flag and its sum of
    gamma × amplification × squared relative change over in-band steps.
  - The straddle's terminal value and return.
  - The per-path backtest row.
  - It is written as the `GammaAmplifierNote` class.

`common.dfy` (module `Common`) holds `Option`, the minimum, maximum and mean of a
sequence. An empty mean is `None`, where numpy gives NaN.

Where the source loops or mutates, the model is a method with loop invariants.
That method is proved against a recursive specification function. The
properties are then proved as lemmas about that function.

## Where the code and the note's description differ

The model follows the code in each case.

- **Day001.**
  - Knock-in and cap are judged on the terminal return alone.
  - The liquidation test uses the lowest price of the path, whenever it occurred.
  - As a result, raising the cap can lower a path's payoff
    (`AdaptiveMarginNote.RaisingCapCanLowerPayoff`).
- **Day002.** The docstring gives the score a range of 0 to 100. The formula
  reaches 115. Because the two ratios are only capped from above, it is negative
  for negative ratios (`CreditRiskScore.ScoreLeavesDocumentedRange`).
- **Day003.**
  - The note is described as "t consecutive tick declines". The code takes a
    window of t prices, which has only t − 1 steps, so t − 1 declines trigger
    (`TickJumpScript.TwoDeclinesTrigger`).
  - The window ends just before index `i`, so the last price of a path is never
    read (`TickJump.LastPriceIgnored`).
- **Day004.**
  - The fill loop does not store USD cross rates. It stores 1 for every
    `(X, USD)` and the seed `(USD, Y)` rate for every `(X, Y)` (see Findings).
  - The forward is the ratio `(1 + r_d·t) / (1 + r_f·t)` of two simple-interest
    growth factors. The CIP basis replaces it by the linear `1 + (r_d − r_f)·t`.
    So the basis of the model's own parity forward is not zero
    (`ArbitrageRates.CipBasisOfParityForward`).
- **Day005.**
  - The payoff special case for a never-activated path is redundant: the
    general formula gives the same value (`GammaNote.PayoffIsContributionLessCost`).
  - The backtest's `ever_activated` also looks at the first price, which the
    payoff never judges. So that flag can be set on a path whose note only
    pays its cost (`GammaNote.EverActivatedWithoutPayoff`).

## Model

| member | source | states |
|---|---|---|
| `AdaptiveMarginNote.PricePath` | structured-1400/Day001-Adaptive-Margin-Control-Note/pricing_model.py:35-39 | the path has one more entry than increments, starts at `S0`, and each entry is the previous one plus the previous one times the increment |
| `AdaptiveMarginNote.NoPositivityFloor` | structured-1400/Day001-Adaptive-Margin-Control-Note/pricing_model.py:38-39 | nothing keeps the price positive: a −200% step from 100 gives −100 |
| `AdaptiveMarginNote.BuildPrices` | structured-1400/Day001-Adaptive-Margin-Control-Note/pricing_model.py:35-39 | the appending loop builds exactly `PricePath` |
| `AdaptiveMarginNote.TerminalReturn` | structured-1400/Day001-Adaptive-Margin-Control-Note/pricing_model.py:41-42 | the terminal return `(S_T − S0) / S0` of the path's last price |
| `AdaptiveMarginNote.CapSplit` | structured-1400/Day001-Adaptive-Margin-Control-Note/pricing_model.py:43-54 | above knock-in and cap: the capped payout `cap × principal` and the excess pool `(R_T − cap) × principal`; otherwise the payout `R_T × principal` and an empty pool |
| `AdaptiveMarginNote.CapSplitProperties` | structured-1400/Day001-Adaptive-Margin-Control-Note/pricing_model.py:41-54 | payout plus pool is always `R_T × principal`; above both knock-in and cap, the payout is the capped amount and (for a positive principal) the pool is positive; otherwise the pool is 0 and the payout is `R_T × principal` |
| `AdaptiveMarginNote.MinEquity` | structured-1400/Day001-Adaptive-Margin-Control-Note/pricing_model.py:57-58 | the equity at the path's lowest price, `principal × min(prices) / S0` |
| `AdaptiveMarginNote.MarginRefill` | structured-1400/Day001-Adaptive-Margin-Control-Note/pricing_model.py:60-65 | the refill moves money from pool to equity and creates none; a non-negative pool stays non-negative and the equity does not fall; refilled equity never passes the maintenance line; healthy equity or an empty pool changes nothing; a pool covering the shortfall lifts the equity exactly to the line, and a smaller one is used up |
| `AdaptiveMarginNote.Settle` | structured-1400/Day001-Adaptive-Margin-Control-Note/pricing_model.py:67-70 | the recorded value is the refilled equity when it is still under the line with an empty pool, and the payout otherwise |
| `AdaptiveMarginNote.PathSettlement` | structured-1400/Day001-Adaptive-Margin-Control-Note/pricing_model.py:35-70 | the settlement of the price path built from one list of increments |
| `AdaptiveMarginNote.PoolConservation` | structured-1400/Day001-Adaptive-Margin-Control-Note/pricing_model.py:41-65 | after the margin check the pool is non-negative; equity plus pool equals the lowest equity (`principal × min(prices) / S0`) plus the banked excess; payout plus excess is `R_T × principal` |
| `AdaptiveMarginNote.CoveredShortfallPaysPayout` | structured-1400/Day001-Adaptive-Margin-Control-Note/pricing_model.py:60-70 | a pool covering the shortfall lifts equity exactly to the maintenance margin, and the path pays its payout |
| `AdaptiveMarginNote.LiquidationOrPayout` | structured-1400/Day001-Adaptive-Margin-Control-Note/pricing_model.py:67-70 | the path is liquidated at its equity, which is then below the maintenance margin, exactly when that equity is under the line and the pool is empty; otherwise it pays the payout |
| `AdaptiveMarginNote.HealthyPathPaysPayout` | structured-1400/Day001-Adaptive-Margin-Control-Note/pricing_model.py:57-70 | a path whose lowest equity is at or above the line pays its capped payout |
| `AdaptiveMarginNote.RaisingCapCanLowerPayoff` | structured-1400/Day001-Adaptive-Margin-Control-Note/pricing_model.py:47-70 | the path 100, 3, 140 pays 30 at cap 30%; at cap 39% it is liquidated at 4 |
| `AdaptiveMarginNote.EvaluatePath` | structured-1400/Day001-Adaptive-Margin-Control-Note/pricing_model.py:35-70 | one pass of the per-path body computes the price path and the settlement of the specification |
| `AdaptiveMarginNote.FinalPayouts` | structured-1400/Day001-Adaptive-Margin-Control-Note/pricing_model.py:67-70 | exactly one recorded value per path, in path order |
| `AdaptiveMarginNote.ExamplePaths` | structured-1400/Day001-Adaptive-Margin-Control-Note/pricing_model.py:72-74 | only the price paths of the first four paths are kept, in order |
| `AdaptiveMarginNote.ExamplePools` | structured-1400/Day001-Adaptive-Margin-Control-Note/pricing_model.py:72-75 | only the pools of the first four paths are kept, in order |
| `AdaptiveMarginNote.RunStep` | structured-1400/Day001-Adaptive-Margin-Control-Note/pricing_model.py:34-75 | one more path extends the payout list by its value, and the example lists by one entry only while fewer than four paths were seen |
| `AdaptiveMarginNote.RunOne` | structured-1400/Day001-Adaptive-Margin-Control-Note/pricing_model.py:34-75 | the loop body turns the three lists for the first `i` paths into those for the first `i + 1` |
| `AdaptiveMarginNote.RunPaths` | structured-1400/Day001-Adaptive-Margin-Control-Note/pricing_model.py:29-78 | the Monte Carlo loop yields the payout list, the example paths and pools, and their mean |
| `Common.SeqMin` | structured-1400/Day001-Adaptive-Margin-Control-Note/pricing_model.py:57 | `min` returns an element no larger than any element |
| `Common.Mean` | structured-1400/Day001-Adaptive-Margin-Control-Note/pricing_model.py:78 | the mean is undefined exactly for no values; otherwise the mean times the count is the sum |
| `Common.MeanBounds` | structured-1400/Day001-Adaptive-Margin-Control-Note/pricing_model.py:78 | the mean of a non-empty list lies between its smallest and its largest value |
| `CreditRiskScore.RiskScore` | structured-1400/Day002-Credit-Triggered-Note/risk_score_func_demo.py:6-39 | the score never exceeds 115, and is non-negative when both ratios are non-negative |
| `CreditRiskScore.ScoreOfClampedInputs` | structured-1400/Day002-Credit-Triggered-Note/risk_score_func_demo.py:32-37 | on inputs already inside their clamps the score is `5·ICR + 4·LR + 0.4·rating + 15·price_to_par` |
| `CreditRiskScore.ScoreMonotone` | structured-1400/Day002-Credit-Triggered-Note/risk_score_func_demo.py:20-37 | raising any input never lowers the score |
| `CreditRiskScore.ScoreSaturates` | structured-1400/Day002-Credit-Triggered-Note/risk_score_func_demo.py:26-29 | beyond its clamp an input scores as the clamp value: ICR and LR at 5, rating at 0 and 100, price-to-par at 0 and 2 |
| `CreditRiskScore.ScoreLeavesDocumentedRange` | structured-1400/Day002-Credit-Triggered-Note/risk_score_func_demo.py:26-37 | the top score is 115, and a negative ratio gives a negative score, outside the documented 0 to 100 |
| `CreditRiskScore.SampleScore` | structured-1400/Day002-Credit-Triggered-Note/risk_score_func_demo.py:43 | the demo company (2.5, 1.8, 65, 0.87) scores 58.75 before rounding |
| `TickJumpModel.PricingModel.constructor` | structured-1400/Day003-tick-jump-note/pricing_model.py:12-25 | the fields are the arguments, and the strong line is `initial_equity × (1 − margin_ratio)` |
| `TickJumpModel.PricingModel.Rule` | structured-1400/Day003-tick-jump-note/pricing_model.py:12-25 | the trigger rule the fields make: `S0`, tick size, initial equity, strong line and threshold |
| `TickJumpModel.PricingModel.IsJumpTriggered` | structured-1400/Day003-tick-jump-note/pricing_model.py:29-38 | the early-return scan answers true exactly when some window fires |
| `TickJumpModel.PricingModel.WindowFires` | structured-1400/Day003-tick-jump-note/pricing_model.py:31-37 | the body at index `i` answers whether the window `path[i − t .. i]` falls by more than a tick at every step and its last two equities cross the strong line downwards |
| `TickJumpModel.PricingModel.Simulate` | structured-1400/Day003-tick-jump-note/pricing_model.py:40-56 | the count is the number of triggering paths, the probability lies in [0, 1], the price is payout × probability, the example is the first triggering path, and all paths are kept in order |
| `TickJump.StrongLine` | structured-1400/Day003-tick-jump-note/pricing_model.py:23 | `initial_equity × (1 − margin_ratio)` |
| `TickJump.Equity` | structured-1400/Day003-tick-jump-note/pricing_model.py:34-35 | the equity at a price, `initial_equity × (price / S0)` |
| `TickJump.Fires` | structured-1400/Day003-tick-jump-note/pricing_model.py:30-37 | the window of the `t` prices before index `i` falls by more than a tick at every step, its second-to-last equity is above the strong line and its last one below |
| `TickJump.Triggered` | structured-1400/Day003-tick-jump-note/pricing_model.py:29-38 | some index `i` from `t` to the last one has a firing window |
| `TickJump.ShortPathNeverTriggers` | structured-1400/Day003-tick-jump-note/pricing_model.py:30 | a path no longer than `tick_threshold` never triggers |
| `TickJump.FiresReadsPrefix` | structured-1400/Day003-tick-jump-note/pricing_model.py:31-36 | whether a window fires depends only on the prices before its end |
| `TickJump.LastPriceIgnored` | structured-1400/Day003-tick-jump-note/pricing_model.py:30-36 | replacing the last price of a path never changes the verdict |
| `TickJump.EquityCrossingIsPriceCrossing` | structured-1400/Day003-tick-jump-note/pricing_model.py:34-36 | with a positive initial price and equity, the equity is above or below the strong line exactly when the price is above or below `S0 × (1 − margin_ratio)` |
| `TickJump.Diff` | structured-1400/Day003-tick-jump-note/pricing_model.py:32 | `np.diff` has one entry fewer and holds the steps between neighbours |
| `TickJump.WindowMatchesFires` | structured-1400/Day003-tick-jump-note/pricing_model.py:31-35 | the sliced window's steps all fall by more than a tick exactly when the path declines throughout that window, and its last two prices are `path[i − 2]` and `path[i − 1]` |
| `TickJump.DeclinesMatch` | structured-1400/Day003-tick-jump-note/pricing_model.py:32-33 | the test on the list of steps is the test on the path's steps |
| `TickJump.CountTriggered` | structured-1400/Day003-tick-jump-note/pricing_model.py:46-50 | the count never exceeds the number of paths |
| `TickJump.CountZeroIffNone` | structured-1400/Day003-tick-jump-note/pricing_model.py:46-50 | the count is zero exactly when no path triggers |
| `TickJump.FirstTriggered` | structured-1400/Day003-tick-jump-note/pricing_model.py:49-52 | the first triggering path of the list, or none |
| `TickJump.FirstTriggeredIsFirst` | structured-1400/Day003-tick-jump-note/pricing_model.py:49-52 | the example is absent exactly when no path triggers; otherwise it is a triggering path with none before it |
| `TickJump.ScanStep` | structured-1400/Day003-tick-jump-note/pricing_model.py:46-53 | one more path adds one to the count if it triggers, and becomes the example only if none was kept |
| `TickJump.FractionBounds` | structured-1400/Day003-tick-jump-note/pricing_model.py:55 | a count out of `M` paths is a probability in [0, 1] |
| `TickJumpScript.ScriptLine` | structured-1400/day003-tick-jump-note/pricing_model.py:12-26 | the script's rule is well formed; its strong line is 9000, which is a price of 90 |
| `TickJumpScript.TwoDeclinesTrigger` | structured-1400/day003-tick-jump-note/pricing_model.py:29-38 | 100, 95, 89, 89 triggers after only two declines |
| `TickJumpScript.OneDeclineDoesNotTrigger` | structured-1400/day003-tick-jump-note/pricing_model.py:29-38 | 100, 100, 89, 89 crosses the line but does not trigger |
| `TickJumpScript.IsJumpTriggered` | structured-1400/day003-tick-jump-note/pricing_model.py:29-38 | the module-level scan answers true exactly when some window fires under the script's globals |
| `TickJumpScript.Simulate` | structured-1400/day003-tick-jump-note/pricing_model.py:41-56 | over `M` paths: the count of triggering paths, a probability in [0, 1], a price in [0, payout] equal to payout × probability, the first triggering path, and all paths |
| `ArbitrageRates.GetVolatility` | structured-1400/Day004-VolTriggered-Arbitrage-Swap/pricing_model.py:80-86 | the direct entry when there is one, else the reverse entry, else the default 0.0080; always positive |
| `ArbitrageRates.VolatilitySymmetric` | structured-1400/Day004-VolTriggered-Arbitrage-Swap/pricing_model.py:80-86 | the lookup gives the same volatility in both directions |
| `ArbitrageRates.VolatilityTableComplete` | structured-1400/Day004-VolTriggered-Arbitrage-Swap/pricing_model.py:44-55 | every pair of distinct listed currencies has an entry in one orientation |
| `ArbitrageRates.GetRate` | structured-1400/Day004-VolTriggered-Arbitrage-Swap/pricing_model.py:89-97 | 1 for a currency with itself; the direct entry when there is one |
| `ArbitrageRates.RateReciprocal` | structured-1400/Day004-VolTriggered-Arbitrage-Swap/pricing_model.py:94-95 | a pair stored one way only is quoted as reciprocals both ways |
| `ArbitrageRates.RateUnknownPair` | structured-1400/Day004-VolTriggered-Arbitrage-Swap/pricing_model.py:96-97 | a pair with no entry in either orientation is quoted at 1 |
| `ArbitrageRates.FilledWith` | structured-1400/Day004-VolTriggered-Arbitrage-Swap/pricing_model.py:69-77 | the value the fill leaves at `(X, Y)`: the seed entry when there is one, else 1 for a quote of USD, else the seed `(USD, Y)` rate |
| `ArbitrageRates.FillResult` | structured-1400/Day004-VolTriggered-Arbitrage-Swap/pricing_model.py:66-77 | the filled table: the seed's keys plus every ordered pair of distinct listed currencies; seed entries kept; `(X, USD)` is 1; `(X, Y)` is the seed `(USD, Y)` rate |
| `ArbitrageRates.FillCrossRates` | structured-1400/Day004-VolTriggered-Arbitrage-Swap/pricing_model.py:66-77 | after the fill: the keys are the seed plus every ordered pair of distinct currencies; seed entries are unchanged; `(X, USD)` holds 1; `(X, Y)` holds the seed `(USD, Y)` rate |
| `ArbitrageRates.VisitRow` | structured-1400/Day004-VolTriggered-Arbitrage-Swap/pricing_model.py:68-77 | the inner loop completes one base currency's row and keeps the fill's invariant |
| `ArbitrageRates.VisitPair` | structured-1400/Day004-VolTriggered-Arbitrage-Swap/pricing_model.py:69-77 | one visit skips the same currency and present pairs; otherwise it adds the pair with the value the fill stores there |
| `ArbitrageRates.FillStep` | structured-1400/Day004-VolTriggered-Arbitrage-Swap/pricing_model.py:71-72 | before each visit: the USD row has its seed values; `(X, USD)` is absent at the first quote and 1 afterwards |
| `ArbitrageRates.FillComplete` | structured-1400/Day004-VolTriggered-Arbitrage-Swap/pricing_model.py:66-77 | the state after the last row is the finished table described for `FillCrossRates` |
| `ArbitrageRates.SourceSeedShape` | structured-1400/Day004-VolTriggered-Arbitrage-Swap/pricing_model.py:57-64 | the source's seed is a USD row with non-zero rates for the listed currencies, USD first |
| `ArbitrageRates.SourceSpot` | structured-1400/Day004-VolTriggered-Arbitrage-Swap/pricing_model.py:138 | the spot at which `simulate_rate_path` starts on the filled source table: 1 for a currency with itself, the filled value between two listed currencies, 1 otherwise |
| `ArbitrageRates.SourceSpotIsGetRate` | structured-1400/Day004-VolTriggered-Arbitrage-Swap/pricing_model.py:89-97 | on the filled source table `get_rate` never divides by zero and quotes exactly `SourceSpot`: 1 for a currency with itself, the filled entry for two listed currencies, 1 otherwise |
| `ArbitrageRates.SourceSpotValues` | structured-1400/Day004-VolTriggered-Arbitrage-Swap/pricing_model.py:66-77 | on the filled source table USD→X is the seed rate, X→USD is 1, and X→Y is the seed USD→Y rate |
| `ArbitrageRates.SourceFillBreaksTriangle` | structured-1400/Day004-VolTriggered-Arbitrage-Swap/pricing_model.py:66-77 | in the filled source table, JPY→USD times USD→JPY is 110, and the loop USD→JPY→CNY→USD multiplies out to 709.5 |
| `ArbitrageRates.IntendedCrossRate` | structured-1400/Day004-VolTriggered-Arbitrage-Swap/pricing_model.py:70-74 | the cross rate through USD: X→Y times USD→X is USD→Y |
| `ArbitrageRates.IntendedCrossRateConsistent` | structured-1400/Day004-VolTriggered-Arbitrage-Swap/pricing_model.py:70-74 | intended cross rates compose through any third currency, are reciprocal both ways, and reduce to the seed from USD |
| `ArbitrageRates.YearFraction` | structured-1400/Day004-VolTriggered-Arbitrage-Swap/pricing_model.py:103 | the horizon in years, `days / 365` |
| `ArbitrageRates.ForwardRate` | structured-1400/Day004-VolTriggered-Arbitrage-Swap/pricing_model.py:100-107 | forward × (1 + r_foreign·t) = spot × (1 + r_domestic·t) |
| `ArbitrageRates.ForwardIsSpot` | structured-1400/Day004-VolTriggered-Arbitrage-Swap/pricing_model.py:100-107 | the forward is the spot when `days = 0` or when the two interest rates are equal |
| `ArbitrageRates.ForwardDefinedAhead` | structured-1400/Day004-VolTriggered-Arbitrage-Swap/pricing_model.py:35-41 | with the source's non-negative rates the forward's denominator is positive for every horizon that is not negative |
| `ArbitrageRates.CipBasis` | structured-1400/Day004-VolTriggered-Arbitrage-Swap/pricing_model.py:110-117 | basis × t = (r_domestic − r_foreign)·t − (forward/spot − 1) |
| `ArbitrageRates.CipBasisOfFlatForward` | structured-1400/Day004-VolTriggered-Arbitrage-Swap/pricing_model.py:110-117 | a forward equal to the spot gives the basis `r_domestic − r_foreign` |
| `ArbitrageRates.CipBasisZeroIff` | structured-1400/Day004-VolTriggered-Arbitrage-Swap/pricing_model.py:115-116 | the basis is zero exactly when forward/spot = 1 + (r_domestic − r_foreign)·t |
| `ArbitrageRates.CipBasisOfParityForward` | structured-1400/Day004-VolTriggered-Arbitrage-Swap/pricing_model.py:100-117 | the basis of the parity forward times `1 + r_f·t` is `(r_d − r_f)·r_f·t`, so it is not zero once the rates differ and `r_f·t ≠ 0` |
| `ArbitrageSwap.CurrencyLoop` | structured-1400/Day004-VolTriggered-Arbitrage-Swap/pricing_model.py:120-134 | the shape of a drawn path: it starts and ends at the start currency, has `2 + min(max(length − 1, 0), others)` entries, and its interior holds distinct listed currencies other than the start |
| `ArbitrageSwap.Without` | structured-1400/Day004-VolTriggered-Arbitrage-Swap/pricing_model.py:122 | the filtered list holds exactly the other currencies, keeps them distinct, and is one shorter when the removed one was present |
| `ArbitrageSwap.GenerateCurrencyPath` | structured-1400/Day004-VolTriggered-Arbitrage-Swap/pricing_model.py:120-134 | the loop starts and ends at the start currency; its interior currencies are distinct, listed and not the start; its length is `2 + min(max(length − 1, 0), number of other currencies)` |
| `ArbitrageSwap.DrawingStep` | structured-1400/Day004-VolTriggered-Arbitrage-Swap/pricing_model.py:128-130 | drawing an available currency and removing it from the list keeps the path distinct and `available` exact |
| `ArbitrageSwap.DrawingCloses` | structured-1400/Day004-VolTriggered-Arbitrage-Swap/pricing_model.py:125-134 | stopping after the requested draws, or when no currency is left, and appending the start gives a closed loop |
| `ArbitrageSwap.ListedStartHasFourOthers` | structured-1400/Day004-VolTriggered-Arbitrage-Swap/pricing_model.py:122 | a listed start leaves exactly four other currencies to draw from |
| `ArbitrageSwap.LegQuoted` | structured-1400/Day004-VolTriggered-Arbitrage-Swap/pricing_model.py:227-230 | a leg can be read on a day: its own path covers the day, or the reverse path covers it with a non-zero rate |
| `ArbitrageSwap.LegRate` | structured-1400/Day004-VolTriggered-Arbitrage-Swap/pricing_model.py:227-230 | a leg stored directly reads its own path on that day; a leg read from the reverse path is its reciprocal |
| `ArbitrageSwap.FeeFactor` | structured-1400/Day004-VolTriggered-Arbitrage-Swap/pricing_model.py:235-236 | `1 − fee_per_trade` per leg with fees, 1 without |
| `ArbitrageSwap.PathFactor` | structured-1400/Day004-VolTriggered-Arbitrage-Swap/pricing_model.py:220-236 | the product of the first `n` leg rates of the day, each times the fee factor |
| `ArbitrageSwap.ArbitrageProfit` | structured-1400/Day004-VolTriggered-Arbitrage-Swap/pricing_model.py:219-239 | the profit is the product of the day's leg rates, times `1 − fee` per leg when fees are on, less 1 |
| `ArbitrageSwap.FeesPerLeg` | structured-1400/Day004-VolTriggered-Arbitrage-Swap/pricing_model.py:232-236 | with fees the factor is the fee-free factor times `(1 − fee)` to the number of legs |
| `ArbitrageSwap.ReturnTripPaysFees` | structured-1400/Day004-VolTriggered-Arbitrage-Swap/pricing_model.py:219-239 | out and straight back along one quoted pair, the rates cancel and only the two fees remain |
| `ArbitrageSwap.StepFlags` | structured-1400/Day004-VolTriggered-Arbitrage-Swap/pricing_model.py:290-296 | one day of the flag logic: trigger on the first profit above knock-in, then record the first exit day with profit below knock-out |
| `ArbitrageSwap.ScanFlags` | structured-1400/Day004-VolTriggered-Arbitrage-Swap/pricing_model.py:285-296 | the flags after the profits of days `0 .. n − 1`, one step each |
| `ArbitrageSwap.ScanFlagsSnoc` | structured-1400/Day004-VolTriggered-Arbitrage-Swap/pricing_model.py:285-296 | one more day of profit is one more step of the flag logic |
| `ArbitrageSwap.FlagsSticky` | structured-1400/Day004-VolTriggered-Arbitrage-Swap/pricing_model.py:290-296 | once set, the trigger and its day stay, and a set exit day stays |
| `ArbitrageSwap.FreshFlags` | structured-1400/Day004-VolTriggered-Arbitrage-Swap/pricing_model.py:285-296 | from the fresh state: triggered exactly when some profit exceeds knock-in, on the first such day; the exit day is the first day after the trigger with profit below knock-out, or −1 when there is none; both days stay −1 when not triggered |
| `ArbitrageSwap.DayProfit` | structured-1400/Day004-VolTriggered-Arbitrage-Swap/pricing_model.py:286 | the fee-bearing profit of one round of the loop on that day |
| `ArbitrageSwap.DailyProfits` | structured-1400/Day004-VolTriggered-Arbitrage-Swap/pricing_model.py:285-287 | one profit per day, each the fee-bearing profit of that day |
| `ArbitrageSwap.DayStep` | structured-1400/Day004-VolTriggered-Arbitrage-Swap/pricing_model.py:285-296 | one more day extends the profits by that day's profit and the flags by one step |
| `ArbitrageSwap.CoverLegs` | structured-1400/Day004-VolTriggered-Arbitrage-Swap/pricing_model.py:258-265 | the rate table after the first `n` legs: each leg with no path in either orientation gets its drawn path |
| `ArbitrageSwap.StartsAtSourceSpot` | structured-1400/Day004-VolTriggered-Arbitrage-Swap/pricing_model.py:138 | every drawn path starts at its pair's spot on the filled source table |
| `ArbitrageSwap.CoverLegsQuotes` | structured-1400/Day004-VolTriggered-Arbitrage-Swap/pricing_model.py:258-265 | after storing a path for each uncovered leg, every leg of the loop is quoted on every simulated day |
| `ArbitrageSwap.HoldingPeriod` | structured-1400/Day004-VolTriggered-Arbitrage-Swap/pricing_model.py:352 | exit day less trigger day after an exit; simulated days less trigger day while still triggered; 0 when never triggered |
| `ArbitrageSwap.HoldingPeriodBounds` | structured-1400/Day004-VolTriggered-Arbitrage-Swap/pricing_model.py:352 | for a fresh run the holding period lies in [0, days]; it is at least 1 for a run that exited and 0 for one that never triggered |
| `ArbitrageSwap.ArbitrageSimulation.constructor` | structured-1400/Day004-VolTriggered-Arbitrage-Swap/pricing_model.py:243-254 | the new simulation holds a closed currency loop, empty tables and profits, and fresh flags |
| `ArbitrageSwap.ThreeOthersBound` | structured-1400/Day004-VolTriggered-Arbitrage-Swap/pricing_model.py:66-77 | for three distinct non-USD currencies, USD→a→b→c on the filled table multiplies out to at least 6.45 · 0.72 · 0.72, and c→USD is 1 |
| `ArbitrageSwap.DefaultLoopFactor` | structured-1400/Day004-VolTriggered-Arbitrage-Swap/pricing_model.py:219-239 | quoting the filled table on day 0, the fee-bearing factor of USD→a→b→c→USD exceeds `1 + knock_in` |
| `ArbitrageSwap.DefaultLoopKnocksInOnDayZero` | structured-1400/Day004-VolTriggered-Arbitrage-Swap/pricing_model.py:256-296 | for the default loop of four legs from USD, with paths starting at their `get_rate` spot, every leg is quoted, day 0's profit exceeds knock-in, and a fresh run triggers on day 0 |
| `ArbitrageSwap.ArbitrageSimulation.Simulate` | structured-1400/Day004-VolTriggered-Arbitrage-Swap/pricing_model.py:256-296 | the legs are covered; the profits of days `0 .. days` are appended; the flags are those after those profits; a fresh run of the default four-leg loop from USD is triggered on day 0 |
| `ArbitrageSwap.ArbitrageSimulation.CoverRates` | structured-1400/Day004-VolTriggered-Arbitrage-Swap/pricing_model.py:257-265 | the first loop stores a drawn path for every leg with none in either orientation, touches nothing else, and leaves every leg quoted on every day |
| `ArbitrageSwap.ArbitrageSimulation.RunDays` | structured-1400/Day004-VolTriggered-Arbitrage-Swap/pricing_model.py:285-296 | the day loop appends the `days + 1` profits and runs the flags over them, leaving the rate table alone |
| `ArbitrageSwap.ArbitrageSimulation.RecordDay` | structured-1400/Day004-VolTriggered-Arbitrage-Swap/pricing_model.py:286-296 | one day appends its profit and takes one step of the flags |
| `ArbitrageSwap.ArbitrageSimulation.GetResults` | structured-1400/Day004-VolTriggered-Arbitrage-Swap/pricing_model.py:298-307 | the results echo the state; for non-empty profits, the largest profit is one of them and bounds all of them, and the final profit is the last one; 0 for both when there are none |
| `GammaNote.InBandIsDistance` | structured-1400/Day005-Gamma-Amplifier-Note/pricing_model.py:65-66 | the band is the set of prices within `delta` of `K`, empty for a negative `delta` |
| `GammaNote.GammaAmplifierNote.constructor` | structured-1400/Day005-Gamma-Amplifier-Note/pricing_model.py:36-66 | the fields are the arguments; `dt = T / total_steps`; the band ends are `K ∓ delta` |
| `GammaNote.GammaAmplifierNote.IsActivated` | structured-1400/Day005-Gamma-Amplifier-Note/pricing_model.py:97-107 | a price is active exactly when it lies within `delta` of `K`, ends included |
| `GammaNote.InBand` | structured-1400/Day005-Gamma-Amplifier-Note/pricing_model.py:107 | a price within the closed band `[K − delta, K + delta]` |
| `GammaNote.Activated` | structured-1400/Day005-Gamma-Amplifier-Note/pricing_model.py:142-151 | some step `t ≥ 1` lands in the band |
| `GammaNote.StepTerm` | structured-1400/Day005-Gamma-Amplifier-Note/pricing_model.py:143-159 | gamma at the step's price and time, times the amplification, times the squared relative change |
| `GammaNote.StepEarned` | structured-1400/Day005-Gamma-Amplifier-Note/pricing_model.py:148-159 | the step's term when its price is in the band, 0 otherwise |
| `GammaNote.GammaContribution` | structured-1400/Day005-Gamma-Amplifier-Note/pricing_model.py:142-159 | the sum of the earned terms of steps `1 .. n − 1` |
| `GammaNote.GanPayoff` | structured-1400/Day005-Gamma-Amplifier-Note/pricing_model.py:161-170 | `−cost_factor` for a path never in the band, the contribution less the cost factor otherwise |
| `GammaNote.GammaAmplifierNote.CalculateGanPayoff` | structured-1400/Day005-Gamma-Amplifier-Note/pricing_model.py:126-170 | the loop over steps `1 ..` with its sticky flag and running sum returns the payoff of the specification |
| `GammaNote.NoActiveStepNoContribution` | structured-1400/Day005-Gamma-Amplifier-Note/pricing_model.py:142-159 | without an in-band step nothing is contributed |
| `GammaNote.PayoffIsContributionLessCost` | structured-1400/Day005-Gamma-Amplifier-Note/pricing_model.py:161-168 | a never-activated path returns exactly `−cost_factor`, and every path returns its contribution less the cost |
| `GammaNote.ContributionNonNegative` | structured-1400/Day005-Gamma-Amplifier-Note/pricing_model.py:150-159 | with a non-negative gamma and amplification, the contribution is non-negative |
| `GammaNote.PayoffAtLeastMinusCost` | structured-1400/Day005-Gamma-Amplifier-Note/pricing_model.py:150-168 | then the note never loses more than its cost factor |
| `GammaNote.ContributionScalesWithAmplification` | structured-1400/Day005-Gamma-Amplifier-Note/pricing_model.py:159 | the contribution is the amplification factor times the unamplified contribution |
| `GammaNote.FirstPriceNotJudged` | structured-1400/Day005-Gamma-Amplifier-Note/pricing_model.py:142-151 | replacing `path[0]` never changes whether the payoff activates |
| `GammaNote.EverActivated` | structured-1400/Day005-Gamma-Amplifier-Note/pricing_model.py:253 | some price of the path, the first included, is in the band |
| `GammaNote.ActivatedImpliesEverActivated` | structured-1400/Day005-Gamma-Amplifier-Note/pricing_model.py:253 | the payoff's flag implies the backtest's `ever_activated` |
| `GammaNote.EverActivatedWithoutPayoff` | structured-1400/Day005-Gamma-Amplifier-Note/pricing_model.py:253 | the converse fails: 100, 120 around `K = 100` is ever activated, yet its payoff is only `−cost_factor` |
| `GammaNote.OneInBandStep` | structured-1400/Day005-Gamma-Amplifier-Note/pricing_model.py:150-159 | one in-band move from 100 to 102, with gamma 1 and factor 2.5, earns 0.001 |
| `GammaNote.StraddleTerminalValue` | structured-1400/Day005-Gamma-Amplifier-Note/pricing_model.py:184-195 | call plus put payoff is `|F − K|` and non-negative |
| `GammaNote.VanillaStraddleReturn` | structured-1400/Day005-Gamma-Amplifier-Note/pricing_model.py:183-198 | return × cost = value − cost; a positive cost loses at most 100%; the return is zero exactly at break-even |
| `GammaNote.PriceRange` | structured-1400/Day005-Gamma-Amplifier-Note/pricing_model.py:258-260 | the range is non-negative, bounds every difference of two prices, and is reached by two of them |
| `Common.SeqMax` | structured-1400/Day005-Gamma-Amplifier-Note/pricing_model.py:258 | `max` returns an element no smaller than any element |
| `GammaNote.AmplificationRatio` | structured-1400/Day005-Gamma-Amplifier-Note/pricing_model.py:267 | the ratio is missing (NaN) exactly when the vanilla return is 0; otherwise ratio × vanilla = gan |
| `GammaNote.BacktestRow` | structured-1400/Day005-Gamma-Amplifier-Note/pricing_model.py:243-277 | the row of one path: id, note and straddle returns, their ratio, `ever_activated`, final, maximum and minimum price, range, `S0`, `K` and `delta` |
| `GammaNote.BacktestRowFacts` | structured-1400/Day005-Gamma-Amplifier-Note/pricing_model.py:243-277 | in every row: min ≤ final ≤ max; range = max − min ≥ 0; the ratio is missing exactly at the straddle's break-even; a path never in the band returns `−cost_factor`; with a non-negative gamma the note never loses more than its cost |
| `GammaNote.GammaAmplifierNote.PathRow` | structured-1400/Day005-Gamma-Amplifier-Note/pricing_model.py:244-277 | the loop body records the row of the specification for the path |
| `GammaNote.GammaAmplifierNote.RunBacktest` | structured-1400/Day005-Gamma-Amplifier-Note/pricing_model.py:237-277 | one row per path, in order, each that path's row |

## Left out

- Random draws and path generation are not modelled; the increments, price paths and leg rate paths are inputs.
  - This covers `np.random`, the Euler and exponential GBM steps, `cumsum`/`exp` and `simulate_price_path`.
  - It also covers `simulate_rate_path` with its `tanh` intervention term and the GARCH variant built on the `arch` library.
  - The choice of the next currency in `generate_currency_path` is nondeterministic (`:|`), standing for the uniform draw.
- `calculate_gamma` is an arbitrary function parameter `(price, time) -> real`, because it is Black–Scholes floating-point numerics. Non-negativity is a hypothesis where it is needed.
- The straddle's initial cost is a parameter: the Black–Scholes call and put prices built on `norm.cdf` are not modelled.
- `price_gan` is not modelled: it is a Monte Carlo mean discounted with `exp`.
- The realised-volatility column of the backtest row (`np.std` of the relative changes) is not modelled, because it needs `sqrt`.
- `price_changes` in `calculate_gan_payoff` is not modelled: it is collected and never read.
- In `ArbitrageSimulation.simulate`, `forward_rates_dict` and `cip_basis_dict` are not modelled: they are written and never read by the flags or the results. The forward and basis formulas themselves are modelled as `ForwardRate` and `CipBasis`.
- Step counts `int(T / dt)` and `int(T · 365 · steps_per_day)` are taken as given naturals; the truncating float conversion is not modelled.
- Python's `round(score, 2)` in the credit score and the `:.2f`/`:.4f` formatting are not modelled.
- Concurrency, plotting, CSV output, logging, `tqdm` and directory creation are not modelled. This includes `run_simulations_in_parallel` with its process pool and `plot_profit_path`.
- The Day004 module-level driver is not part of this model: it refers to an undefined `track_sims`.
- The discounted linear blend in the Day002 `pricing_model.py` is not part of this model: it is only `exp` discounting over a plotted grid.
- Floating-point rounding, overflow, infinities and NaN are not modelled; prices are exact reals.
- Where the source fails on some input, the model requires the guard that excludes it and does not follow that path. The reason and the failure are given for each member below:
  - `AdaptiveMarginNote.EvaluatePath`: requires `S0 ≠ 0`. With a zero `S0` and at least one step, `S_T` is a numpy float, so the division at Day001 line 42 gives `nan` or `inf`. Then line 58 divides `min(prices)`, which is the integer `S0` itself, by `S0` and raises `ZeroDivisionError`.
  - `TickJumpModel.PricingModel.IsJumpTriggered`: requires `S0 ≠ 0` and `tick_threshold ≥ 2`. With a zero `S0`, numpy's division gives `inf` or `nan`. With a smaller threshold, `ticks[-2]` (Day003 line 34) raises `IndexError` once the scan runs.
  - `TickJumpModel.PricingModel.Simulate`: requires the guards of `IsJumpTriggered` and `M > 0`, because `triggered_count / self.M` (Day003 line 55) raises `ZeroDivisionError` for no paths.
  - `GammaNote.GammaAmplifierNote.constructor`: requires `total_steps > 0`, because `self.T / self.total_steps` (Day005 line 62) raises `ZeroDivisionError` otherwise.
  - `GammaNote.GammaAmplifierNote.CalculateGanPayoff`: requires a non-zero price before every in-band step. There numpy's division gives `inf` or `nan`.
  - `GammaNote.VanillaStraddleReturn`: requires a non-zero initial cost. There numpy's division gives `inf` or `nan`.
  - `ArbitrageRates.GetRate`: requires a non-zero reverse entry for a pair stored one way only, because `1.0 / initial_rates[...]` (Day004 line 95) raises `ZeroDivisionError` on a zero Python float.
  - `ArbitrageRates.ForwardRate`: requires both currencies in the interest table, because lines 101-102 raise `KeyError` otherwise. It also requires a non-zero denominator `1 + r_foreign · t` (line 106).
  - `ArbitrageRates.CipBasis`: requires both currencies in the interest table (`KeyError` at lines 111-112), a non-zero spot and a non-zero day count (`t` at line 115).
  - `ArbitrageSwap.ArbitrageProfit`: requires every leg to be quoted on the day. A leg with no path in either orientation raises `KeyError` at line 230, a day past the path raises `IndexError`, and a zero reverse rate raises `ZeroDivisionError` on day 0. The day-0 entry is the Python float `spot_rate` (lines 138 and 146). On later days the entries are numpy floats (line 159), so the same division gives `inf`.
- `ArbitrageRates.FillCrossRates` works on seeds of the source's shape only: a USD row with non-zero rates, with USD first in the list.
- `ArbitrageSwap.ArbitrageSimulation.Simulate` requires the drawn paths to cover every day with non-zero rates. This is what the reciprocal of a reverse leg needs, and what a path of exponentials gives. It also requires every drawn path to start at its pair's `get_rate` on the filled table, as `simulate_rate_path` does (Day004 line 138); the steps after day 0 are free.

## Findings

| source | as written | input that shows it | evidently intended | confidence | as-written member | corrected member |
|---|---|---|---|---|---|---|
| structured-1400/Day004-VolTriggered-Arbitrage-Swap/pricing_model.py:66-77 | base `X` is visited with quote USD before `(X, USD)` exists, so 1.0 is stored there; then `(X, Y)` becomes 1 · seed(USD, Y) | the source seed: JPY→USD is stored as 1 while USD→JPY is 110, and USD→JPY→CNY→USD multiplies out to 709.5 | the cross rate through USD, seed(USD, Y) / seed(USD, X), under which every triangle multiplies out to 1 | not executed | `ArbitrageRates.SourceFillBreaksTriangle` | `ArbitrageRates.IntendedCrossRateConsistent` |

`ArbitrageRates.FillCrossRates` models the loop as written. The defect reaches
the simulation: every drawn rate path starts at `get_rate` on the filled
table, so the filled values are every leg's day-0 rate. For the default loop
of four legs from USD, day 0's round multiplies out to the product of three
seed rates from USD, at least 6.45 · 0.72 · 0.72 ≈ 3.34. A fresh run
therefore knocks in on day 0, whatever the random steps
(`ArbitrageSwap.DefaultLoopKnocksInOnDayZero`).
