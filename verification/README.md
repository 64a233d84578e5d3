# A verified model of the sigmoid-DCA trading system

The system trades one asset against USDT.  A strategy step looks at a candle history and a
portfolio and emits at most one order and at most one release.  A backtest folds that step
over a bar series and reports equity, drawdown and a Modified Dietz return; a passive DCA
benchmark runs on the same bars; a genetic algorithm scores chromosomes by the difference
over four nested windows; and a live loop ticks running instances, dispatches orders to
agents and settles their reports.

The project has three parts.

* **Strategy and backtest** (`Data`, `Numeric`, `Calendar`, `Ema`, `MarketState`, `MacroEngine`,
  `MicroEngine`, `Lot`, `Strategy`, `Backtest`, `Dietz`, `Drawdown`, `GhostDca`, `Crucible`,
  `Fitness`, and the theorems in `StepFacts`, `DecisionTable`, `Safety`, `Execution`,
  `Benchmark`, `Accounting`, `Drain`, `OrderOfIntents`, `WarmUp`, `EmaRefinement`, `Monthly`,
  `MonthHigh`, `Alignment`, `Attribution`, `Scaling`, `Redenomination`, `Sigmoid`).
* **Evolution epoch** (`Genome`, `WorkerPool`, `EarlyStop`, `Epoch`).
* **Live tick and ledger** (`Ledger`, `Settlement`, `SellRounding`, `Lifecycle`, `LiveTick`).

Code that loops or updates is a method proved equal to a specification function; the
theorems are lemmas about those functions, over every bar series, every schedule of workers
and every order of transactions.

Conventions.  Prices, quantities and fitness are exact reals.  `Env` holds two functions of
the platform: the UTC month index of a second count (assumed never to go back, where the
order of months matters) and the logistic curve (assumed in (0,1), above one half exactly
above ratio one, and increasing; `Sigmoid` shows a curve that meets all three, which for whole
exponents is the real one).  `RunTo(env, cfg, n)` is the state of a backtest after n bars,
`Ready(env, cfg, i)` the state in which the strategy sees bar i, `Output(env, cfg, i)` what it
then decides.

Where the code and its comments disagree the model follows the code:

* a BUY shrinks the quantity by the fee and debits only quantity times price, so no fee is
  lost on it (internal/adapters/backtest/adapter.go:162-166); `Accounting` charges sales only;
* a release has no re-arm state: it fires on every active bar at or above the trigger
  (internal/quant/lot.go:17 against :33-37); `DecisionTable.WhenReleases`;
* the month high is the highest close of the bear bars of the month, not of the month
  (internal/strategies/sigmoid_dca/step.go:66-67); `MonthHigh.MonthHighOfRun`;
* warm-up is not for indicators only: a bull warm-up bar sees an unfunded portfolio as a
  return of -100% and latches the stop-loss (internal/adapters/backtest/adapter.go:35-36);
  `WarmUp.WarmUpEffect` says exactly when, and `WarmUp.BullWarmUpKillsGenes` that two of the
  three genes then have no effect;
* `MaxDrawdown` is documented to lie in [0, 1] (internal/quant/ghost_dca.go:105); it does
  exactly when the curve never goes below zero after having been positive
  (`Drawdown.FractionIff`), and it is the largest fall over all pairs of bars exactly when no
  fall below zero is deeper than every such fall from a running peak (`Drawdown.LargestDropIff`).
  For a curve that stays without a positive value once it has gone below zero, that is when
  its positive values are all the same (`Drawdown.LargestDropOnceBelowZero`).  The curve 1, -1
  breaks the first and keeps the second (`Drawdown.AboveOneYetLargest`); 1, 10, -1 breaks both
  (`Drawdown.NegativeCurveMissed`);
* tournament draws are with replacement, not distinct (internal/saas/ga/engine.go:358-365);
* a live tick deduplicates on the latest completed candle but takes the price of the forming
  one (internal/saas/instance/manager.go:168-209).

Four properties hold under an exact condition.

* The live system releases first and caps a release at the dead stack; the backtest goes
  through the list in order and refuses a release larger than the dead stack.  With orders
  filled on the same terms both give the same portfolio exactly when the step releases nothing
  or the release ratio is at most one (`OrderOfIntents.LiveAndBacktestAgree`; two steps with
  ratio two that differ are `OrderOfIntents.BareReleaseDiffers` and `BuyAndReleaseDiffer`).
* Every order a backtest bar emits is executed, except exactly a trade under the minimum lot,
  and a release of ratio above one that no buy of the bar makes room for
  (`Safety.OnlyLotMinRefuses`).
* A fully filled sell leaves the floating stack at releases plus buys less sells unless it
  liquidates a stack that eight decimals write larger than it is
  (`SellRounding.FullFillMatchesIff`, `SellRounding.TinyLiquidation`).
* A completed bar is folded into the persisted runtime state, and ordered for, at most once
  unless a tick that has persisted ends without recording it and leaves the instance able to
  tick again (`Lifecycle.FoldedAtMostOnce`, `Lifecycle.HazardReplays`).

## Model

| member | source | states |
|---|---|---|
| Numeric.RoundToUSDT | internal/quant/math.go:101-103 | A whole number of cents within half a cent of the value, halves away from zero |
| Numeric.ClipFloat64 | internal/quant/math.go:90-98 | The result is in the interval, and a value in it is returned as it is |
| Numeric.SnapBounds | internal/adapters/backtest/adapter.go:197-202 | Snapping gives a whole number of steps, toward zero by less than one step; without a step it changes nothing |
| Calendar.DayCountsAgree | internal/quant/ghost_dca.go:134-140 | The benchmark's day count equals the backtest's on ordered timestamps |
| Calendar.MonthOfMillis | internal/quant/ghost_dca.go:126-131 | Months are taken of whole seconds; a timestamp that is not positive has the empty key |
| Calendar.WholeDays | internal/quant/ghost_dca.go:134-140 | Days are counted whole, in either order of the timestamps |
| Data.ValueAndReturn | internal/quant/micro_engine.go:36-46 | Value is cash plus all three stacks at the price; the initial value times one plus the return is the value |
| Ema.ComputeEMA | internal/quant/math.go:10-21 | The loop over the series computes the seeded recursive average |
| Ema.EmaWithinRange | internal/quant/math.go:10-30 | The average stays between the bounds of the series |
| Ema.EmaPull | internal/quant/math.go:10-30 | Each element pulls the average 2 / (period + 1) of the way toward it, from the first one on |
| MarketState.ComputeSigma24h | internal/quant/market_state.go:84-107 | The running high/low scan computes (highest - lowest) / lowest of the last 24 bars, 0 when it cannot |
| MarketState.SigmaIff | internal/quant/market_state.go:84-107 | The range reaches 1.5% exactly when among the last 24 bars, whose lows are positive, some high is at least 1.015 times some low |
| MacroEngine.ContainsInt | internal/quant/macro_engine.go:111-118 | The search answers membership |
| MacroEngine.ScanTiers | internal/quant/macro_engine.go:74-98 | The tier loop returns the decision of the first tier that fires |
| MacroEngine.ComputeMacroDecision | internal/quant/macro_engine.go:41-99 | Monthly reset or running high, then the tier loop, equals the decision function |
| MacroEngine.FirstFiringTier | internal/quant/macro_engine.go:74-97 | The buying tier is the first in table order that fires; without one nothing is bought or marked |
| MacroEngine.SkippedTierIsTooSmall | internal/quant/macro_engine.go:63-97 | When a tier buys, every shallower one has fired this month or its order is under the minimum: the only way tiers fire out of order |
| MicroEngine.SellShare | internal/quant/micro_engine.go:79-84 | A sigmoid sell is positive exactly above one half and spans 0 to 5% of the floating stack |
| MicroEngine.SellShareIsEven | internal/quant/micro_engine.go:79-84 | The sold share rises evenly with the signal |
| Lot.ReleaseShare | internal/quant/lot.go:37-45 | The released quantity is positive exactly for a positive ratio and within the dead stack exactly for a ratio up to one |
| Lot.ReleaseMoves | internal/quant/lot.go:37-45 | A release moves the ratio of the dead stack to the floating stack and loses nothing |
| Sigmoid.AssumptionsAreConsistent | internal/quant/micro_engine.go:70-73 | A curve that is rational for whole exponents meets all assumed facts of the logistic curve |
| Sigmoid.WholeSensitivitySells | internal/quant/micro_engine.go:70-80 | For a whole sensitivity k the sold quantity is exactly floatStack / 20 * (P^k - E^k) / (P^k + E^k) |
| StepFacts.MacroLegal | internal/quant/macro_engine.go:81-97 | A macro order is a positive dead-stack BUY within the spendable cash |
| StepFacts.MicroLegal | internal/quant/micro_engine.go:32-95 | A micro order is a floating SELL within the stack: all of it when the stop-loss trips, at most 5% otherwise |
| StepFacts.StepLegal | internal/strategies/sigmoid_dca/step.go:32-92 | A step emits at most one trade then at most one release, both within the portfolio; the latch never clears and silences sells |
| StepFacts.StepShape | internal/strategies/sigmoid_dca/step.go:58-91 | At most one order, a macro dead-stack buy of whole cents or a micro floating sell, then at most one release |
| DecisionTable.WhenBuys | internal/quant/macro_engine.go:57-97 | A BUY is emitted exactly on an active bar not above a rising EMA, with cash, when one of three tiers is open: tier j needs a price (1 + j) / 2 drops under the month high, no firing this month and 10.1 USDT; the shallowest open one buys j times 5% of the cash in whole cents and is marked |
| DecisionTable.WhenMonthRolls | internal/quant/macro_engine.go:44-54 | The month, its high and its tiers change exactly on such bars: reset in a new month, else the running high |
| DecisionTable.WhenLatches | internal/quant/micro_engine.go:35-63 | The stop-loss latches exactly in an active rising market with a return under the threshold, and stays |
| DecisionTable.ActiveBar | internal/adapters/backtest/adapter.go:72-112 | In a run a bar is active exactly from the 24th on, by the highs and lows of the 24 bars up to it |
| DecisionTable.WhenSells | internal/strategies/sigmoid_dca/step.go:49-81 | A SELL is emitted exactly on an active rising bar before the latch with a floating stack; its quantity is the stack or the sigmoid share |
| DecisionTable.HigherCloseSellsMore | internal/quant/micro_engine.go:70-84 | Of two steps that sell by the sigmoid and differ in the last close, the higher close sells more, although it raises the average too |
| DecisionTable.WhenReleases | internal/strategies/sigmoid_dca/step.go:83-86 | A RELEASE of the ratio of the dead stack is emitted exactly on an active bar with a dead stack and a return at or above the trigger, with no re-arming |
| Backtest.ApplyIntent | internal/adapters/backtest/adapter.go:155-194 | Field-by-field execution of one intent equals guarded fill plus settlement |
| Backtest.BeginBar | internal/adapters/backtest/adapter.go:78-100 | Seeding on entry and injection at month boundaries equal their specification |
| Backtest.FinishBar | internal/adapters/backtest/adapter.go:113-122 | Trades and the value curve change only in the evaluation period at a positive close |
| Backtest.PlayBars | internal/adapters/backtest/adapter.go:72-123 | The bar loop with its growing series computes the fold over all bars |
| Backtest.RunBacktest | internal/adapters/backtest/adapter.go:44-151 | The whole run with its empty and unfunded cases equals the specified metrics |
| Execution.BuyPays | internal/adapters/backtest/adapter.go:157-172 | A BUY that fills pays its amount less the fee, down to the last whole lot, and gets its payment at the price in the named stack |
| Execution.BuyRefusedIff | internal/adapters/backtest/adapter.go:158-165 | A BUY is refused exactly outside the funds or with a net amount under the minimum lot |
| Execution.SellEarns | internal/adapters/backtest/adapter.go:173-182 | A SELL that fills gives up its quantity down to the last whole lot and earns it at the price less the fee |
| Execution.SellRefusedIff | internal/adapters/backtest/adapter.go:174-177 | A SELL is refused exactly under the minimum lot or beyond the floating stack |
| Dietz.ComputeRoi | internal/adapters/backtest/adapter.go:132-148 | The flow loop computes the sum of flows and the Modified Dietz return |
| Dietz.DenominatorPositive | internal/quant/ghost_dca.go:76-94 | Non-negative flows inside the period keep the capital base positive |
| Dietz.TimeAverage | internal/adapters/backtest/adapter.go:132-144 | The capital base is the time average of the capital at work: the start value and each flow from its day on |
| Safety.BuyCost | internal/adapters/backtest/adapter.go:158-166 | A BUY buys a non-negative quantity and never costs more than its amount |
| Safety.LegalTradeFills | internal/adapters/backtest/adapter.go:155-182 | A trade the strategy may emit is refused exactly when its snapped quantity is under the minimum lot |
| Safety.LegalReleaseFills | internal/adapters/backtest/adapter.go:184-191 | A release passes for a ratio up to one, and on an unchanged dead stack is refused exactly above one |
| Safety.StepKeepsSound | internal/adapters/backtest/adapter.go:155-194 | Executing any legal step output keeps the portfolio invariant |
| Safety.SealedUntouched | internal/adapters/backtest/adapter.go:155-194 | No intent list changes the sealed stack, the reserve or the initial value |
| Safety.RunSafe | internal/adapters/backtest/adapter.go:72-123 | On every run, before and after every bar: cash at least the smaller of capital and reserve, spendable exactly the excess over the reserve, stacks non-negative |
| Safety.ReleaseRefusedIff | internal/adapters/backtest/adapter.go:184-191 | After the step's trade, its release is refused exactly for a ratio above one that no buy makes room for |
| Safety.OnlyLotMinRefuses | internal/adapters/backtest/adapter.go:116-119 | On every evaluation bar a trade is refused exactly under the minimum lot, and a release exactly for a ratio above one that no buy makes room for |
| Safety.CurveNonNegative | internal/adapters/backtest/adapter.go:120-122 | With a non-negative reserve every recorded value is non-negative |
| Safety.RunDrawdownExact | internal/adapters/backtest/adapter.go:129-130 | Then the reported drawdown is the largest fall over all pairs of bars and lies in [0, 1] |
| Accounting.FillValue | internal/adapters/backtest/adapter.go:162-182 | A fill changes the value only by the fee of a sale, and BTC by exactly what it buys or sells |
| Accounting.BarAccount | internal/adapters/backtest/adapter.go:78-122 | One bar adds the injection and the seed, and loses the sale fee |
| Accounting.RunAccount | internal/adapters/backtest/adapter.go:72-123 | Value = capital + injections + sum of holding times price change - sale fees; BTC held = bought - sold |
| Accounting.FinalEquityAccount | internal/adapters/backtest/adapter.go:129-150 | The reported final equity is that sum |
| Drain.BarDrain | internal/adapters/backtest/adapter.go:103-119 | One bar keeps 95% of the floating stack unless the stop-loss trips, and the release remainder of the dead stack |
| Drain.RunDrain | internal/quant/micro_engine.go:35-94 | Over any stretch of a run the stacks decay at most geometrically, the latch stays, and after it the floating stack never falls |
| Drain.LiquidationExcludesRelease | internal/strategies/sigmoid_dca/step.go:75-86 | The tick that trips the stop-loss does not release, for a trigger at or above the threshold |
| OrderOfIntents.LiveReleaseIsLedger | internal/saas/instance/manager.go:378-413 | The capped release of the live order is the one the ledger performs on the portfolio row |
| OrderOfIntents.LiveSeesBacktestPortfolio | internal/saas/instance/manager.go:213-221 | The live system shows the strategy the portfolio the backtest would, spendable only beyond the reserve |
| OrderOfIntents.OrdersAgreeIff | internal/adapters/backtest/adapter.go:153-194 | For every legal trade and release, capped release then trade equals trade then guarded release exactly without a release or for a ratio up to one |
| OrderOfIntents.LiveAndBacktestAgree | internal/saas/instance/manager.go:251-275 | For every step output, the live execution equals the backtest exactly when it releases nothing or the ratio is at most one |
| OrderOfIntents.BareReleaseDiffers | internal/saas/instance/manager.go:388-391 | A step that emits just a release of ratio two: the backtest refuses it, the live side releases the whole dead stack |
| OrderOfIntents.BuyAndReleaseDiffer | internal/saas/instance/manager.go:251-275 | A step that buys and releases with ratio two: both sides carry it out, with different stacks |
| WarmUp.UnseededStep | internal/adapters/backtest/adapter.go:102-113 | A step on the unfunded portfolio emits nothing, fires no tier, and latches the stop-loss exactly on a bull bar |
| WarmUp.WarmUpEffect | internal/adapters/backtest/adapter.go:49-53 | After warm-up no tier has fired, and the stop-loss is set exactly when a warm-up bar from the 24th on was a bull bar |
| WarmUp.BullWarmUpSilencesSells | internal/quant/micro_engine.go:36-63 | Then no bar of the evaluation emits a SELL |
| WarmUp.BullWarmUpKillsGenes | internal/adapters/backtest/adapter.go:102-113 | Then the whole run and its result are the same for every sensitivity and every stop-loss threshold above -100% |
| EmaRefinement.StepIndicators | internal/strategies/sigmoid_dca/step.go:34-56 | No engine changes the indicators after the market state |
| EmaRefinement.KeptEmaIsBatch | internal/quant/market_state.go:40-52 | From the 24th bar on the kept EMA is the batch EMA of all closes, and the history is the last at most eleven batch values |
| EmaRefinement.KeptEmaSlopeAndRange | internal/quant/market_state.go:111-121 | The slope is EMA(t) - EMA(t-10), or over all bars since the 24th while there are fewer; the kept EMA stays within the closes |
| Monthly.StepTiers | internal/quant/macro_engine.go:44-97 | A step marks a new tier of the month exactly when it emits a BUY, whose amount is at most the tier's share plus half a cent |
| Monthly.TierOncePerMonth | internal/quant/macro_engine.go:44-48 | With ascending timestamps no tier fires twice in a month |
| Monthly.BarGuarantee | internal/adapters/backtest/adapter.go:157-167 | Whatever fires, the cash guaranteed to survive the month does not fall |
| Monthly.MonthGuarantee | internal/quant/macro_engine.go:74-97 | The same from any evaluation bar to any later bar of its month |
| Monthly.MonthlyDeployment | internal/quant/macro_engine.go:13-17 | From cash S at least 0.95 * 0.90 * 0.85 * S - 0.015 stays spendable within the month |
| MonthHigh.StepMonth | internal/strategies/sigmoid_dca/step.go:66-72 | Only a bear step moves the month and its high |
| MonthHigh.MonthHighOfRun | internal/quant/macro_engine.go:44-54 | In a run the month high is the highest close of the bear bars of the last bear bar's month |
| Drawdown.ComputeMaxDrawdown | internal/quant/ghost_dca.go:106-124 | The one-pass loop computes the recursive peak/drawdown function |
| Drawdown.LargestFromPeak | internal/quant/ghost_dca.go:110-123 | It is the largest fall from a running peak |
| Drawdown.LargestDropIff | internal/quant/ghost_dca.go:106-124 | It is the largest fall over all pairs of bars exactly when no fall below zero is deeper than every such fall from a running peak |
| Drawdown.MissedAfterTwoPositives | internal/quant/ghost_dca.go:110-123 | Two different positive values before the first bar below zero make it miss the largest fall |
| Drawdown.FoundAfterOnePositive | internal/quant/ghost_dca.go:110-123 | It finds it when the positive values before any bar below zero are all the same |
| Drawdown.LargestDropOnceBelowZero | internal/quant/ghost_dca.go:106-124 | For a curve without a positive value after its first bar below zero it finds it exactly then |
| Drawdown.FractionIff | internal/quant/ghost_dca.go:104-105 | It lies in [0, 1] exactly when the curve never goes below zero after having been positive |
| Drawdown.NonNegativeCurveExact | internal/quant/ghost_dca.go:104-105 | On a non-negative curve it is that largest fall and lies in [0, 1] |
| Drawdown.NegativeCurveMissed | internal/quant/ghost_dca.go:110-123 | A curve on which the one pass reports 1.1 and misses a fall of 2 |
| Drawdown.AboveOneYetLargest | internal/quant/ghost_dca.go:104-123 | A curve on which it reports 2, which is the largest fall |
| GhostDca.SimulateGhostDCA | internal/quant/ghost_dca.go:29-102 | The benchmark loop, including non-positive closes, equals its fold |
| Benchmark.BenchmarkCurve | internal/quant/ghost_dca.go:45-74 | One value a bar: the BTC at the close, or at the close before a close that is not positive, on which nothing is bought |
| Benchmark.BenchmarkReport | internal/quant/ghost_dca.go:76-101 | The benchmark reports its last value, all that was paid in, and the largest fall of its value, a fraction |
| Alignment.ComputeBarsFrom | internal/saas/ga/engine.go:406-413 | The search returns the bars from the first at or after the time |
| Alignment.ScoredBars | internal/adapters/backtest/adapter.go:78-87 | A bar is scored exactly from the first evaluation bar on, the bars the benchmark gets |
| Alignment.SameFlows | internal/quant/ghost_dca.go:53-72 | On market data backtest and benchmark have the same injections, days and month after every bar |
| Alignment.InjectionsOfRun | internal/adapters/backtest/adapter.go:89-99 | An injection is paid in exactly on the scored bars whose month is not that of the bar before, on its whole day of the period |
| Alignment.CurveOfRun | internal/adapters/backtest/adapter.go:115-122 | The value curve has one entry a scored bar: the value of the portfolio after it |
| Alignment.CapitalBaseIsTimeAverage | internal/adapters/backtest/adapter.go:132-148 | The capital base of a run is the time average of the initial capital and the injections at work |
| Alignment.NothingToReport | internal/adapters/backtest/adapter.go:45-47 | Without bars, capital or a scored bar nothing is reported |
| Alignment.BenchmarkAlignment | internal/saas/ga/sigmoid_dca_evolvable.go:148 | Both returns divide by one positive capital base, so alpha is the equity difference over it |
| Attribution.BenchmarkAccount | internal/quant/ghost_dca.go:45-74 | On positive closes the benchmark is worth, after every bar, what was paid in plus the price changes on what it held, and its value curve records that |
| Attribution.EquityGap | internal/saas/ga/engine.go:242-254 | Strategy and benchmark equity differ by the excess holding times each price change, less the sale fees |
| Attribution.AlphaAttribution | internal/saas/ga/sigmoid_dca_evolvable.go:148 | Alpha is that gap over the one positive capital base |
| Crucible.FindFirstIdx | internal/quant/crucible.go:41-48 | The search returns the first index at or after the time, or the length |
| Crucible.BuildCrucibleWindows | internal/quant/crucible.go:31-93 | The loop over the window specifications builds the specified windows |
| Crucible.CrucibleShape | internal/quant/crucible.go:55-92 | Exactly four windows, weights summing to 1, each a suffix of the next, the last the whole series |
| Crucible.CrucibleSchedule | internal/quant/crucible.go:54-74 | Windows of 183, 730 and 1825 days and of everything, at 10, 20, 30 and 40 percent |
| Crucible.WindowIsCut | internal/quant/crucible.go:82-90 | Every window holds exactly the bars from its warm-up span before the evaluation on |
| Crucible.WindowContents | internal/quant/crucible.go:76-90 | Warm-up bars lie within the warm-up span and every window has a bar to score |
| Crucible.WindowScoredBars | internal/saas/ga/engine.go:242-247 | In every window the scored bars are the benchmark's bars |
| Fitness.BuildPlan | internal/saas/ga/engine.go:237-264 | The plan pairs every window with the benchmark on its evaluation bars |
| Fitness.PlanContents | internal/saas/ga/engine.go:236-263 | Every window has up to 1200 days of warm-up and the benchmark of its evaluation bars |
| Fitness.Evaluate | internal/saas/ga/sigmoid_dca_evolvable.go:112-164 | The window loop with cancellation and fatal short-circuit equals its specification |
| Fitness.EvaluationMeans | internal/saas/ga/sigmoid_dca_evolvable.go:112-164 | Every result is the window's own run at a fee of 0.1% against its benchmark: alpha less 1.5 times the excess drawdown; the total is their weighted sum, or -99999 after the first drawdown of 88% or a cancellation |
| Fitness.DeeperNeverScoresHigher | internal/saas/ga/sigmoid_dca_evolvable.go:149-151 | With the same return a deeper drawdown never scores higher, and lower beyond the benchmark's |
| Fitness.SurvivorScore | internal/saas/ga/sigmoid_dca_evolvable.go:148-163 | Without a fatal window the score is the weighted sum over all windows |
| Fitness.FatalScore | internal/saas/ga/sigmoid_dca_evolvable.go:136-146 | The first window at 88% drawdown gives the fatal score and ends the results |
| Fitness.PlanAlpha | internal/saas/ga/sigmoid_dca_evolvable.go:143-158 | In every window of a plan over market data the scored alpha is the equity difference over one capital base |
| Scaling.StepScaled | internal/strategies/sigmoid_dca/step.go:32-92 | A step commutes with a change of the asset's unit |
| Redenomination.RunScaled | internal/adapters/backtest/adapter.go:72-123 | After every bar of the rescaled run: stacks scaled by 1/c, EMA and month high by c, cash, flows and curve unchanged |
| Redenomination.BacktestUnitFree | internal/adapters/backtest/adapter.go:44-151 | Prices times c and lots over c leave equity, drawdown and return unchanged |
| Redenomination.GhostUnitFree | internal/quant/ghost_dca.go:29-102 | So for the benchmark |
| Redenomination.FitnessUnitFree | internal/saas/ga/sigmoid_dca_evolvable.go:112-164 | So for the fitness of every chromosome and its per-window detail |
| Genome.Clamped | internal/quant/genome.go:48-53 | The result is within the hard bounds, and a legal chromosome is unchanged |
| Genome.HardBounds | internal/quant/genome.go:20-53 | The hard bounds and the default seed |
| Genome.ChromosomeCell.Clamp | internal/quant/genome.go:48-53 | Clamping in place |
| Genome.DecodeElite | internal/saas/ga/sigmoid_dca_evolvable.go:175-185 | A legal chromosome, the default seed when unreadable |
| Genome.Sample | internal/saas/ga/sigmoid_dca_evolvable.go:40-49 | Three uniform draws scaled into the bounds |
| Genome.SampleSpread | internal/saas/ga/sigmoid_dca_evolvable.go:40-49 | Draws of the unit interval are spread evenly over the bounds |
| Genome.Mutate | internal/saas/ga/sigmoid_dca_evolvable.go:61-74 | Gated noise per field from the draw stream, then clamping; legal, and unchanged when no gate opens |
| Genome.MutationSteps | internal/saas/ga/sigmoid_dca_evolvable.go:61-74 | An open gate adds normal noise of 0.01, 0.5 and 0.01 times the scale, cut off at the bounds; a closed gate changes nothing |
| Genome.Crossover | internal/saas/ga/sigmoid_dca_evolvable.go:78-92 | Each field of the child of legal parents is the drawn parent's |
| Genome.ParentOfField | internal/saas/ga/sigmoid_dca_evolvable.go:78-92 | A draw under one half takes the second parent's field |
| WorkerPool.MoveInv | internal/saas/ga/engine.go:340-352 | Every atomic worker action keeps: indices held once, written at most once, every cached or pending score an evaluation of a gene with that fingerprint |
| WorkerPool.MoveProgress | internal/saas/ga/engine.go:338-354 | Every action of an unfinished worker uses up a bounded number of actions, so every schedule ends |
| WorkerPool.Run | internal/saas/ga/engine.go:338-354 | The invariant holds after every schedule |
| WorkerPool.EveryInterleaving | internal/saas/ga/engine.go:314-356 | In every finished interleaving each index was written exactly once, with an evaluation result of a member with the same fingerprint |
| WorkerPool.SequentialResult | internal/saas/ga/engine.go:311-313 | If evaluation depends on the fingerprint only, the scores are the sequential map |
| WorkerPool.EachWorkerEvaluatesOnce | internal/saas/ga/engine.go:340-352 | In every interleaving no worker evaluates a fingerprint twice; a single worker evaluates each at most once |
| WorkerPool.EvaluatePopulation | internal/saas/ga/engine.go:314-356 | Under an arbitrary scheduler the pool terminates in a finished state with the invariant |
| EarlyStop.Amortised | internal/saas/ga/engine.go:130-142 | Observations that do not ramp number at most five per reset plus four |
| EarlyStop.EarlyStopBound | internal/saas/ga/engine.go:130-154 | With the default hyperparameters at most 10 + 5r generations, r the patience resets |
| EarlyStop.StagnationStopsAtTen | internal/saas/ga/engine.go:148-154 | Without improvement the tenth generation stops and no earlier one does: the bound is reached |
| EarlyStop.ResetsRaiseBest | internal/saas/ga/engine.go:131-136 | Each reset raises the best on record by at least 0.001 |
| EarlyStop.SmallestImprovement | internal/saas/ga/engine.go:131-136 | A rise of 0.001 resets the patience, anything less adds to it |
| EarlyStop.RampsGrow | internal/saas/ga/engine.go:138-142 | The mutation ramps never decrease and never pass their caps |
| Epoch.InitPopulation | internal/saas/ga/engine.go:270-309 | Exactly popSize legal genes: the seed, the elite copies round robin, the mutations of elites, then random genes |
| Epoch.InitialShares | internal/saas/ga/engine.go:287-307 | A tenth of the places behind the seed are copies, four tenths mutants |
| Epoch.InitialGenes | internal/saas/ga/engine.go:280-296 | The seed is the best stored gene, the copies are the stored genes in turn |
| Epoch.MutantSteps | internal/saas/ga/engine.go:297-301 | The initial mutants' gates open below 0.15, for noise of scale 1.5 |
| Epoch.SortByFitness | internal/saas/ga/engine.go:383-387 | A descending permutation, in place |
| Epoch.TournamentSelect | internal/saas/ga/engine.go:361-371 | The gene of the fittest of the draws with replacement |
| Epoch.ParentsBeatTheirDraws | internal/saas/ga/engine.go:361-371 | Each parent is at least as fit as all the draws of its tournament |
| Epoch.Rank | internal/saas/ga/engine.go:374-380 | Concurrent scoring and sorting give every gene its own fitness, best first |
| Epoch.NextPopulation | internal/saas/ga/engine.go:157-175 | popSize legal genes: the elites first and unchanged, then mutated crossovers of two tournament winners, each on its own draws |
| Epoch.OffspringWithoutMutation | internal/saas/ga/engine.go:168-175 | When no mutation gate opens, an offspring takes each field from one of its parents |
| Epoch.ElitesKeepBest | internal/saas/ga/engine.go:159-166 | With at least one elite the best of a population never exceeds the best of its successor |
| Epoch.NextGeneration | internal/saas/ga/engine.go:156-179 | The next population is bred from the ranked present one, and with at least one elite its best is no worse |
| Epoch.RunEpoch | internal/saas/ga/engine.go:83-225 | Every population is bred from the one before it at the ramps its predecessors lead to, every reported best is the maximum of its population, the epoch ends at the limit or the first stop, and the stored gene is the best of the last population |
| Epoch.BestNeverDrops | internal/saas/ga/engine.go:159-166 | So with at least one elite the best fitness never drops between any two generations |
| Epoch.StoredScoreIsMaximum | internal/saas/ga/engine.go:205-219 | And the stored score is the maximum over every individual ever evaluated, including the seed |
| Epoch.GenerationOf | internal/saas/ga/engine.go:156-181 | Every later population: the best of the one before, then offspring of it at the ramps so far |
| Epoch.DefaultEpochBound | internal/saas/ga/engine.go:57-73 | An epoch with default hyperparameters runs at most 10 + 5r generations, where 0.001 r is at most the rise from the best of the initial population to the stored score |
| Epoch.DefaultEpochShape | internal/saas/ga/engine.go:57-73 | Default epochs: populations of 300, at most 25 generations, the best eight kept, tournaments of three |
| Ledger.Store.LoadOrCreatePortfolio | internal/saas/instance/manager.go:291-305 | A missing row is created empty, an existing one is returned untouched |
| Ledger.Store.HandleRelease | internal/saas/instance/manager.go:378-413 | A capped move from dead to floating stack with its journal row |
| Ledger.ReleaseIsJournalled | internal/saas/instance/manager.go:378-406 | A release is journalled with what it moved |
| Ledger.Store.DispatchCommand | internal/saas/instance/manager.go:419-434 | A new order id gets a pending order with its command; an order that exists is never overwritten |
| Ledger.Store.UpdateBalances | internal/saas/ws/portfolio.go:151-185 | The reported cash goes to every live instance of the user and nowhere else |
| Ledger.ReportedCash | internal/saas/ws/portfolio.go:151-185 | The first USDT entry, or nothing, becomes the cash of exactly the rows of the user's instances that are not deleted |
| Ledger.CashIsSynced | internal/saas/ws/portfolio.go:45-66 | Every report that is not rolled back brings its cash; an empty balance list changes nothing |
| Ledger.Store.ProcessDeltaReport | internal/saas/ws/portfolio.go:35-146 | One report as one transaction: snapshot, repeat, settlement or roll-back |
| Settlement.StepOrdersAreDispatchable | internal/saas/instance/manager.go:260-275 | A step hands the ledger at most one order, naming its intent's side, engine and stack: a macro dead-stack buy of its exact amount, or a micro floating sell of its quantity to half of the eighth decimal |
| Settlement.SettledOrder | internal/saas/ws/portfolio.go:83-122 | A fill of a dead-stack buy goes to the dead stack, a fill of a floating sell comes out of the floating stack, and the trade says what was reported |
| Settlement.IntentToStack | internal/saas/instance/manager.go:447-463 | From a step's intent, through dispatch and any later transactions, to its fill: exactly the meant stack moves |
| Settlement.NextConsistent | internal/saas/ws/portfolio.go:42-145 | Every transaction keeps the tables consistent |
| Settlement.SettlementExactlyOnce | internal/saas/ws/portfolio.go:42-145 | For any order of transactions: trades, journal fills and filled orders match one to one and name the order's instance, side and stack; stacks non-negative; dead stack = dead buys - releases |
| Settlement.FloatAccount | internal/saas/ws/portfolio.go:91-96 | Floating stack = releases + floating buys - sells + what sells asked for beyond the stack |
| Settlement.FloatMatchesIff | internal/saas/ws/portfolio.go:91-96 | It is releases + buys - sells exactly when no sell fill exceeded the stack |
| SellRounding.WrittenSellFitsIff | internal/saas/instance/manager.go:447-463 | The written quantity of a step's sell is within the floating stack for every sigmoid sell, and for a liquidation exactly when the stack itself is written down |
| SellRounding.FullFillMatchesIff | internal/saas/ws/portfolio.go:91-96 | So a full fill of such a sell keeps the floating stack at releases + buys - sells exactly unless it liquidates a stack that is written up |
| SellRounding.TinyLiquidation | internal/saas/instance/manager.go:447-463 | A step that liquidates 0.000000006 and orders 0.00000001 |
| Settlement.FilledStays | internal/saas/ws/portfolio.go:56-61 | A filled order stays filled through every later transaction |
| Settlement.DuplicateReportIsHarmless | internal/saas/ws/portfolio.go:56-61 | A report that settled its order, repeated after any later transactions, changes nothing but cash |
| Settlement.RepeatAtOnceIsHarmless | internal/saas/ws/portfolio.go:42-145 | Any report repeated straight away, settled or rolled back, changes nothing but cash |
| Lifecycle.StatusRules | internal/saas/instance/manager.go:86-137 | DELETED is absorbing and ERROR leads only to DELETED |
| Lifecycle.StatusTable | internal/saas/instance/manager.go:86-137 | Exactly which events change the status, and to what |
| Lifecycle.CompletedTicksAdvance | internal/saas/instance/manager.go:277-284 | Only a completed tick moves the last-processed time, and strictly forward |
| Lifecycle.RunInStep | internal/saas/instance/manager.go:147-285 | Without a hazard a live instance between ticks has recorded its last fold |
| Lifecycle.FoldedAtMostOnce | internal/saas/instance/manager.go:246-284 | Without a hazard each completed bar is folded at most once, and at most one order is dispatched for it, both in time order |
| Lifecycle.HazardReplays | internal/saas/instance/manager.go:127-137 | After the first hazard the next tick on the same bar folds it twice, and an order of that tick is a second one for a bar already ordered for |
| LiveTick.TickOutcomeIsRun | internal/saas/instance/manager.go:147-285 | The tick under every combination of faults is a run of the protocol |
| LiveTick.FormingCandle | internal/saas/instance/manager.go:168-232 | A tick works on the latest completed candle and shows the strategy all candles, so the price of the forming one |
| LiveTick.OrderNames | internal/saas/instance/manager.go:447-451 | Orders are named by instance, engine and clock |
| LiveTick.LandedIntents | internal/saas/instance/manager.go:254-275 | Each intent that lands is one transaction: a release of its quantity or an order with its command |
| LiveTick.TickOrder | internal/saas/instance/manager.go:246-284 | Row, releases, orders, and the ERROR of a tick that could not record its bar, in this order |
| LiveTick.TickIsWellFormed | internal/saas/instance/manager.go:251-275 | Every transaction of a tick is one the settlement theorems cover, and none is a report |
| LiveTick.TickKeepsLedger | internal/saas/instance/manager.go:251-275 | After any history of ticks and reports, a tick keeps exactly-once settlement, the dead-stack equation, and the floating-stack equation with the overdraw of the history |
| LiveTick.Manager.StartInstance | internal/saas/instance/manager.go:87-99 | STOPPED to RUNNING, or an error |
| LiveTick.Manager.StopInstance | internal/saas/instance/manager.go:102-114 | RUNNING to STOPPED, or an error |
| LiveTick.Manager.DeleteInstance | internal/saas/instance/manager.go:117-125 | To DELETED from any status |
| LiveTick.Manager.MarkFailed | internal/saas/instance/manager.go:128-137 | RUNNING to ERROR if the write lands |
| LiveTick.Manager.Pick | internal/saas/cron/scheduler.go:71-93 | The scan launches a tick exactly for a RUNNING instance |
| LiveTick.Manager.Execute | internal/saas/instance/manager.go:251-275 | The releases, then the orders of a step reach the ledger; at most one order row is written |
| LiveTick.Manager.Tick | internal/saas/instance/manager.go:147-285 | The tick under faults at every step, as protocol events and as ledger transactions: it persists the runtime of one step on the fetched bars, writes at most one order and only then, and with nothing to work on leaves every table as it was |
| LiveTick.Manager.ScanOne | internal/saas/cron/scheduler.go:71-99 | One scan of an instance: when RUNNING, a whole tick with its events, transactions and runtime state; nothing otherwise |

## Left out

- Numeric.RoundToUSDT: exact reals; IEEE rounding, NaN, infinities and 64-bit overflow of timestamps and `int64(qty/step)` are not modelled anywhere.
- MarketState.ComputeSigma24h: the extremes start from the first bar of the window instead of the largest and smallest float, which differ only for infinite data.
- Epoch.RunEpoch: cancellation of an epoch, the progress callback, and the re-evaluation that fills the stored per-window detail are not modelled; the population lists are sequences, ranked individuals an array.
- Epoch.SortByFitness: the library's unstable order of equals is left open by the contract; the body is a selection sort.
- Genome.Mutate: the distribution of the draws is not modelled; the streams are arbitrary.
- WorkerPool.EvaluatePopulation: one map or score access is one atomic action; the Go memory model is not modelled.
- Settlement.SettlementExactlyOnce: transactions are atomic and serial; the constraints and isolation levels of the database are not modelled.
- LiveTick.Manager.Tick: its uninterrupted form only; interference is in the protocol of `Lifecycle.Next` and in the histories of `Settlement.After`.  Recovery from a corrupt runtime payload and champion lookup in cache and database are outcomes given from outside.
- OrderOfIntents.LiveAndBacktestAgree: live orders are filled by the exchange; the comparison takes fills on the backtest's terms, and the text form of a command is in `Settlement.StepOrdersAreDispatchable`.
- Ledger.Store.DispatchCommand: the send to the agent's socket, which may fail without a trace in the tables; a lost order is one whose report never comes.
- Lifecycle.StatusRules: ticks of one instance never overlap because a scan waits for all its ticks; that wait is the guard of `Pick`, the timer loop itself is not modelled.
- Strings are datatypes: actions, lot types, regimes, labels and order ids; unknown actions and lot types are kept as extra constructors.
- Month arithmetic of the calendar, the fingerprint hash and JSON encoding: functions or options supplied from outside.
- Exchange client, signing, candle fetching, agent sockets, hub, heartbeats, authentication, configuration, logging: foreign calls; bars, fills and reports are arbitrary inputs.
- Champion cache, promotion, evolution HTTP handlers and epoch service locking: short state updates that would add only easy members.
- `StdDev` and `MAVAbsChange`: not used by the strategy.
- The failed status of an order: nothing in the modelled files sets it.
