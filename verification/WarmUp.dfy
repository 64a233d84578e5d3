/** What the warm-up bars do to the run: no order, but possibly a stop-loss latch. */
module WarmUp {
  import opened Data
  import opened MarketState
  import opened MacroEngine
  import opened MicroEngine
  import opened Strategy
  import opened Backtest
  import opened StepFacts
  import opened Safety
  import opened Drain

  function RegimeOf(input: StrategyInput): Regime
    requires |input.closes| > 0
  {
    ComputeMarketState(input.closes, input.highs, input.lows, input.closes[|input.closes| - 1], input.runtime).0
  }

  /** The market regime that the strategy sees at bar i. */
  function RegimeAt(env: Env, cfg: Config, i: nat): Regime
    requires i < |cfg.bars|
  {
    RegimeOf(InputAt(cfg, i, Ready(env, cfg, i)))
  }

  /** The portfolio before the evaluation period: the capital is known, the cash is not there yet. */
  ghost predicate Unseeded(p: PortfolioState) {
    && p.totalUSDT == p.spendableUSDT == p.deadStack == p.floatStack == p.coldSealedStack == 0.0
    && p.navInitial > 0.0
  }

  lemma UnseededMacro(price: real, p: PortfolioState, c: Chromosome, rt: RuntimeState, month: MonthKey)
    requires Unseeded(p) && rt.triggeredTiers == []
    ensures var d := MacroDecision(price, p, c, rt, month);
      d.intent == None && d.rt.triggeredTiers == [] && d.rt.stopLossHit == rt.stopLossHit
  {}

  lemma UnseededMicro(env: Env, price: real, ema200: real, p: PortfolioState, c: Chromosome, rt: RuntimeState)
    requires Unseeded(p) && rt.triggeredTiers == []
    ensures var d := ComputeMicroDecision(env, price, ema200, p, c, rt);
      && d.intent == None && d.rt.triggeredTiers == []
      && d.rt.stopLossHit == (rt.stopLossHit || -1.0 < c.stopLossThreshold)
  {}

  /** A step on the unseeded portfolio: no intent, no tier; a bull bar latches the stop-loss. */
  lemma UnseededStep(env: Env, input: StrategyInput)
    requires Unseeded(input.portfolio) && input.runtime.triggeredTiers == [] && |input.closes| > 0
    ensures var out := Step(env, input);
      && out.intents == [] && out.runtime.triggeredTiers == []
      && (out.runtime.stopLossHit <==>
            || input.runtime.stopLossHit
            || (&& |input.closes| >= MIN_BARS_REQUIRED && RegimeOf(input) == BULL
                && input.params.stopLossThreshold > -1.0))
  {
    hide Sigma24h, NextEma, PushHistory, MacroDecision, ComputeMicroDecision, MonthOfInput;
    var price := input.closes[|input.closes| - 1];
    var (regime, rt) := ComputeMarketState(input.closes, input.highs, input.lows, price, input.runtime);
    hide Classify;
    if |input.closes| >= MIN_BARS_REQUIRED && regime == BEAR {
      UnseededMacro(price, input.portfolio, input.params, rt, MonthOfInput(env, input));
    } else if |input.closes| >= MIN_BARS_REQUIRED && regime == BULL {
      UnseededMicro(env, price, rt.ema200, input.portfolio, input.params, rt);
    }
  }

  ghost predicate NoOrderBefore(env: Env, cfg: Config, n: nat)
    requires n <= |cfg.bars|
  {
    forall i :: 0 <= i < n ==> Output(env, cfg, i).intents == []
  }

  lemma {:induction false} WarmPortfolio(env: Env, cfg: Config, i: nat)
    requires cfg.spawn.initialCapital > 0.0 && i < |cfg.bars|
    requires !RunTo(env, cfg, i + 1).inEval
    ensures Unseeded(Ready(env, cfg, i).portfolio)
    ensures !RunTo(env, cfg, i).inEval && Ready(env, cfg, i).runtime == RunTo(env, cfg, i).runtime
    ensures i == 0 ==> RunTo(env, cfg, 0).runtime == FRESH_RUNTIME
  {
    hide Step, ExecuteAll;
    FoldBar(env, cfg, i);
    if i == 0 {
    } else {
      WarmPortfolio(env, cfg, i - 1);
      FoldBar(env, cfg, i - 1);
    }
  }

  /** The warm-up of a run: it emits nothing and fires no tier, and it leaves the stop-loss
      set exactly when one of its bars, from the 24th on, was a bull bar (for any threshold
      above -100%). */
  lemma {:induction false} WarmUpEffect(env: Env, cfg: Config, n: nat)
    requires cfg.spawn.initialCapital > 0.0 && 0 < n <= |cfg.bars|
    requires !RunTo(env, cfg, n).inEval
    ensures NoOrderBefore(env, cfg, n)
    ensures RunTo(env, cfg, n).runtime.triggeredTiers == []
    ensures RunTo(env, cfg, n).runtime.stopLossHit <==>
            (&& cfg.chromosome.stopLossThreshold > -1.0
             && exists i :: MIN_BARS_REQUIRED - 1 <= i < n && RegimeAt(env, cfg, i) == BULL)
  {
    hide Step, RegimeOf, Unseeded, ExecuteAll;
    var i := n - 1;
    FoldBar(env, cfg, i);
    var ready := Ready(env, cfg, i);
    assert !RunTo(env, cfg, i).inEval && !ready.inEval;
    if i == 0 {
    } else {
      WarmUpEffect(env, cfg, i);
    }
    WarmPortfolio(env, cfg, i);
    hide RunTo, Ready, Apply, Opened;
    UnseededStep(env, InputAt(cfg, i, ready));
    assert RegimeAt(env, cfg, i) == RegimeOf(InputAt(cfg, i, ready));
  }

  lemma ReadyRuntime(env: Env, cfg: Config, j: nat)
    requires j < |cfg.bars|
    ensures Ready(env, cfg, j).runtime == RunTo(env, cfg, j).runtime
  {
    hide Step;
  }

  /** After a bull bar in warm-up the whole evaluation sells nothing. */
  lemma BullWarmUpSilencesSells(env: Env, cfg: Config, n: nat, i: nat, j: nat)
    requires Logistic(env) && ValidFee(cfg.takerFee)
    requires cfg.spawn.initialCapital > 0.0 && cfg.chromosome.stopLossThreshold > -1.0
    requires 0 < n <= |cfg.bars| && !RunTo(env, cfg, n).inEval
    requires MIN_BARS_REQUIRED - 1 <= i < n && RegimeAt(env, cfg, i) == BULL
    requires n <= j < |cfg.bars|
    ensures forall x :: x in Output(env, cfg, j).intents ==> x.action != SELL
  {
    hide RunTo, RegimeAt, Step;
    WarmUpEffect(env, cfg, n);
    RunDrain(env, cfg, n, j);
    FoldBar(env, cfg, j);
    StepLegal(env, InputAt(cfg, j, Ready(env, cfg, j)));
    ReadyRuntime(env, cfg, j);
  }

  // ----- the genes that a bull warm-up bar switches off

  /** The same run with another chromosome. */
  function WithGenes(cfg: Config, c: Chromosome): Config {
    cfg.(chromosome := c)
  }

  lemma MacroReadsOneGene(
    price: real, p: PortfolioState, c: Chromosome, c': Chromosome, rt: RuntimeState, month: MonthKey)
    requires c.dcaDropPct == c'.dcaDropPct
    ensures MacroDecision(price, p, c, rt, month) == MacroDecision(price, p, c', rt, month)
    ensures MacroDecision(price, p, c, rt, month).rt.stopLossHit == rt.stopLossHit
  {
    MacroKeepsLatch(price, p, c, rt, month);
  }

  lemma UnseededRoi(p: PortfolioState, price: real)
    requires Unseeded(p)
    ensures p.Roi(price) == -1.0
  {}

  /** After the latch, or on an unfunded portfolio, the micro engine reads no gene. */
  lemma MicroReadsNoGene(
    env: Env, price: real, ema200: real, p: PortfolioState, c: Chromosome, c': Chromosome, rt: RuntimeState)
    requires rt.stopLossHit || (Unseeded(p) && c.stopLossThreshold > -1.0 && c'.stopLossThreshold > -1.0)
    ensures ComputeMicroDecision(env, price, ema200, p, c, rt) == ComputeMicroDecision(env, price, ema200, p, c', rt)
    ensures rt.stopLossHit ==> ComputeMicroDecision(env, price, ema200, p, c, rt).rt.stopLossHit
  {
    if Unseeded(p) {
      UnseededRoi(p, price);
    }
    hide PortfolioState.Roi, Signal, SellQty;
  }

  lemma MonthReadsNoGene(env: Env, input: StrategyInput, c: Chromosome)
    ensures MonthOfInput(env, input.(params := c)) == MonthOfInput(env, input)
  {}

  lemma StepReadsOneGene(env: Env, input: StrategyInput, c: Chromosome)
    requires c.dcaDropPct == input.params.dcaDropPct
    requires || input.runtime.stopLossHit
             || (Unseeded(input.portfolio) && c.stopLossThreshold > -1.0 && input.params.stopLossThreshold > -1.0)
    ensures Step(env, input.(params := c)) == Step(env, input)
    ensures input.runtime.stopLossHit ==> Step(env, input).runtime.stopLossHit
  {
    hide Sigma24h, NextEma, PushHistory, Classify, MacroDecision, ComputeMicroDecision, MonthOfInput, Unseeded;
    if |input.closes| >= MIN_BARS_REQUIRED {
      var price := input.closes[|input.closes| - 1];
      var (_, rt) := ComputeMarketState(input.closes, input.highs, input.lows, price, input.runtime);
      assert MonthOfInput(env, input.(params := c)) == MonthOfInput(env, input) by {
        MonthReadsNoGene(env, input, c);
      }
      MacroReadsOneGene(price, input.portfolio, c, input.params, rt, MonthOfInput(env, input));
      MacroReadsOneGene(price, input.portfolio, input.params, c, rt, MonthOfInput(env, input));
      MicroReadsNoGene(env, price, rt.ema200, input.portfolio, input.params, c, rt);
    }
  }

  lemma {:induction false} StillWarm(env: Env, cfg: Config, m: nat, n: nat)
    requires cfg.spawn.initialCapital > 0.0 && m <= n <= |cfg.bars| && !RunTo(env, cfg, n).inEval
    ensures !RunTo(env, cfg, m).inEval
  {
    hide RunTo, Ready;
    if m == n {
    } else {
      WarmPortfolio(env, cfg, n - 1);
      StillWarm(env, cfg, m, n - 1);
    }
  }

  /** One bar of two runs that differ in the switched-off genes only. */
  lemma BarReadsOneGene(env: Env, cfg: Config, c: Chromosome, i: nat)
    requires i < |cfg.bars| && RunTo(env, WithGenes(cfg, c), i) == RunTo(env, cfg, i)
    requires c.dcaDropPct == cfg.chromosome.dcaDropPct
    requires || RunTo(env, cfg, i).runtime.stopLossHit
             || (&& Unseeded(Ready(env, cfg, i).portfolio)
                 && c.stopLossThreshold > -1.0 && cfg.chromosome.stopLossThreshold > -1.0)
    ensures RunTo(env, WithGenes(cfg, c), i + 1) == RunTo(env, cfg, i + 1)
    ensures RunTo(env, cfg, i).runtime.stopLossHit ==> RunTo(env, cfg, i + 1).runtime.stopLossHit
  {
    hide Step, Unseeded, RunTo, Ready, Output, ExecuteAll;
    FoldBar(env, cfg, i);
    FoldBar(env, WithGenes(cfg, c), i);
    ReadyRuntime(env, cfg, i);
    assert Ready(env, WithGenes(cfg, c), i) == Ready(env, cfg, i);
    var input := InputAt(cfg, i, Ready(env, cfg, i));
    assert InputAt(WithGenes(cfg, c), i, Ready(env, cfg, i)) == input.(params := c);
    StepReadsOneGene(env, input, c);
  }

  lemma NoBarsYet(env: Env, cfg: Config, c: Chromosome)
    ensures RunTo(env, WithGenes(cfg, c), 0) == RunTo(env, cfg, 0) == InitialSim(cfg)
    ensures !RunTo(env, cfg, 0).runtime.stopLossHit
  {}

  lemma WarmBar(env: Env, cfg: Config, i: nat, n: nat)
    requires cfg.spawn.initialCapital > 0.0 && i < n <= |cfg.bars| && !RunTo(env, cfg, n).inEval
    ensures Unseeded(Ready(env, cfg, i).portfolio)
  {
    StillWarm(env, cfg, i + 1, n);
    WarmPortfolio(env, cfg, i);
    hide RunTo, Ready, Unseeded;
  }

  lemma {:induction false} RunReadsOneGene(env: Env, cfg: Config, c: Chromosome, n: nat, m: nat)
    requires cfg.spawn.initialCapital > 0.0 && n <= |cfg.bars| && m <= |cfg.bars|
    requires !RunTo(env, cfg, n).inEval && RunTo(env, cfg, n).runtime.stopLossHit
    requires c.dcaDropPct == cfg.chromosome.dcaDropPct
    requires c.stopLossThreshold > -1.0 && cfg.chromosome.stopLossThreshold > -1.0
    ensures RunTo(env, WithGenes(cfg, c), m) == RunTo(env, cfg, m)
    ensures m >= n ==> RunTo(env, cfg, m).runtime.stopLossHit
  {
    hide RunTo, Ready, Output, Unseeded;
    if m == 0 {
      NoBarsYet(env, cfg, c);
    } else {
      RunReadsOneGene(env, cfg, c, n, m - 1);
      if m <= n {
        WarmBar(env, cfg, m - 1, n);
      }
      BarReadsOneGene(env, cfg, c, m - 1);
    }
  }

  lemma SameSummary(cfg: Config, c: Chromosome, s: Sim)
    ensures Summarise(WithGenes(cfg, c), s) == Summarise(cfg, s)
  {}

  /** After a bull bar in warm-up two of the three genes are dead: the whole result is the
      same for every sensitivity and for every stop-loss threshold above -100%. */
  lemma BullWarmUpKillsGenes(env: Env, cfg: Config, n: nat, i: nat, c: Chromosome)
    requires cfg.spawn.initialCapital > 0.0
    requires 0 < n <= |cfg.bars| && !RunTo(env, cfg, n).inEval
    requires MIN_BARS_REQUIRED - 1 <= i < n && RegimeAt(env, cfg, i) == BULL
    requires c.dcaDropPct == cfg.chromosome.dcaDropPct
    requires c.stopLossThreshold > -1.0 && cfg.chromosome.stopLossThreshold > -1.0
    ensures Result(env, WithGenes(cfg, c)) == Result(env, cfg)
    ensures forall m :: 0 <= m <= |cfg.bars| ==> RunTo(env, WithGenes(cfg, c), m) == RunTo(env, cfg, m)
  {
    hide RunTo, RegimeAt, Summarise;
    WarmUpEffect(env, cfg, n);
    forall m | 0 <= m <= |cfg.bars|
      ensures RunTo(env, WithGenes(cfg, c), m) == RunTo(env, cfg, m)
    {
      RunReadsOneGene(env, cfg, c, n, m);
    }
    SameSummary(cfg, c, RunTo(env, cfg, |cfg.bars|));
  }
}
