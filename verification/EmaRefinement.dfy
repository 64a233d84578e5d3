/** The incrementally kept EMA of a run is the batch EMA of everything seen. */
module EmaRefinement {
  import opened Data
  import opened Ema
  import opened MarketState
  import opened MacroEngine
  import opened MicroEngine
  import opened Strategy
  import opened Backtest
  import opened StepFacts
  import opened WarmUp

  /** The batch EMA-200 of the first n closes. */
  function BatchEma(cfg: Config, n: nat): real
    requires n <= |cfg.bars|
  {
    EMA(Closes(cfg.bars[..n]), 200)
  }

  /** The last k batch values up to bar n, oldest first. */
  function BatchHistory(cfg: Config, n: nat, k: nat): (h: seq<real>)
    requires k <= n <= |cfg.bars|
  {
    seq(k, j requires 0 <= j < k => BatchEma(cfg, n - k + 1 + j))
  }

  /** None before the 24th bar, then one a bar, up to eleven. */
  function HistoryLength(n: nat): nat {
    if n < 24 then 0 else if n < 34 then n - 23 else 11
  }

  /** No engine touches the indicators after the market state has updated them. */
  lemma StepIndicators(env: Env, input: StrategyInput)
    ensures |input.closes| < MIN_BARS_REQUIRED ==> Step(env, input).runtime == input.runtime
    ensures |input.closes| >= MIN_BARS_REQUIRED ==>
              var rt := Indicators(input.closes, input.closes[|input.closes| - 1], input.runtime);
              && Step(env, input).runtime.ema200 == rt.ema200
              && Step(env, input).runtime.ema200History == rt.ema200History
  {
    hide Sigma24h, NextEma, PushHistory, MacroDecision, Signal, SellQty, PortfolioState.Roi, RunRelease;
    if |input.closes| >= MIN_BARS_REQUIRED {
      var price := input.closes[|input.closes| - 1];
      var (regime, rt) := ComputeMarketState(input.closes, input.highs, input.lows, price, input.runtime);
      MacroKeepsLatch(price, input.portfolio, input.params, rt, MonthOfInput(env, input));
      hide Classify;
    }
  }

  lemma BatchStep(cfg: Config, i: nat)
    requires 0 < i < |cfg.bars|
    ensures BatchEma(cfg, i + 1) == UpdateEMA(BatchEma(cfg, i), cfg.bars[i].close, EMA200_PERIOD)
  {
    SeriesGrow(cfg.bars, i);
    var cs := Closes(cfg.bars[..i + 1]);
    assert cs[..i] == Closes(cfg.bars[..i]);
  }

  lemma HistoryStep(cfg: Config, i: nat)
    requires MIN_BARS_REQUIRED - 1 <= i < |cfg.bars|
    ensures PushHistory(BatchHistory(cfg, i, HistoryLength(i)), BatchEma(cfg, i + 1))
         == BatchHistory(cfg, i + 1, HistoryLength(i + 1))
  {}

  lemma BatchIsEma(cfg: Config, n: nat)
    requires n <= |cfg.bars|
    ensures BatchEma(cfg, n) == EMA(Closes(cfg.bars[..n]), EMA200_PERIOD)
  {}

  /** From the 24th bar on the kept average is the batch average of all closes so far, and
      the history holds the latest batch values, at most eleven. */
  lemma {:induction false} KeptEmaIsBatch(env: Env, cfg: Config, n: nat)
    requires n <= |cfg.bars|
    ensures var rt := RunTo(env, cfg, n).runtime;
      && rt.ema200 == (if n < 24 then 0.0 else BatchEma(cfg, n))
      && rt.ema200History == BatchHistory(cfg, n, HistoryLength(n))
  {
    hide Step, BatchEma, PushHistory, EMA, UpdateEMA;
    if n == 0 {
      assert RunTo(env, cfg, 0) == InitialSim(cfg);
    } else {
      var i := n - 1;
      KeptEmaIsBatch(env, cfg, i);
      FoldBar(env, cfg, i);
      ReadyRuntime(env, cfg, i);
      var input := InputAt(cfg, i, Ready(env, cfg, i));
      StepIndicators(env, input);
      assert RunTo(env, cfg, n).runtime == Step(env, input).runtime;
      hide RunTo, Ready, Apply;
      if n >= MIN_BARS_REQUIRED {
        BatchStep(cfg, i);
        HistoryStep(cfg, i);
        BatchIsEma(cfg, n);
        assert input.closes[|input.closes| - 1] == cfg.bars[i].close;
      }
    }
  }

  /** Consequences: the slope over the last ten bars, or over all since the 24th, and the
      average stays within the closes. */
  lemma KeptEmaSlopeAndRange(env: Env, cfg: Config, n: nat, lo: real, hi: real)
    requires 24 <= n <= |cfg.bars|
    requires forall i :: 0 <= i < n ==> lo <= cfg.bars[i].close <= hi
    ensures lo <= RunTo(env, cfg, n).runtime.ema200 <= hi
    ensures n < 34 ==>
              Ema200Slope(RunTo(env, cfg, n).runtime.ema200History) == BatchEma(cfg, n) - BatchEma(cfg, 24)
    ensures n >= 34 ==>
              Ema200Slope(RunTo(env, cfg, n).runtime.ema200History)
              == BatchEma(cfg, n) - BatchEma(cfg, n - 10)
  {
    hide RunTo, EMA;
    KeptEmaIsBatch(env, cfg, n);
    EmaWithinRange(Closes(cfg.bars[..n]), EMA200_PERIOD, lo, hi);
  }
}
