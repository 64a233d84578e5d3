/** Where alpha comes from: nothing but holding more or less BTC than the benchmark while
    the price moves, and the sale fees. */
module Attribution {
  import opened Data
  import opened Numeric
  import opened Dietz
  import opened MicroEngine
  import opened Backtest
  import opened Safety
  import opened Accounting
  import opened GhostDca
  import opened Alignment

  /** The price changes on what the benchmark held. */
  function BenchmarkGains(env: Env, initial: real, inject: real, bars: seq<Bar>, n: nat): real
    requires 1 <= n <= |bars|
  {
    if n == 1 then 0.0
    else
      var held := GhostTo(env, initial, inject, bars, n - 1).btc;
      BenchmarkGains(env, initial, inject, bars, n - 1) + Gain(held, bars[n - 2].close, bars[n - 1].close)
  }

  lemma QuotientValue(amount: real, price: real)
    requires price > 0.0
    ensures Notional(amount / price, price) == amount
  {}

  lemma NotionalSum(a: real, b: real, price: real)
    ensures Notional(a + b, price) == Notional(a, price) + Notional(b, price)
  {}

  /** One bar of the benchmark adds exactly the injection. */
  lemma BenchmarkBarValue(env: Env, inject: real, bars: seq<Bar>, i: nat, g: Ghost)
    requires 1 <= i < |bars| && bars[i].close > 0.0
    ensures var g', price := GhostBar(env, inject, bars, i, g), bars[i].close;
      && Notional(g'.btc, price) - Notional(g.btc, price) == SumFlows(g'.flows) - SumFlows(g.flows)
      && g'.nav == g.nav + [Notional(g'.btc, price)]
  {
    var price := bars[i].close;
    QuotientValue(inject, price);
    NotionalSum(g.btc, inject / price, price);
    hide Notional;
  }

  lemma NoFlowSum()
    ensures SumFlows([]) == 0.0
  {}

  /** The benchmark creates and loses no value: it is worth what was paid in plus the price
      changes on what it held, after every bar, and the value curve records that. */
  lemma {:induction false} BenchmarkAccount(env: Env, initial: real, inject: real, bars: seq<Bar>, n: nat)
    requires 1 <= n <= |bars| && forall i :: 0 <= i < n ==> bars[i].close > 0.0
    ensures var g := GhostTo(env, initial, inject, bars, n);
      && Notional(g.btc, bars[n - 1].close)
         == initial + SumFlows(g.flows) + BenchmarkGains(env, initial, inject, bars, n)
      && |g.nav| == n && g.nav[n - 1] == Notional(g.btc, bars[n - 1].close)
  {
    hide Notional, GhostBar, Gain, SumFlows;
    if n == 1 {
      QuotientValue(initial, bars[0].close);
      NoFlowSum();
    } else {
      var g := GhostTo(env, initial, inject, bars, n - 1);
      BenchmarkAccount(env, initial, inject, bars, n - 1);
      BenchmarkBarValue(env, inject, bars, n - 1, g);
      GainIsDifference(g.btc, bars[n - 2].close, bars[n - 1].close);
    }
  }

  /** Up to bar i, what the strategy held beyond the benchmark times the price changes. */
  function ExcessGains(env: Env, cfg: Config, k: nat, i: nat): real
    requires k <= i < |cfg.bars|
  {
    if i == k then 0.0
    else
      var excess := RunTo(env, cfg, i).portfolio.Btc() - BenchmarkTo(env, cfg, k, i - 1).btc;
      ExcessGains(env, cfg, k, i - 1) + Gain(excess, cfg.bars[i - 1].close, cfg.bars[i].close)
  }

  lemma GainDifference(a: real, b: real, from: real, to: real)
    ensures Gain(a - b, from, to) == Gain(a, from, to) - Gain(b, from, to)
  {}

  lemma {:induction false} ExcessIsDifference(env: Env, cfg: Config, k: nat, i: nat)
    requires FirstEval(cfg, k) && k <= i < |cfg.bars| && GainsTo(env, cfg, k + 1) == 0.0
    ensures ExcessGains(env, cfg, k, i)
         == GainsTo(env, cfg, i + 1)
            - BenchmarkGains(env, cfg.spawn.initialCapital, cfg.spawn.monthlyInject, cfg.bars[k..], i - k + 1)
  {
    hide RunTo, GhostTo, Gain;
    if i > k {
      ExcessIsDifference(env, cfg, k, i - 1);
      assert cfg.bars[k..][i - k] == cfg.bars[i] && cfg.bars[k..][i - 1 - k] == cfg.bars[i - 1];
      GainDifference(RunTo(env, cfg, i).portfolio.Btc(), BenchmarkTo(env, cfg, k, i - 1).btc,
                     cfg.bars[i - 1].close, cfg.bars[i].close);
    }
  }

  lemma EvaluationIsPositive(cfg: Config, k: nat, n: nat)
    requires MarketData(cfg, k) && n <= |cfg.bars|
    ensures PositiveOnceStarted(cfg, n)
  {}

  /** Before the first scored bar nothing is held, so no price change counts. */
  lemma NothingBefore(env: Env, cfg: Config, k: nat)
    requires Logistic(env) && ValidFee(cfg.takerFee) && MarketData(cfg, k)
    ensures GainsTo(env, cfg, k + 1) == 0.0
  {
    hide RunTo, Ready, Gain, Notional;
    if k > 0 {
      ScoredBars(env, cfg, k, k);
      EvaluationIsPositive(cfg, k, k);
      RunAccount(env, cfg, k);
      BarAccount(env, cfg, k);
      GainOfNothing(cfg.bars[k - 1].close, cfg.bars[k].close);
    }
  }

  /** The gap between the final equities: the excess holding times each price change, less
      the sale fees. */
  lemma EquityGap(env: Env, cfg: Config, k: nat)
    requires Logistic(env) && ValidFee(cfg.takerFee) && cfg.spawn.initialCapital > 0.0 && MarketData(cfg, k)
    ensures var n := |cfg.bars|;
      var b := GhostOutcome(env, cfg.spawn.initialCapital, cfg.spawn.monthlyInject,
                            BarsFrom(cfg.bars, cfg.evalStartMs));
      Result(env, cfg).finalEquity - b.finalEquity == ExcessGains(env, cfg, k, n - 1) - FeesTo(env, cfg, n)
  {
    hide RunTo, GhostTo, Gain, Notional, Result, SumFlows, FeesTo, GainsTo, ExcessGains, BarsFrom, BenchmarkGains;
    var n, evalBars := |cfg.bars|, cfg.bars[k..];
    ScoredBars(env, cfg, k, n - 1);
    SameFlows(env, cfg, k, n - 1);
    EvaluationIsPositive(cfg, k, n);
    FinalEquityAccount(env, cfg);
    NothingBefore(env, cfg, k);
    ExcessIsDifference(env, cfg, k, n - 1);
    BenchmarkAccount(env, cfg.spawn.initialCapital, cfg.spawn.monthlyInject, evalBars, |evalBars|);
  }

  /** Attribution of alpha.  A window's alpha is the excess holding times each price change,
      less the sale fees, over the common capital base. */
  lemma AlphaAttribution(env: Env, cfg: Config, k: nat)
    requires Logistic(env) && ValidFee(cfg.takerFee) && cfg.spawn.initialCapital > 0.0 && MarketData(cfg, k)
    ensures var n := |cfg.bars|;
      var b := GhostOutcome(env, cfg.spawn.initialCapital, cfg.spawn.monthlyInject,
                            BarsFrom(cfg.bars, cfg.evalStartMs));
      && CapitalBase(env, cfg) > 0.0
      && Result(env, cfg).roi - b.roi
         == (ExcessGains(env, cfg, k, n - 1) - FeesTo(env, cfg, n)) / CapitalBase(env, cfg)
  {
    hide RunTo, CapitalBase, BarsFrom, Result, GhostOutcome, ExcessGains, FeesTo;
    BenchmarkAlignment(env, cfg, k);
    EquityGap(env, cfg, k);
  }
}
