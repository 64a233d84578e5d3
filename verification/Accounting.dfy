/** Value accounting of a whole backtest run. */
module Accounting {
  import opened Data
  import opened Numeric
  import opened MicroEngine
  import opened Strategy
  import opened Dietz
  import Drawdown
  import opened Backtest
  import opened StepFacts
  import opened Safety

  /** The value change of a holding when the price moves. */
  function Gain(btc: real, from: real, to: real): real {
    btc * (to - from)
  }

  /** The fee on a sale: a share of its notional. */
  function FeeOn(qty: real, m: Terms): real {
    m.fee * Notional(qty, m.price)
  }

  function BoughtQty(f: Fill): real {
    if f.Bought? then f.qty else 0.0
  }

  function SoldQty(f: Fill): real {
    if f.Sold? then f.qty else 0.0
  }

  /** The trade that bar i executes. */
  function TradeFillAt(env: Env, cfg: Config, i: nat): Fill
    requires i < |cfg.bars|
  {
    var t := TradeIn(Output(env, cfg, i).intents);
    if Ready(env, cfg, i).inEval && cfg.bars[i].close > 0.0 && t.Some?
    then FillOf(t.value, Ready(env, cfg, i).portfolio, TermsAt(cfg, cfg.bars[i]))
    else NoFill
  }

  function BoughtTo(env: Env, cfg: Config, n: nat): real
    requires n <= |cfg.bars|
  {
    if n == 0 then 0.0 else BoughtTo(env, cfg, n - 1) + BoughtQty(TradeFillAt(env, cfg, n - 1))
  }

  function SoldTo(env: Env, cfg: Config, n: nat): real
    requires n <= |cfg.bars|
  {
    if n == 0 then 0.0 else SoldTo(env, cfg, n - 1) + SoldQty(TradeFillAt(env, cfg, n - 1))
  }

  function FeesTo(env: Env, cfg: Config, n: nat): real
    requires n <= |cfg.bars|
  {
    if n == 0 then 0.0
    else FeesTo(env, cfg, n - 1) + FeeOn(SoldQty(TradeFillAt(env, cfg, n - 1)), TermsAt(cfg, cfg.bars[n - 1]))
  }

  /** Sum over the bars of the BTC held before the bar times the price change into it. */
  function GainsTo(env: Env, cfg: Config, n: nat): real
    requires n <= |cfg.bars|
  {
    if n <= 1 then 0.0
    else
      var held := RunTo(env, cfg, n - 1).portfolio.Btc();
      GainsTo(env, cfg, n - 1) + Gain(held, cfg.bars[n - 2].close, cfg.bars[n - 1].close)
  }

  lemma GainIsDifference(btc: real, from: real, to: real)
    ensures Gain(btc, from, to) == Notional(btc, to) - Notional(btc, from)
  {}

  lemma NoFee(m: Terms)
    ensures FeeOn(0.0, m) == 0.0
  {}

  /** A fill trades cash for BTC at the price: only the fee of a sale is lost. */
  lemma FillValue(f: Fill, p: PortfolioState, m: Terms)
    requires f.Bought? ==> f.lot != OtherLot
    ensures Settle(f, p, m).Nav(m.price) == p.Nav(m.price) - FeeOn(SoldQty(f), m)
    ensures Settle(f, p, m).Btc() == p.Btc() + BoughtQty(f) - SoldQty(f)
  {}

  /** The same for the two slots of one bar. */
  lemma BarValue(t: Option<TradeIntent>, r: Option<TradeIntent>, spawn: SpawnPoint, p: PortfolioState, m: Terms)
    requires m.price > 0.0 && ValidFee(m.fee) && LegalTrade(t, p) && LegalRelease(r, p, spawn)
    ensures var f := if t.Some? then FillOf(t.value, p, m) else NoFill;
      var q := ExecuteAll(ToSeq(t) + ToSeq(r), p, m);
      && q.Nav(m.price) == p.Nav(m.price) - FeeOn(SoldQty(f), m)
      && q.Btc() == p.Btc() + BoughtQty(f) - SoldQty(f)
  {
    ExecuteTwo(t, r, p, m);
    var f := if t.Some? then FillOf(t.value, p, m) else NoFill;
    if t.Some? {
      LegalTradeFills(t.value, spawn, p, m);
    }
    FillValue(f, p, m);
    var q := ExecuteSlot(t, p, m);
    assert q == Settle(f, p, m);
    NoFee(m);
    if r.Some? {
      assert !FillOf(r.value, q, m).Bought? && !FillOf(r.value, q, m).Sold?;
      FillValue(FillOf(r.value, q, m), q, m);
    }
    hide ExecuteAll, Settle, FillOf, FeeOn, Notional;
  }

  /** What the opening of a bar adds to the value: the seed, or an injection. */
  lemma OpenValue(env: Env, cfg: Config, bar: Bar, s: Sim, price: real)
    requires Invariant(cfg, s)
    ensures Opened(env, cfg, bar, s).portfolio.Btc() == s.portfolio.Btc()
    ensures s.inEval ==> Opened(env, cfg, bar, s).inEval
    ensures s.inEval ==> Opened(env, cfg, bar, s).portfolio.Nav(price) - s.portfolio.Nav(price)
                         == SumFlows(Opened(env, cfg, bar, s).flows) - SumFlows(s.flows)
    ensures !s.inEval ==> Opened(env, cfg, bar, s).flows == s.flows && s.portfolio.Btc() == 0.0
    ensures !s.inEval && Opened(env, cfg, bar, s).inEval
        ==> Opened(env, cfg, bar, s).portfolio.Nav(price) == cfg.spawn.initialCapital + Notional(0.0, price)
  {}

  lemma ZeroNotional(price: real)
    ensures Notional(0.0, price) == 0.0
  {}

  /** One bar of the run. */
  lemma BarAccount(env: Env, cfg: Config, i: nat)
    requires Logistic(env) && ValidFee(cfg.takerFee) && i < |cfg.bars|
    requires Ready(env, cfg, i).inEval ==> cfg.bars[i].close > 0.0
    ensures RunTo(env, cfg, i + 1).portfolio.Btc() == RunTo(env, cfg, i).portfolio.Btc()
            + BoughtQty(TradeFillAt(env, cfg, i)) - SoldQty(TradeFillAt(env, cfg, i))
    ensures var s, s', m := RunTo(env, cfg, i), RunTo(env, cfg, i + 1), TermsAt(cfg, cfg.bars[i]);
      s.inEval ==> (&& s'.inEval
                    && s'.portfolio.Nav(m.price) == s.portfolio.Nav(m.price) + SumFlows(s'.flows) - SumFlows(s.flows)
                                                    - FeeOn(SoldQty(TradeFillAt(env, cfg, i)), m))
    ensures var s, s', m := RunTo(env, cfg, i), RunTo(env, cfg, i + 1), TermsAt(cfg, cfg.bars[i]);
      !s.inEval ==> (&& s.portfolio.Btc() == 0.0 && s'.flows == s.flows
                     && (s'.inEval ==>
                           s'.portfolio.Nav(m.price)
                           == cfg.spawn.initialCapital - FeeOn(SoldQty(TradeFillAt(env, cfg, i)), m)))
  {
    hide Step, Settle, FillOf, ExecuteAll, Sound, LegalTrade, LegalRelease, SumFlows, FeeOn, Opened, Notional;
    RunSafe(env, cfg, i);
    FoldBar(env, cfg, i);
    var bar, s, ready, out := cfg.bars[i], RunTo(env, cfg, i), Ready(env, cfg, i), Output(env, cfg, i);
    OpenValue(env, cfg, bar, s, bar.close);
    ZeroNotional(bar.close);
    NoFee(TermsAt(cfg, bar));
    if ready.inEval {
      StepLegal(env, InputAt(cfg, i, ready));
      BarValue(TradeIn(out.intents), ReleaseIn(out.intents), cfg.spawn, ready.portfolio, TermsAt(cfg, bar));
    }
  }

  lemma GainOfNothing(from: real, to: real)
    ensures Gain(0.0, from, to) == 0.0
  {}

  /** Before the evaluation period nothing trades; inside it a bar never leaves it. */
  lemma EvalLatched(env: Env, cfg: Config, i: nat)
    requires i < |cfg.bars|
    ensures RunTo(env, cfg, i).inEval ==> Ready(env, cfg, i).inEval
    ensures Ready(env, cfg, i).inEval == RunTo(env, cfg, i + 1).inEval
    ensures !Ready(env, cfg, i).inEval ==> TradeFillAt(env, cfg, i) == NoFill
  {}

  lemma RunStart(env: Env, cfg: Config)
    ensures RunTo(env, cfg, 0) == InitialSim(cfg) && SumFlows(InitialSim(cfg).flows) == 0.0
  {}

  /** From the first bar of the evaluation period on, closes are positive. */
  ghost predicate PositiveOnceStarted(cfg: Config, n: nat)
    requires n <= |cfg.bars|
  {
    forall i, j :: 0 <= i <= j < n && cfg.bars[i].openTime >= cfg.evalStartMs ==> cfg.bars[j].close > 0.0
  }

  lemma {:induction false} EvalHasStarted(env: Env, cfg: Config, n: nat)
    requires n <= |cfg.bars| && RunTo(env, cfg, n).inEval
    ensures exists i :: 0 <= i < n && cfg.bars[i].openTime >= cfg.evalStartMs
  {
    hide Step, ExecuteAll;
    if n == 0 {
    } else if RunTo(env, cfg, n - 1).inEval {
      EvalHasStarted(env, cfg, n - 1);
    } else {
      FoldBar(env, cfg, n - 1);
      assert cfg.bars[n - 1].openTime >= cfg.evalStartMs;
    }
  }

  /** Accounting of the whole run: equity is the seed, plus the injections, plus the price
      changes on what was held, less the sale fees; and BTC held is bought less sold. */
  lemma {:induction false} RunAccount(env: Env, cfg: Config, n: nat)
    requires Logistic(env) && ValidFee(cfg.takerFee) && 0 < n <= |cfg.bars|
    requires PositiveOnceStarted(cfg, n)
    ensures RunTo(env, cfg, n).portfolio.Btc() == BoughtTo(env, cfg, n) - SoldTo(env, cfg, n)
    ensures RunTo(env, cfg, n).inEval ==>
              RunTo(env, cfg, n).portfolio.Nav(cfg.bars[n - 1].close)
              == cfg.spawn.initialCapital + SumFlows(RunTo(env, cfg, n).flows)
                 + GainsTo(env, cfg, n) - FeesTo(env, cfg, n)
    ensures !RunTo(env, cfg, n).inEval ==>
              SumFlows(RunTo(env, cfg, n).flows) == GainsTo(env, cfg, n) == FeesTo(env, cfg, n) == 0.0
  {
    hide RunTo, Ready, TradeFillAt, FeeOn, Gain, Notional;
    var i := n - 1;
    if RunTo(env, cfg, n).inEval {
      EvalHasStarted(env, cfg, n);
    }
    EvalLatched(env, cfg, i);
    BarAccount(env, cfg, i);
    NoFee(TermsAt(cfg, cfg.bars[i]));
    if i == 0 {
      RunStart(env, cfg);
    } else {
      RunAccount(env, cfg, i);
      var btc := RunTo(env, cfg, i).portfolio.Btc();
      GainIsDifference(btc, cfg.bars[i - 1].close, cfg.bars[i].close);
      GainOfNothing(cfg.bars[i - 1].close, cfg.bars[i].close);
    }
  }

  /** The last entry of the value curve is the value of the portfolio. */
  lemma LastValue(env: Env, cfg: Config, i: nat)
    requires i < |cfg.bars| && Ready(env, cfg, i).inEval && cfg.bars[i].close > 0.0
    ensures var s := RunTo(env, cfg, i + 1);
      |s.nav| > 0 && s.nav[|s.nav| - 1] == s.portfolio.Nav(cfg.bars[i].close)
  {
    FoldBar(env, cfg, i);
    hide RunTo, Ready, Output, ExecuteAll, PortfolioState.Nav;
  }

  /** The reported equity, accounted for. */
  lemma FinalEquityAccount(env: Env, cfg: Config)
    requires Logistic(env) && ValidFee(cfg.takerFee) && cfg.spawn.initialCapital > 0.0
    requires |cfg.bars| > 0 && RunTo(env, cfg, |cfg.bars|).inEval
    requires PositiveOnceStarted(cfg, |cfg.bars|)
    ensures var n := |cfg.bars|;
      Result(env, cfg).finalEquity
      == cfg.spawn.initialCapital + SumFlows(RunTo(env, cfg, n).flows) + GainsTo(env, cfg, n) - FeesTo(env, cfg, n)
  {
    hide RunTo, Ready, GainsTo, FeesTo, SumFlows, PortfolioState.Nav, Drawdown.MaxDrawdown;
    var n := |cfg.bars|;
    RunAccount(env, cfg, n);
    EvalLatched(env, cfg, n - 1);
    EvalHasStarted(env, cfg, n);
    LastValue(env, cfg, n - 1);
  }
}
