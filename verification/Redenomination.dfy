/** Asset re-denomination: counting the asset in another unit changes no result. */
module Redenomination {
  import opened Data
  import opened Numeric
  import opened Calendar
  import opened Strategy
  import opened Backtest
  import opened GhostDca
  import opened Alignment
  import opened Crucible
  import opened Fitness
  import opened Scaling

  function ScaleBar(b: Bar, c: real): Bar {
    b.(open := Times(c, b.open), high := Times(c, b.high), low := Times(c, b.low), close := Times(c, b.close))
  }

  function ScaleBars(bars: seq<Bar>, c: real): (r: seq<Bar>)
    ensures |r| == |bars| && forall i :: 0 <= i < |bars| ==> r[i] == ScaleBar(bars[i], c)
  {
    seq(|bars|, i requires 0 <= i < |bars| => ScaleBar(bars[i], c))
  }

  function ScaleConfig(cfg: Config, c: real, k: real): Config {
    cfg.(bars := ScaleBars(cfg.bars, c), lotStep := Times(k, cfg.lotStep), lotMin := Times(k, cfg.lotMin))
  }

  function ScaleTerms(m: Terms, c: real, k: real): Terms {
    Terms(Times(c, m.price), Times(k, m.lotStep), Times(k, m.lotMin), m.fee)
  }

  function ScaleFill(f: Fill, k: real): Fill {
    match f
    case NoFill => NoFill
    case Bought(lot, qty) => Bought(lot, Times(k, qty))
    case Sold(qty) => Sold(Times(k, qty))
    case Released(qty) => Released(Times(k, qty))
  }

  function ScaleSim(s: Sim, c: real, k: real): Sim {
    s.(portfolio := ScaleP(s.portfolio, k), runtime := ScaleRt(s.runtime, c))
  }

  // ----- execution

  lemma StepsScaled(n: int, step: real, k: real)
    ensures Steps(n, Times(k, step)) == Times(k, Steps(n, step))
  {}

  lemma SnapScaled(qty: real, step: real, k: real)
    requires k > 0.0
    ensures SnapToStep(Times(k, qty), Times(k, step)) == Times(k, SnapToStep(qty, step))
  {
    TimesSign(k, step);
    if step > 0.0 {
      RatioUnscaled(k, qty, step);
      TimesCommute(k, Trunc(qty / step) as real, step);
      hide Times;
      assert Times(k, qty) / Times(k, step) == qty / step;
    }
    hide Times, Steps;
    StepsScaled(Trunc(if step > 0.0 then qty / step else 0.0), step, k);
  }

  lemma NetQtyScaled(spend: real, price: real, fee: real, c: real, k: real)
    requires Units(c, k) && price > 0.0
    ensures Times(c, price) > 0.0
    ensures NetQty(spend, Times(c, price), fee) == Times(k, NetQty(spend, price, fee))
  {}

  lemma FillScaled(x: TradeIntent, p: PortfolioState, m: Terms, c: real, k: real)
    requires Units(c, k) && m.price > 0.0
    ensures ScaleTerms(m, c, k).price > 0.0
    ensures FillOf(ScaleIntent(x, k), ScaleP(p, k), ScaleTerms(m, c, k)) == ScaleFill(FillOf(x, p, m), k)
  {
    hide Times, SnapToStep, NetQty;
    NetQtyScaled(x.amountUSDT, m.price, m.fee, c, k);
    SnapScaled(NetQty(x.amountUSDT, m.price, m.fee), m.lotStep, k);
    SnapScaled(x.qtyAsset, m.lotStep, k);
    TimesSign(k, m.lotMin);
    TimesSign(k, x.qtyAsset);
    TimesOrder(k, BuyQty(x.amountUSDT, m), m.lotMin);
    TimesOrder(k, SnapToStep(x.qtyAsset, m.lotStep), m.lotMin);
    TimesOrder(k, p.floatStack, SnapToStep(x.qtyAsset, m.lotStep));
    TimesOrder(k, p.deadStack, x.qtyAsset);
  }

  lemma SettleScaled(f: Fill, p: PortfolioState, m: Terms, c: real, k: real)
    requires Units(c, k)
    ensures Settle(ScaleFill(f, k), ScaleP(p, k), ScaleTerms(m, c, k)) == ScaleP(Settle(f, p, m), k)
  {
    hide Times, Notional;
    if !f.NoFill? {
      ValueUnscaled(c, k, f.qty, m.price);
      TimesSum(k, p.deadStack, f.qty);
      TimesSum(k, p.floatStack, f.qty);
    }
  }

  lemma {:induction false} ExecuteScaled(xs: seq<TradeIntent>, p: PortfolioState, m: Terms, c: real, k: real)
    requires Units(c, k) && m.price > 0.0 && ScaleTerms(m, c, k).price > 0.0
    ensures ExecuteAll(ScaleIntents(xs, k), ScaleP(p, k), ScaleTerms(m, c, k)) == ScaleP(ExecuteAll(xs, p, m), k)
  {
    hide Times, ScaleP, ScaleIntent, FillOf, Settle, ScaleFill, ScaleTerms;
    if |xs| == 0 {
    } else {
      var n := |xs| - 1;
      assert ScaleIntents(xs, k)[..n] == ScaleIntents(xs[..n], k);
      ExecuteScaled(xs[..n], p, m, c, k);
      var q := ExecuteAll(xs[..n], p, m);
      FillScaled(xs[n], q, m, c, k);
      SettleScaled(FillOf(xs[n], q, m), q, m, c, k);
    }
  }

  // ----- the fold

  lemma OpenScaled(env: Env, cfg: Config, bar: Bar, s: Sim, c: real, k: real)
    ensures Opened(env, ScaleConfig(cfg, c, k), ScaleBar(bar, c), ScaleSim(s, c, k))
         == ScaleSim(Opened(env, cfg, bar, s), c, k)
  {}

  lemma InputScaled(cfg: Config, i: nat, s: Sim, c: real, k: real)
    requires i < |cfg.bars|
    ensures InputAt(ScaleConfig(cfg, c, k), i, ScaleSim(s, c, k)) == ScaleInput(InputAt(cfg, i, s), c, k)
  {}

  lemma TimesPositive(c: real, a: real)
    requires c > 0.0
    ensures Times(c, a) > 0.0 <==> a > 0.0
  {}

  lemma ApplyScaled(cfg: Config, bar: Bar, out: StrategyOutput, s: Sim, c: real, k: real)
    requires Units(c, k)
    ensures Apply(ScaleConfig(cfg, c, k), ScaleBar(bar, c), ScaleOutput(out, c, k), ScaleSim(s, c, k))
         == ScaleSim(Apply(cfg, bar, out, s), c, k)
  {
    hide Times, ExecuteAll, PortfolioState.Nav, ScaleP, ScaleRt, ScaleIntents, ScaleBars;
    TimesSign(c, bar.close);
    TimesPositive(c, bar.close);
    var m := TermsAt(cfg, bar);
    assert TermsAt(ScaleConfig(cfg, c, k), ScaleBar(bar, c)) == ScaleTerms(m, c, k);
    if s.inEval && bar.close > 0.0 {
      ExecuteScaled(out.intents, s.portfolio, m, c, k);
      NavScaled(ExecuteAll(out.intents, s.portfolio, m), bar.close, c, k);
    }
  }

  lemma StartScaled(env: Env, cfg: Config, c: real, k: real)
    ensures RunTo(env, ScaleConfig(cfg, c, k), 0) == ScaleSim(RunTo(env, cfg, 0), c, k)
  {}

  /** After every bar the rescaled run is the rescaled state of the run: same cash, same
      flows, same value curve; stacks scaled by 1/c, averages and month high by c. */
  lemma {:induction false} RunScaled(env: Env, cfg: Config, c: real, k: real, n: nat)
    requires Units(c, k) && n <= |cfg.bars|
    ensures RunTo(env, ScaleConfig(cfg, c, k), n) == ScaleSim(RunTo(env, cfg, n), c, k)
  {
    if n == 0 {
      StartScaled(env, cfg, c, k);
    } else {
      var i := n - 1;
      var cfg' := ScaleConfig(cfg, c, k);
      RunScaled(env, cfg, c, k, i);
      FoldBar(env, cfg, i);
      FoldBar(env, cfg', i);
      OpenScaled(env, cfg, cfg.bars[i], RunTo(env, cfg, i), c, k);
      InputScaled(cfg, i, Ready(env, cfg, i), c, k);
      StepScaled(env, InputAt(cfg, i, Ready(env, cfg, i)), c, k);
      ApplyScaled(cfg, cfg.bars[i], Output(env, cfg, i), Ready(env, cfg, i), c, k);
      assert cfg'.bars[i] == ScaleBar(cfg.bars[i], c);
      hide RunTo, Ready, Output, Apply, Opened, InputAt, Step, ScaleConfig, ScaleSim, ScaleInput, ScaleOutput, ScaleBar;
    }
  }

  lemma SummaryScaled(cfg: Config, s: Sim, c: real, k: real)
    ensures Summarise(ScaleConfig(cfg, c, k), ScaleSim(s, c, k)) == Summarise(cfg, s)
  {}

  lemma RunResultScaled(env: Env, cfg: Config, c: real, k: real)
    requires Units(c, k)
    ensures Result(env, ScaleConfig(cfg, c, k)) == Result(env, cfg)
  {
    RunScaled(env, cfg, c, k, |cfg.bars|);
    SummaryScaled(cfg, RunTo(env, cfg, |cfg.bars|), c, k);
    hide RunTo, Times, ScaleBars, Summarise, ScaleSim;
  }

  lemma UnitsOf(c: real)
    requires c > 0.0
    ensures Units(c, 1.0 / c)
  {}

  /** Equity, drawdown and return of a backtest do not depend on the unit of the asset. */
  lemma BacktestUnitFree(env: Env, cfg: Config, c: real)
    requires c > 0.0
    ensures Result(env, ScaleConfig(cfg, c, 1.0 / c)) == Result(env, cfg)
  {
    UnitsOf(c);
    hide Units, Result, ScaleConfig;
    RunResultScaled(env, cfg, c, 1.0 / c);
  }

  // ----- the benchmark and the fitness

  lemma {:induction false} BarsFromScaled(bars: seq<Bar>, fromMs: int, c: real)
    ensures BarsFrom(ScaleBars(bars, c), fromMs) == ScaleBars(BarsFrom(bars, fromMs), c)
  {
    hide Times;
    if |bars| > 0 && bars[0].openTime < fromMs {
      assert ScaleBars(bars, c)[1..] == ScaleBars(bars[1..], c);
      BarsFromScaled(bars[1..], fromMs, c);
    }
  }

  function ScaleGhost(g: Ghost, k: real): Ghost {
    g.(btc := Times(k, g.btc))
  }

  lemma BoughtScaled(cash: real, price: real, c: real, k: real)
    requires Units(c, k) && price > 0.0
    ensures Times(c, price) > 0.0 && cash / Times(c, price) == Times(k, cash / price)
  {}

  lemma GhostBarScaled(env: Env, inject: real, bars: seq<Bar>, i: nat, g: Ghost, c: real, k: real)
    requires Units(c, k) && 1 <= i < |bars|
    ensures GhostBar(env, inject, ScaleBars(bars, c), i, ScaleGhost(g, k))
         == ScaleGhost(GhostBar(env, inject, bars, i, g), k)
  {
    hide Times, Notional, MonthOf, DaysSince;
    var b := bars[i];
    TimesPositive(c, b.close);
    ValueUnscaled(c, k, g.btc, bars[i - 1].close);
    ValueUnscaled(c, k, g.btc, b.close);
    if b.close > 0.0 {
      BoughtScaled(inject, b.close, c, k);
      TimesSum(k, g.btc, inject / b.close);
      ValueUnscaled(c, k, g.btc + inject / b.close, b.close);
    }
  }

  lemma {:induction false} GhostScaled(env: Env, initial: real, inject: real, bars: seq<Bar>, n: nat, c: real, k: real)
    requires Units(c, k) && 1 <= n <= |bars|
    ensures GhostTo(env, initial, inject, ScaleBars(bars, c), n)
         == ScaleGhost(GhostTo(env, initial, inject, bars, n), k)
  {
    if n == 1 {
      hide Times, Notional, MonthOf;
      TimesPositive(c, bars[0].close);
      TimesNothing(k);
      if bars[0].close > 0.0 {
        BoughtScaled(initial, bars[0].close, c, k);
        ValueUnscaled(c, k, initial / bars[0].close, bars[0].close);
      } else {
        ValueUnscaled(c, k, 0.0, bars[0].close);
      }
    } else {
      hide GhostBar, ScaleGhost, ScaleBars;
      GhostScaled(env, initial, inject, bars, n - 1, c, k);
      GhostBarScaled(env, inject, bars, n - 1, GhostTo(env, initial, inject, bars, n - 1), c, k);
    }
  }

  /** The benchmark does not depend on the unit either. */
  lemma GhostUnitFree(env: Env, initial: real, inject: real, bars: seq<Bar>, c: real, k: real)
    requires Units(c, k)
    ensures GhostOutcome(env, initial, inject, ScaleBars(bars, c)) == GhostOutcome(env, initial, inject, bars)
  {
    if |bars| > 0 {
      GhostScaled(env, initial, inject, bars, |bars|, c, k);
      var g := GhostTo(env, initial, inject, bars, |bars|);
      ValueUnscaled(c, k, g.btc, bars[|bars| - 1].close);
    }
    hide GhostTo, Times, Notional, DaysSince;
  }

  function ScaleWindow(w: Window, c: real): Window {
    w.(bars := ScaleBars(w.bars, c))
  }

  function ScaleWindows(ws: seq<Window>, c: real): (r: seq<Window>)
    ensures |r| == |ws| && forall i :: 0 <= i < |ws| ==> r[i] == ScaleWindow(ws[i], c)
  {
    seq(|ws|, i requires 0 <= i < |ws| => ScaleWindow(ws[i], c))
  }

  lemma {:induction false} FirstIdxScaled(bars: seq<Bar>, t: int, i: nat, c: real)
    requires i <= |bars|
    ensures FirstIdx(ScaleBars(bars, c), t, i) == FirstIdx(bars, t, i)
    decreases |bars| - i
  {}

  lemma WindowScaled(bars: seq<Bar>, wd: int, s: Spec, c: real)
    requires |bars| > 0
    ensures WindowFor(ScaleBars(bars, c), wd, s) == ScaleWindows(WindowFor(bars, wd, s), c)
  {
    hide Times, Days, FirstIdx;
    var start := EvalStart(bars, s);
    assert EvalStart(ScaleBars(bars, c), s) == start;
    FirstIdxScaled(bars, start, 0, c);
    FirstIdxScaled(bars, start - Days(wd), 0, c);
    var i := FirstIdx(bars, start - Days(wd), 0);
    assert ScaleBars(bars, c)[i..] == ScaleBars(bars[i..], c);
    hide EvalStart;
  }

  lemma {:induction false} WindowsScaled(bars: seq<Bar>, wd: int, specs: seq<Spec>, c: real)
    requires |bars| > 0
    ensures WindowsFor(ScaleBars(bars, c), wd, specs) == ScaleWindows(WindowsFor(bars, wd, specs), c)
  {
    hide WindowFor, ScaleWindow, ScaleBars;
    if |specs| == 0 {
    } else {
      WindowsScaled(bars, wd, specs[..|specs| - 1], c);
      WindowScaled(bars, wd, specs[|specs| - 1], c);
    }
  }

  lemma PlanScaled(env: Env, bars: seq<Bar>, spawn: SpawnPoint, lotStep: real, lotMin: real, c: real, k: real)
    requires Units(c, k)
    ensures var p, p' := PlanOf(env, bars, spawn, lotStep, lotMin),
                         PlanOf(env, ScaleBars(bars, c), spawn, Times(k, lotStep), Times(k, lotMin));
      && p'.windows == ScaleWindows(p.windows, c) && p'.baselines == p.baselines
  {
    hide Times, WindowsFor, GhostOutcome;
    if |bars| > 0 {
      WindowsScaled(bars, DEFAULT_WARMUP_DAYS, SPECS, c);
    }
    var ws := Windows(bars, DEFAULT_WARMUP_DAYS);
    assert Windows(ScaleBars(bars, c), DEFAULT_WARMUP_DAYS) == ScaleWindows(ws, c);
    hide Windows;
    forall i | 0 <= i < |ws|
      ensures BaselineFor(env, spawn, ScaleWindow(ws[i], c)) == BaselineFor(env, spawn, ws[i])
    {
      BarsFromScaled(ws[i].bars, ws[i].evalStartMs, c);
      GhostUnitFree(env, spawn.initialCapital, spawn.monthlyInject, BarsFrom(ws[i].bars, ws[i].evalStartMs), c, k);
    }
    hide BaselineFor, ScaleWindow;
    assert Baselines(env, spawn, ScaleWindows(ws, c)) == Baselines(env, spawn, ws);
  }

  lemma {:induction false} EvaluateScaled(
    env: Env, ch: Chromosome, p: Plan, p': Plan, stopAt: nat, i: nat, score: real, results: seq<CrucibleResult>,
    c: real, k: real)
    requires Units(c, k) && i <= |p.windows| == |p.baselines|
    requires p' == Plan(p.spawn, Times(k, p.lotStep), Times(k, p.lotMin), ScaleWindows(p.windows, c), p.baselines)
    ensures EvaluateFrom(env, ch, p', stopAt, i, score, results) == EvaluateFrom(env, ch, p, stopAt, i, score, results)
    decreases |p.windows| - i
  {
    hide Times, Result, ScaleBars, SliceScore;
    if i < |p.windows| && i < stopAt {
      var w := p.windows[i];
      RunResultScaled(env, ConfigFor(p, ch, w), c, k);
      assert ConfigFor(p', ch, p'.windows[i]) == ScaleConfig(ConfigFor(p, ch, w), c, k);
      var m := MetricsFor(env, p, ch, w);
      assert MetricsFor(env, p', ch, p'.windows[i]) == m;
      assert SliceResult(p', i, m) == SliceResult(p, i, m) && Score(p', i, m) == Score(p, i, m);
      hide MetricsFor, Score, SliceResult;
      EvaluateScaled(env, ch, p, p', stopAt, i + 1, score + Score(p, i, m), results + [SliceResult(p, i, m)], c, k);
    }
  }

  /** The fitness of every chromosome, and its per-window detail, is the same whatever unit
      the asset is counted in. */
  lemma FitnessUnitFree(
    env: Env, bars: seq<Bar>, spawn: SpawnPoint, lotStep: real, lotMin: real, ch: Chromosome, stopAt: nat, c: real)
    requires c > 0.0
    ensures var k := 1.0 / c;
      EvaluateFrom(env, ch, PlanOf(env, ScaleBars(bars, c), spawn, Times(k, lotStep), Times(k, lotMin)),
                   stopAt, 0, 0.0, [])
      == EvaluateFrom(env, ch, PlanOf(env, bars, spawn, lotStep, lotMin), stopAt, 0, 0.0, [])
  {
    var k := 1.0 / c;
    UnitsOf(c);
    hide EvaluateFrom, Times, ScaleBars, Windows, Units;
    PlanScaled(env, bars, spawn, lotStep, lotMin, c, k);
    EvaluateScaled(env, ch, PlanOf(env, bars, spawn, lotStep, lotMin),
                   PlanOf(env, ScaleBars(bars, c), spawn, Times(k, lotStep), Times(k, lotMin)),
                   stopAt, 0, 0.0, [], c, k);
  }
}
