/** The backtest and the benchmark see the same bars and the same cash flows. */
module Alignment {
  import opened Data
  import opened Numeric
  import opened Calendar
  import opened Dietz
  import opened Strategy
  import opened Backtest
  import opened GhostDca

  /** The bars from the first one at or after a time. */
  function BarsFrom(bars: seq<Bar>, fromMs: int): seq<Bar> {
    if |bars| == 0 then []
    else if bars[0].openTime >= fromMs then bars
    else BarsFrom(bars[1..], fromMs)
  }

  method ComputeBarsFrom(bars: seq<Bar>, fromMs: int) returns (r: seq<Bar>)
    ensures r == BarsFrom(bars, fromMs)
  {
    for i := 0 to |bars|
      invariant BarsFrom(bars, fromMs) == BarsFrom(bars[i..], fromMs)
    {
      if bars[i].openTime >= fromMs {
        return bars[i..];
      }
      assert bars[i..][1..] == bars[i + 1..];
    }
    return [];
  }

  /** k is the first bar of the evaluation period. */
  ghost predicate FirstEval(cfg: Config, k: int) {
    && 0 <= k < |cfg.bars| && cfg.bars[k].openTime >= cfg.evalStartMs
    && forall i :: 0 <= i < k ==> cfg.bars[i].openTime < cfg.evalStartMs
  }

  lemma {:induction false} BarsFromFirst(bars: seq<Bar>, fromMs: int, k: nat)
    requires k < |bars| && bars[k].openTime >= fromMs
    requires forall i :: 0 <= i < k ==> bars[i].openTime < fromMs
    ensures BarsFrom(bars, fromMs) == bars[k..]
  {
    if k == 0 {
    } else {
      BarsFromFirst(bars[1..], fromMs, k - 1);
      assert bars[1..][k - 1..] == bars[k..];
    }
  }

  lemma EvalOfBar(env: Env, cfg: Config, i: nat)
    requires i < |cfg.bars|
    ensures Ready(env, cfg, i).inEval <==> RunTo(env, cfg, i).inEval || cfg.bars[i].openTime >= cfg.evalStartMs
    ensures RunTo(env, cfg, i + 1).inEval <==> Ready(env, cfg, i).inEval
    ensures !RunTo(env, cfg, 0).inEval
  {
    hide Step, ExecuteAll, MonthKeyOf;
    FoldBar(env, cfg, i);
  }

  /** A bar is scored exactly from the first evaluation bar on: the bars that the benchmark
      is given. */
  lemma {:induction false} ScoredBars(env: Env, cfg: Config, k: nat, i: nat)
    requires FirstEval(cfg, k) && i < |cfg.bars|
    ensures Ready(env, cfg, i).inEval <==> i >= k
    ensures RunTo(env, cfg, i).inEval <==> i > k
    ensures BarsFrom(cfg.bars, cfg.evalStartMs) == cfg.bars[k..]
  {
    hide RunTo, Ready, BarsFrom;
    BarsFromFirst(cfg.bars, cfg.evalStartMs, k);
    EvalOfBar(env, cfg, i);
    if i == 0 {
    } else {
      ScoredBars(env, cfg, k, i - 1);
      EvalOfBar(env, cfg, i - 1);
    }
  }

  /** The cash-flow side of both simulations in step. */
  ghost predicate InStep(cfg: Config, k: nat, s: Sim, g: Ghost, last: int) {
    && k < |cfg.bars|
    && s.inEval && s.flows == g.flows && s.prevMonth == Month(g.prevMonth)
    && s.evalFirstMs == cfg.bars[k].openTime && s.evalLastMs == last
  }

  lemma OpeningInStep(env: Env, cfg: Config, k: nat, i: nat, s: Sim, g: Ghost)
    requires k < i < |cfg.bars| && cfg.bars[k].openTime <= cfg.bars[i].openTime
    requires cfg.bars[i].openTime > 0 && cfg.bars[i].close > 0.0
    requires InStep(cfg, k, s, g, cfg.bars[i - 1].openTime)
    ensures InStep(cfg, k, Opened(env, cfg, cfg.bars[i], s),
                   GhostBar(env, cfg.spawn.monthlyInject, cfg.bars[k..], i - k, g), cfg.bars[i].openTime)
  {}

  /** What the program assumes of real market data: ordered, with positive times and closes
      in the evaluation period. */
  ghost predicate MarketData(cfg: Config, k: nat) {
    && FirstEval(cfg, k)
    && Ascending(cfg.bars)
    && forall j :: k <= j < |cfg.bars| ==> cfg.bars[j].openTime > 0 && cfg.bars[j].close > 0.0
  }

  function BenchmarkTo(env: Env, cfg: Config, k: nat, i: nat): Ghost
    requires k <= i < |cfg.bars|
  {
    GhostTo(env, cfg.spawn.initialCapital, cfg.spawn.monthlyInject, cfg.bars[k..], i - k + 1)
  }

  lemma ApplyInStep(cfg: Config, k: nat, bar: Bar, out: StrategyOutput, s: Sim, g: Ghost, last: int)
    requires InStep(cfg, k, s, g, last) && bar.close > 0.0
    ensures InStep(cfg, k, Apply(cfg, bar, out, s), g, last)
    ensures |Apply(cfg, bar, out, s).nav| > 0
  {}

  lemma BenchmarkBar(env: Env, cfg: Config, k: nat, i: nat)
    requires k < i < |cfg.bars|
    ensures BenchmarkTo(env, cfg, k, i)
         == GhostBar(env, cfg.spawn.monthlyInject, cfg.bars[k..], i - k, BenchmarkTo(env, cfg, k, i - 1))
  {}

  lemma {:induction false} NoFlowsBefore(env: Env, cfg: Config, k: nat, i: nat)
    requires FirstEval(cfg, k) && i <= k
    ensures RunTo(env, cfg, i).flows == [] && !RunTo(env, cfg, i).inEval
  {
    hide Step, ExecuteAll;
    if i == 0 {
    } else {
      FoldBar(env, cfg, i - 1);
      NoFlowsBefore(env, cfg, k, i - 1);
    }
  }

  lemma FirstEvalInStep(env: Env, cfg: Config, k: nat)
    requires FirstEval(cfg, k) && cfg.bars[k].openTime > 0
    ensures InStep(cfg, k, Ready(env, cfg, k), BenchmarkTo(env, cfg, k, k), cfg.bars[k].openTime)
    ensures Ready(env, cfg, k).flows == []
  {
    hide Step, ExecuteAll, MonthOf;
    assert cfg.bars[k..][0] == cfg.bars[k];
    FoldBar(env, cfg, k);
    NoFlowsBefore(env, cfg, k, k);
  }

  lemma {:induction false} SameFlows(env: Env, cfg: Config, k: nat, i: nat)
    requires MarketData(cfg, k) && k <= i < |cfg.bars|
    ensures InStep(cfg, k, RunTo(env, cfg, i + 1), BenchmarkTo(env, cfg, k, i), cfg.bars[i].openTime)
    ensures |RunTo(env, cfg, i + 1).nav| > 0
  {
    hide Step, Apply, Opened, GhostBar, GhostTo, InStep, RunTo;
    FoldBar(env, cfg, i);
    if i == k {
      FirstEvalInStep(env, cfg, k);
      ApplyInStep(cfg, k, cfg.bars[i], Output(env, cfg, i), Ready(env, cfg, i), BenchmarkTo(env, cfg, k, i),
                  cfg.bars[i].openTime);
    } else {
      SameFlows(env, cfg, k, i - 1);
      BenchmarkBar(env, cfg, k, i);
      assert cfg.bars[k].openTime <= cfg.bars[i].openTime;
      OpeningInStep(env, cfg, k, i, RunTo(env, cfg, i), BenchmarkTo(env, cfg, k, i - 1));
      ApplyInStep(cfg, k, cfg.bars[i], Output(env, cfg, i), Ready(env, cfg, i), BenchmarkTo(env, cfg, k, i),
                  cfg.bars[i].openTime);
    }
  }

  /** The capital base that both returns are measured against. */
  function CapitalBase(env: Env, cfg: Config): real {
    var s := RunTo(env, cfg, |cfg.bars|);
    Denominator(cfg.spawn.initialCapital, s.flows, TruncDiv(s.evalLastMs - s.evalFirstMs, MS_PER_DAY))
  }

  ghost predicate FlowsWithin(flows: seq<CashFlow>, days: int) {
    forall j :: 0 <= j < |flows| ==> 0 <= flows[j].day <= days && flows[j].amount >= 0.0
  }

  function DaysInto(cfg: Config, k: nat, i: nat): int
    requires k <= i < |cfg.bars|
  {
    TruncDiv(cfg.bars[i].openTime - cfg.bars[k].openTime, MS_PER_DAY)
  }

  lemma DaysGrow(cfg: Config, k: nat, i: nat)
    requires Ascending(cfg.bars) && k < i < |cfg.bars|
    ensures 0 <= DaysInto(cfg, k, i - 1) <= DaysInto(cfg, k, i)
  {}

  lemma OpeningFlows(env: Env, cfg: Config, k: nat, i: nat, s: Sim, days: int)
    requires k <= i < |cfg.bars| && s.inEval && s.evalFirstMs == cfg.bars[k].openTime
    requires FlowsWithin(s.flows, days) && 0 <= days <= DaysInto(cfg, k, i)
    ensures FlowsWithin(Opened(env, cfg, cfg.bars[i], s).flows, DaysInto(cfg, k, i))
  {}

  lemma {:induction false} FlowsInPeriod(env: Env, cfg: Config, k: nat, i: nat)
    requires MarketData(cfg, k) && k <= i < |cfg.bars|
    ensures FlowsWithin(RunTo(env, cfg, i + 1).flows, DaysInto(cfg, k, i))
  {
    hide Step, ExecuteAll, Opened, TruncDiv, RunTo, Ready;
    FoldBar(env, cfg, i);
    if i == k {
      FirstEvalInStep(env, cfg, k);
    } else {
      SameFlows(env, cfg, k, i - 1);
      FlowsInPeriod(env, cfg, k, i - 1);
      DaysGrow(cfg, k, i);
      OpeningFlows(env, cfg, k, i, RunTo(env, cfg, i), DaysInto(cfg, k, i - 1));
    }
  }

  /** Both results in terms of the one set of cash flows. */
  lemma SharedBase(env: Env, cfg: Config, k: nat)
    requires MarketData(cfg, k) && cfg.spawn.initialCapital > 0.0
    ensures CapitalBase(env, cfg) > 0.0
    ensures var s, m := RunTo(env, cfg, |cfg.bars|), Result(env, cfg);
      m.roi == (m.finalEquity - cfg.spawn.initialCapital - SumFlows(s.flows)) / CapitalBase(env, cfg)
    ensures var s := RunTo(env, cfg, |cfg.bars|);
      var b := GhostOutcome(env, cfg.spawn.initialCapital, cfg.spawn.monthlyInject, cfg.bars[k..]);
      b.roi == (b.finalEquity - cfg.spawn.initialCapital - SumFlows(s.flows)) / CapitalBase(env, cfg)
  {
    hide RunTo, GhostTo, TruncDiv, DaysSince, WeightedFlows, SumFlows, Notional, Drawdown.MaxDrawdown;
    var n := |cfg.bars|;
    var evalBars := cfg.bars[k..];
    SameFlows(env, cfg, k, n - 1);
    FlowsInPeriod(env, cfg, k, n - 1);
    var s := RunTo(env, cfg, n);
    assert evalBars[0] == cfg.bars[k] && evalBars[|evalBars| - 1] == cfg.bars[n - 1];
    assert cfg.bars[k].openTime <= cfg.bars[n - 1].openTime;
    DayCountsAgree(cfg.bars[k].openTime, cfg.bars[n - 1].openTime);
    DenominatorPositive(cfg.spawn.initialCapital, s.flows, DaysInto(cfg, k, n - 1));
    assert BenchmarkTo(env, cfg, k, n - 1)
        == GhostTo(env, cfg.spawn.initialCapital, cfg.spawn.monthlyInject, evalBars, |evalBars|);
  }

  lemma RoiDifference(x: real, y: real, v: real, f: real, d: real)
    requires d > 0.0
    ensures (x - v - f) / d - (y - v - f) / d == (x - y) / d
  {}

  /** Benchmark alignment: both returns divide by one positive capital base, so the alpha of
      a window is the difference of the final equities over it. */
  lemma BenchmarkAlignment(env: Env, cfg: Config, k: nat)
    requires MarketData(cfg, k) && cfg.spawn.initialCapital > 0.0
    ensures CapitalBase(env, cfg) > 0.0
    ensures var m := Result(env, cfg);
      var b := GhostOutcome(env, cfg.spawn.initialCapital, cfg.spawn.monthlyInject,
                            BarsFrom(cfg.bars, cfg.evalStartMs));
      m.roi - b.roi == (m.finalEquity - b.finalEquity) / CapitalBase(env, cfg)
  {
    hide RunTo, CapitalBase, BarsFrom, Result, GhostOutcome;
    ScoredBars(env, cfg, k, k);
    SharedBase(env, cfg, k);
    var m := Result(env, cfg);
    var b := GhostOutcome(env, cfg.spawn.initialCapital, cfg.spawn.monthlyInject, cfg.bars[k..]);
    RoiDifference(m.finalEquity, b.finalEquity, cfg.spawn.initialCapital,
                  SumFlows(RunTo(env, cfg, |cfg.bars|).flows), CapitalBase(env, cfg));
  }

  // ----- what a run pays in and records

  lemma NoOpeningMonth(env: Env, cfg: Config, i: nat)
    requires i < |cfg.bars| && Ready(env, cfg, i).inEval && cfg.spawn.monthlyInject > 0.0
    ensures RunTo(env, cfg, i + 1).prevMonth == MonthKeyOf(env, cfg.bars[i].openTime)
  {
    hide Step, ExecuteAll, MonthKeyOf;
    FoldBar(env, cfg, i);
    hide RunTo, Output;
  }

  /** Whole days from one time to a later one. */
  function DaysBetween(fromMs: int, toMs: int): int {
    (toMs - fromMs) / 86_400_000
  }

  lemma OpeningPays(env: Env, cfg: Config, bar: Bar, s: Sim)
    requires s.inEval && s.evalFirstMs <= bar.openTime
    ensures Opened(env, cfg, bar, s).flows
         == s.flows + if cfg.spawn.monthlyInject > 0.0 && MonthKeyOf(env, bar.openTime) != s.prevMonth
                      then [CashFlow(DaysBetween(s.evalFirstMs, bar.openTime), cfg.spawn.monthlyInject)] else []
  {
    hide MonthKeyOf;
  }

  lemma FlowsOfBar(env: Env, cfg: Config, i: nat)
    requires i < |cfg.bars|
    ensures RunTo(env, cfg, i + 1).flows == Opened(env, cfg, cfg.bars[i], RunTo(env, cfg, i)).flows
  {
    hide Step, ExecuteAll, Opened;
    FoldBar(env, cfg, i);
    hide RunTo, Output;
  }

  lemma InStepFacts(cfg: Config, k: nat, s: Sim, g: Ghost, last: int)
    requires InStep(cfg, k, s, g, last)
    ensures s.inEval && s.evalFirstMs == cfg.bars[k].openTime && s.evalLastMs == last
  {}

  /** From the second scored bar on, an injection is paid in exactly on the bars whose month
      is not the month of the bar before, on its whole day of the period. */
  lemma InjectionsOfRun(env: Env, cfg: Config, k: nat, i: nat)
    requires MarketData(cfg, k) && k <= i < |cfg.bars|
    ensures RunTo(env, cfg, i + 1).flows
         == if i == k then []
            else RunTo(env, cfg, i).flows +
                 if && cfg.spawn.monthlyInject > 0.0
                    && MonthKeyOf(env, cfg.bars[i].openTime) != MonthKeyOf(env, cfg.bars[i - 1].openTime)
                 then [CashFlow(DaysBetween(cfg.bars[k].openTime, cfg.bars[i].openTime), cfg.spawn.monthlyInject)]
                 else []
  {
    hide RunTo, Ready, Opened, MonthKeyOf, InStep, GhostTo, DaysBetween;
    FlowsOfBar(env, cfg, i);
    if i == k {
      FirstEvalInStep(env, cfg, k);
      FoldBar(env, cfg, k);
    } else {
      SameFlows(env, cfg, k, i - 1);
      ScoredBars(env, cfg, k, i - 1);
      InStepFacts(cfg, k, RunTo(env, cfg, i), BenchmarkTo(env, cfg, k, i - 1), cfg.bars[i - 1].openTime);
      assert cfg.bars[k].openTime <= cfg.bars[i].openTime;
      OpeningPays(env, cfg, cfg.bars[i], RunTo(env, cfg, i));
      if cfg.spawn.monthlyInject > 0.0 {
        NoOpeningMonth(env, cfg, i - 1);
      }
    }
  }

  lemma CurveOfBar(env: Env, cfg: Config, i: nat)
    requires i < |cfg.bars|
    ensures var s := RunTo(env, cfg, i + 1);
      s.nav == RunTo(env, cfg, i).nav + if Ready(env, cfg, i).inEval && cfg.bars[i].close > 0.0
                                        then [s.portfolio.Nav(cfg.bars[i].close)] else []
  {
    hide Step, ExecuteAll, PortfolioState.Nav;
    FoldBar(env, cfg, i);
    hide RunTo, Output;
  }

  lemma {:induction false} NoCurveBefore(env: Env, cfg: Config, k: nat, i: nat)
    requires FirstEval(cfg, k) && i <= k
    ensures RunTo(env, cfg, i).nav == [] && !RunTo(env, cfg, i).inEval
  {
    if i == 0 {
    } else {
      hide RunTo, Ready;
      CurveOfBar(env, cfg, i - 1);
      EvalOfBar(env, cfg, i - 1);
      NoCurveBefore(env, cfg, k, i - 1);
    }
  }

  /** The value curve has one entry a scored bar: the value of the portfolio after it. */
  lemma {:induction false} CurveOfRun(env: Env, cfg: Config, k: nat, i: nat)
    requires MarketData(cfg, k) && k <= i < |cfg.bars|
    ensures var nav := RunTo(env, cfg, i + 1).nav;
      |nav| == i - k + 1 && forall j :: k <= j <= i ==>
        nav[j - k] == RunTo(env, cfg, j + 1).portfolio.Nav(cfg.bars[j].close)
  {
    hide RunTo, Ready, PortfolioState.Nav;
    CurveOfBar(env, cfg, i);
    ScoredBars(env, cfg, k, i);
    if i == k {
      NoCurveBefore(env, cfg, k, k);
    } else {
      CurveOfRun(env, cfg, k, i - 1);
    }
  }

  lemma DaysIntoPeriod(cfg: Config, k: nat, i: nat)
    requires Ascending(cfg.bars) && k <= i < |cfg.bars|
    ensures DaysInto(cfg, k, i) == DaysBetween(cfg.bars[k].openTime, cfg.bars[i].openTime) >= 0
  {
    assert cfg.bars[k].openTime <= cfg.bars[i].openTime;
  }

  /** The capital base of a run is the time average of the capital at work: the initial
      capital, and each injection from its day on. */
  lemma CapitalBaseIsTimeAverage(env: Env, cfg: Config, k: nat)
    requires MarketData(cfg, k)
    ensures var n := |cfg.bars|;
      var days, flows := DaysBetween(cfg.bars[k].openTime, cfg.bars[n - 1].openTime), RunTo(env, cfg, n).flows;
      && days >= 0
      && (if days > 0
          then CapitalBase(env, cfg) * days as real == CapitalDays(cfg.spawn.initialCapital, flows, days)
          else CapitalBase(env, cfg) == cfg.spawn.initialCapital + SumFlows(flows))
  {
    hide RunTo, GhostTo, Denominator, CapitalDays, SumFlows, InStep, TruncDiv, DaysBetween;
    var n := |cfg.bars|;
    SameFlows(env, cfg, k, n - 1);
    FlowsInPeriod(env, cfg, k, n - 1);
    var s := RunTo(env, cfg, n);
    InStepFacts(cfg, k, s, BenchmarkTo(env, cfg, k, n - 1), cfg.bars[n - 1].openTime);
    DaysIntoPeriod(cfg, k, n - 1);
    TimeAverage(cfg.spawn.initialCapital, s.flows, DaysInto(cfg, k, n - 1));
  }

  lemma {:induction false} NeverStarted(env: Env, cfg: Config, n: nat)
    requires n <= |cfg.bars| && forall i :: 0 <= i < n ==> cfg.bars[i].openTime < cfg.evalStartMs
    ensures !RunTo(env, cfg, n).inEval && RunTo(env, cfg, n).nav == []
  {
    hide Step, ExecuteAll;
    if n == 0 {
    } else {
      NeverStarted(env, cfg, n - 1);
      FoldBar(env, cfg, n - 1);
    }
  }

  /** Nothing to run, no capital, or no bar to score: nothing is reported, by the backtest or
      by the benchmark. */
  lemma NothingToReport(env: Env, cfg: Config)
    ensures (|cfg.bars| == 0 || cfg.spawn.initialCapital <= 0.0
             || forall i :: 0 <= i < |cfg.bars| ==> cfg.bars[i].openTime < cfg.evalStartMs)
            ==> Result(env, cfg) == Metrics(0.0, 0.0, 0.0)
    ensures |cfg.bars| == 0 || cfg.spawn.initialCapital <= 0.0
            ==> GhostOutcome(env, cfg.spawn.initialCapital, cfg.spawn.monthlyInject, cfg.bars)
                == GhostResult(0.0, 0.0, 0.0, 0.0)
  {
    if |cfg.bars| > 0 && forall i :: 0 <= i < |cfg.bars| ==> cfg.bars[i].openTime < cfg.evalStartMs {
      NeverStarted(env, cfg, |cfg.bars|);
    }
    hide RunTo, GhostTo;
  }
}
