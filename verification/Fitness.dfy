/** The multi-window fitness of one chromosome against the passive benchmark. */
module Fitness {
  import opened Data
  import opened Numeric
  import opened Backtest
  import opened Alignment
  import opened GhostDca
  import opened Crucible

  const FATAL_SCORE: real := -99999.0
  const MAX_DD_FATAL: real := 0.88
  const TAKER_FEE: real := 0.001
  const DEFAULT_WARMUP_DAYS: int := 1200

  datatype Plan = Plan(
    spawn: SpawnPoint, lotStep: real, lotMin: real, windows: seq<Window>, baselines: seq<GhostResult>)

  datatype CrucibleResult = CrucibleResult(window: Label, score: real, roi: real, maxDD: real, alpha: real)

  function BaselineFor(env: Env, spawn: SpawnPoint, w: Window): GhostResult {
    GhostOutcome(env, spawn.initialCapital, spawn.monthlyInject, BarsFrom(w.bars, w.evalStartMs))
  }

  function Baselines(env: Env, spawn: SpawnPoint, windows: seq<Window>): (r: seq<GhostResult>)
    ensures |r| == |windows|
  {
    seq(|windows|, i requires 0 <= i < |windows| => BaselineFor(env, spawn, windows[i]))
  }

  function PlanOf(env: Env, bars: seq<Bar>, spawn: SpawnPoint, lotStep: real, lotMin: real): Plan {
    var ws := Windows(bars, DEFAULT_WARMUP_DAYS);
    Plan(spawn, lotStep, lotMin, ws, Baselines(env, spawn, ws))
  }

  method BuildPlan(env: Env, bars: seq<Bar>, spawn: SpawnPoint, lotStep: real, lotMin: real) returns (plan: Plan)
    ensures plan == PlanOf(env, bars, spawn, lotStep, lotMin)
  {
    var windows := BuildCrucibleWindows(bars, DEFAULT_WARMUP_DAYS);
    var baselines: seq<GhostResult> := [];
    for i := 0 to |windows|
      invariant baselines == Baselines(env, spawn, windows)[..i]
    {
      var evalBars := ComputeBarsFrom(windows[i].bars, windows[i].evalStartMs);
      var res := SimulateGhostDCA(env, spawn.initialCapital, spawn.monthlyInject, evalBars);
      baselines := baselines + [res];
    }
    plan := Plan(spawn, lotStep, lotMin, windows, baselines);
  }

  function ConfigFor(plan: Plan, c: Chromosome, w: Window): Config {
    Config(w.bars, w.evalStartMs, c, plan.spawn, plan.lotStep, plan.lotMin, TAKER_FEE)
  }

  function MetricsFor(env: Env, plan: Plan, c: Chromosome, w: Window): Metrics {
    Result(env, ConfigFor(plan, c, w))
  }

  /** Excess return over the benchmark, less 1.5 times the excess drawdown. */
  function SliceScore(m: Metrics, b: GhostResult): real {
    (m.roi - b.roi) - 1.5 * Max(0.0, m.maxDrawdown - b.maxDrawdown)
  }

  function Score(plan: Plan, i: nat, m: Metrics): real
    requires i < |plan.windows| == |plan.baselines|
  {
    plan.windows[i].weight * SliceScore(m, plan.baselines[i])
  }

  function SliceResult(plan: Plan, i: nat, m: Metrics): CrucibleResult
    requires i < |plan.windows| == |plan.baselines|
  {
    var b := plan.baselines[i];
    CrucibleResult(plan.windows[i].name,
                   if m.maxDrawdown >= MAX_DD_FATAL then FATAL_SCORE else SliceScore(m, b),
                   m.roi, m.maxDrawdown, m.roi - b.roi)
  }

  /** The outcome of the windows from i on; a cancellation is seen before window stopAt. */
  function EvaluateFrom(
    env: Env, c: Chromosome, plan: Plan, stopAt: nat, i: nat, score: real, results: seq<CrucibleResult>)
    : (real, seq<CrucibleResult>)
    requires i <= |plan.windows| == |plan.baselines|
    decreases |plan.windows| - i
  {
    if i == |plan.windows| then (score, results)
    else if i >= stopAt then (FATAL_SCORE, results)
    else
      var m := MetricsFor(env, plan, c, plan.windows[i]);
      var results' := results + [SliceResult(plan, i, m)];
      if m.maxDrawdown >= MAX_DD_FATAL then (FATAL_SCORE, results')
      else EvaluateFrom(env, c, plan, stopAt, i + 1, score + Score(plan, i, m), results')
  }

  method Evaluate(env: Env, c: Chromosome, plan: Plan, stopAt: nat)
    returns (scoreTotal: real, results: seq<CrucibleResult>)
    requires |plan.windows| == |plan.baselines|
    ensures (scoreTotal, results) == EvaluateFrom(env, c, plan, stopAt, 0, 0.0, [])
  {
    hide Result;
    results := [];
    scoreTotal := 0.0;
    for i := 0 to |plan.windows|
      invariant EvaluateFrom(env, c, plan, stopAt, 0, 0.0, [])
             == EvaluateFrom(env, c, plan, stopAt, i, scoreTotal, results)
    {
      if i >= stopAt {
        return FATAL_SCORE, results;
      }
      var w, baseline := plan.windows[i], plan.baselines[i];
      var m := RunBacktest(env, Config(w.bars, w.evalStartMs, c, plan.spawn, plan.lotStep, plan.lotMin, TAKER_FEE));
      if m.maxDrawdown >= MAX_DD_FATAL {
        results := results + [CrucibleResult(w.name, FATAL_SCORE, m.roi, m.maxDrawdown, m.roi - baseline.roi)];
        return FATAL_SCORE, results;
      }
      var alpha := m.roi - baseline.roi;
      var ddPenalty := 1.5 * Max(0.0, m.maxDrawdown - baseline.maxDrawdown);
      var sliceScore := alpha - ddPenalty;
      assert m == MetricsFor(env, plan, c, w) && sliceScore == SliceScore(m, baseline);
      assert Score(plan, i, m) == w.weight * sliceScore;
      results := results + [CrucibleResult(w.name, sliceScore, m.roi, m.maxDrawdown, alpha)];
      scoreTotal := scoreTotal + w.weight * sliceScore;
    }
  }

  ghost predicate Fatal(env: Env, c: Chromosome, plan: Plan, i: int) {
    0 <= i < |plan.windows| && MetricsFor(env, plan, c, plan.windows[i]).maxDrawdown >= MAX_DD_FATAL
  }

  /** The weighted score of the windows from i on. */
  function TotalFrom(env: Env, c: Chromosome, plan: Plan, i: nat): real
    requires i <= |plan.windows| == |plan.baselines|
    decreases |plan.windows| - i
  {
    if i == |plan.windows| then 0.0
    else Score(plan, i, MetricsFor(env, plan, c, plan.windows[i])) + TotalFrom(env, c, plan, i + 1)
  }

  /** An uncancelled evaluation without a fatal window: the weighted sum over all windows. */
  lemma {:induction false} SurvivorScore(
    env: Env, c: Chromosome, plan: Plan, stopAt: nat, i: nat, score: real, results: seq<CrucibleResult>)
    requires i <= |plan.windows| == |plan.baselines| <= stopAt
    requires forall j :: !Fatal(env, c, plan, j)
    ensures var r := EvaluateFrom(env, c, plan, stopAt, i, score, results);
      r.0 == score + TotalFrom(env, c, plan, i) && |r.1| == |results| + |plan.windows| - i
    decreases |plan.windows| - i
  {
    hide MetricsFor, Score, SliceResult;
    if i < |plan.windows| {
      assert !Fatal(env, c, plan, i);
      var m := MetricsFor(env, plan, c, plan.windows[i]);
      SurvivorScore(env, c, plan, stopAt, i + 1, score + Score(plan, i, m), results + [SliceResult(plan, i, m)]);
    }
  }

  /** A fatal window ends it: the fatal score, with results up to that window. */
  lemma {:induction false} FatalScore(
    env: Env, c: Chromosome, plan: Plan, stopAt: nat, i: nat, k: nat, score: real, results: seq<CrucibleResult>)
    requires i <= k < |plan.windows| == |plan.baselines| <= stopAt
    requires Fatal(env, c, plan, k) && forall j :: i <= j < k ==> !Fatal(env, c, plan, j)
    ensures var r := EvaluateFrom(env, c, plan, stopAt, i, score, results);
      r.0 == FATAL_SCORE && |r.1| == |results| + k - i + 1
    decreases k - i
  {
    hide MetricsFor, Score, SliceResult;
    if i < k {
      assert !Fatal(env, c, plan, i);
      var m := MetricsFor(env, plan, c, plan.windows[i]);
      FatalScore(env, c, plan, stopAt, i + 1, k, score + Score(plan, i, m), results + [SliceResult(plan, i, m)]);
    }
  }

  lemma SuffixData(a: seq<Bar>, b: seq<Bar>)
    requires IsSuffix(a, b) && Ascending(b) && forall x :: x in b ==> x.openTime > 0 && x.close > 0.0
    ensures Ascending(a)
    ensures forall j :: 0 <= j < |a| ==> a[j].openTime > 0 && a[j].close > 0.0
  {}

  /** In every window of a plan over market data the alpha that is scored is the difference
      of the final equities over one positive capital base. */
  lemma PlanAlpha(env: Env, bars: seq<Bar>, spawn: SpawnPoint, lotStep: real, lotMin: real, c: Chromosome, i: nat)
    requires |bars| > 0 && Ascending(bars) && spawn.initialCapital > 0.0
    requires forall b :: b in bars ==> b.openTime > 0 && b.close > 0.0
    requires i < |PlanOf(env, bars, spawn, lotStep, lotMin).windows|
    ensures var plan := PlanOf(env, bars, spawn, lotStep, lotMin);
      var m, b := MetricsFor(env, plan, c, plan.windows[i]), plan.baselines[i];
      && CapitalBase(env, ConfigFor(plan, c, plan.windows[i])) > 0.0
      && SliceResult(plan, i, m).alpha
         == (m.finalEquity - b.finalEquity) / CapitalBase(env, ConfigFor(plan, c, plan.windows[i]))
  {
    hide Windows, Result, CapitalBase, GhostOutcome, Ready, BarsFrom;
    var plan := PlanOf(env, bars, spawn, lotStep, lotMin);
    var w := plan.windows[i];
    var cfg := ConfigFor(plan, c, w);
    WindowContents(bars, DEFAULT_WARMUP_DAYS, w);
    WindowScoredBars(env, cfg, bars, DEFAULT_WARMUP_DAYS, w);
    var k :| FirstEval(cfg, k);
    SuffixData(w.bars, bars);
    assert MarketData(cfg, k);
    BenchmarkAlignment(env, cfg, k);
  }

  // ----- what a score is made of

  /** The backtest of a window: its bars and its start, the plan's lots, a fee of 0.1%. */
  function WindowRun(env: Env, c: Chromosome, plan: Plan, i: nat): Metrics
    requires i < |plan.windows|
  {
    var w := plan.windows[i];
    Result(env, Config(w.bars, w.evalStartMs, c, plan.spawn, plan.lotStep, plan.lotMin, 0.001))
  }

  /** x is the result of a window that is not fatal: its alpha, less one and a half times
      the drawdown in excess of the benchmark's. */
  ghost predicate ScoredResult(env: Env, c: Chromosome, plan: Plan, i: nat, x: CrucibleResult)
    requires i < |plan.windows| == |plan.baselines|
  {
    var m, b := WindowRun(env, c, plan, i), plan.baselines[i];
    && m.maxDrawdown < 0.88
    && x.window == plan.windows[i].name && x.roi == m.roi && x.maxDD == m.maxDrawdown && x.alpha == m.roi - b.roi
    && (m.maxDrawdown <= b.maxDrawdown ==> x.score == x.alpha)
    && (m.maxDrawdown >= b.maxDrawdown ==> x.score == x.alpha - 1.5 * (m.maxDrawdown - b.maxDrawdown))
  }

  /** x is the result of a window with a drawdown of at least 88%. */
  ghost predicate FatalResult(env: Env, c: Chromosome, plan: Plan, i: nat, x: CrucibleResult)
    requires i < |plan.windows| == |plan.baselines|
  {
    var m, b := WindowRun(env, c, plan, i), plan.baselines[i];
    && m.maxDrawdown >= 0.88
    && x == CrucibleResult(plan.windows[i].name, -99999.0, m.roi, m.maxDrawdown, m.roi - b.roi)
  }

  lemma ResultOfWindow(env: Env, c: Chromosome, plan: Plan, i: nat)
    requires i < |plan.windows| == |plan.baselines|
    ensures var m := MetricsFor(env, plan, c, plan.windows[i]);
      && m == WindowRun(env, c, plan, i)
      && (m.maxDrawdown >= MAX_DD_FATAL ==> FatalResult(env, c, plan, i, SliceResult(plan, i, m)))
      && (m.maxDrawdown < MAX_DD_FATAL ==>
            && ScoredResult(env, c, plan, i, SliceResult(plan, i, m))
            && Score(plan, i, m) == plan.windows[i].weight * SliceResult(plan, i, m).score)
  {
    hide Result;
    var m, b := WindowRun(env, c, plan, i), plan.baselines[i];
    Extremes(0.0, m.maxDrawdown - b.maxDrawdown);
  }

  /** The sum of the weighted scores of the results so far. */
  function WeightedSum(plan: Plan, results: seq<CrucibleResult>): real
    requires |results| <= |plan.windows|
  {
    if |results| == 0 then 0.0
    else
      var n := |results| - 1;
      WeightedSum(plan, results[..n]) + plan.windows[n].weight * results[n].score
  }

  /** The results of the windows before i, none of them fatal. */
  ghost predicate ScoredUpTo(env: Env, c: Chromosome, plan: Plan, i: nat, results: seq<CrucibleResult>)
    requires |plan.windows| == |plan.baselines|
  {
    |results| == i <= |plan.windows| && forall j :: 0 <= j < i ==> ScoredResult(env, c, plan, j, results[j])
  }

  /** How an evaluation ends: with the weighted sum of all windows, or with the fatal score
      after the first fatal window or at a cancellation. */
  ghost predicate EvaluationOf(
    env: Env, c: Chromosome, plan: Plan, stopAt: nat, total: real, results: seq<CrucibleResult>)
    requires |plan.windows| == |plan.baselines|
  {
    || (ScoredUpTo(env, c, plan, |plan.windows|, results) && total == WeightedSum(plan, results))
    || (&& total == -99999.0 && stopAt < |plan.windows| && ScoredUpTo(env, c, plan, stopAt, results))
    || (&& total == -99999.0 && 0 < |results| <= |plan.windows| && |results| <= stopAt
        && ScoredUpTo(env, c, plan, |results| - 1, results[..|results| - 1])
        && FatalResult(env, c, plan, |results| - 1, results[|results| - 1]))
  }

  lemma {:induction false} EvaluationEnds(
    env: Env, c: Chromosome, plan: Plan, stopAt: nat, i: nat, score: real, results: seq<CrucibleResult>)
    requires i <= |plan.windows| == |plan.baselines| && i <= stopAt
    requires ScoredUpTo(env, c, plan, i, results) && score == WeightedSum(plan, results)
    ensures var r := EvaluateFrom(env, c, plan, stopAt, i, score, results);
      EvaluationOf(env, c, plan, stopAt, r.0, r.1)
    decreases |plan.windows| - i
  {
    hide MetricsFor, WindowRun, Score, SliceResult, ScoredResult, FatalResult;
    if i < |plan.windows| && i < stopAt {
      ResultOfWindow(env, c, plan, i);
      var m := MetricsFor(env, plan, c, plan.windows[i]);
      var results' := results + [SliceResult(plan, i, m)];
      assert results'[..i] == results;
      if m.maxDrawdown < MAX_DD_FATAL {
        EvaluationEnds(env, c, plan, stopAt, i + 1, score + Score(plan, i, m), results');
      }
    }
  }

  /** The whole evaluation. */
  lemma EvaluationMeans(env: Env, c: Chromosome, plan: Plan, stopAt: nat)
    requires |plan.windows| == |plan.baselines|
    ensures var r := EvaluateFrom(env, c, plan, stopAt, 0, 0.0, []);
      EvaluationOf(env, c, plan, stopAt, r.0, r.1)
  {
    EvaluationEnds(env, c, plan, stopAt, 0, 0.0, []);
  }

  /** With the same return a deeper drawdown never scores higher, and strictly lower beyond
      the benchmark's. */
  lemma DeeperNeverScoresHigher(m: Metrics, m': Metrics, b: GhostResult)
    requires m.roi == m'.roi && m.maxDrawdown < m'.maxDrawdown
    ensures SliceScore(m', b) <= SliceScore(m, b)
    ensures m'.maxDrawdown > b.maxDrawdown ==> SliceScore(m', b) < SliceScore(m, b)
  {
    Extremes(0.0, m.maxDrawdown - b.maxDrawdown);
    Extremes(0.0, m'.maxDrawdown - b.maxDrawdown);
  }

  /** The plan: the four windows with up to 1200 days of warm-up, each against the benchmark
      on its evaluation bars. */
  lemma PlanContents(env: Env, bars: seq<Bar>, spawn: SpawnPoint, lotStep: real, lotMin: real, i: nat)
    requires |bars| > 0 && Ascending(bars) && i < 4
    ensures var plan := PlanOf(env, bars, spawn, lotStep, lotMin);
      && |plan.windows| == |plan.baselines| == 4
      && plan.spawn == spawn && plan.lotStep == lotStep && plan.lotMin == lotMin
      && var w := plan.windows[i];
         && CutAt(w.bars, bars, w.evalStartMs - 1200 * 86_400_000)
         && plan.baselines[i] == GhostOutcome(env, spawn.initialCapital, spawn.monthlyInject,
                                              BarsFrom(w.bars, w.evalStartMs))
  {
    hide GhostOutcome, BarsFrom, CutAt, Windows;
    CrucibleSchedule(bars, DEFAULT_WARMUP_DAYS);
    WindowIsCut(bars, DEFAULT_WARMUP_DAYS, Windows(bars, DEFAULT_WARMUP_DAYS)[i]);
  }
}
