/** The four nested evaluation windows of the fitness assessment. */
module Crucible {
  import opened Data
  import opened Calendar
  import opened Backtest
  import opened Alignment

  /** The labels "6m", "2y", "5y" and "full". */
  datatype Label = SixMonths | TwoYears | FiveYears | Full

  datatype Window = Window(name: Label, weight: real, bars: seq<Bar>, evalStartMs: int)

  /** days == 0 stands for the whole history. */
  datatype Spec = Spec(name: Label, weight: real, days: int)

  const SIX_MONTHS := Spec(SixMonths, 0.10, 183)
  const TWO_YEARS := Spec(TwoYears, 0.20, 730)
  const FIVE_YEARS := Spec(FiveYears, 0.30, 1825)
  const FULL := Spec(Full, 0.40, 0)

  /** Short to long, the order in which a fatal window cuts the evaluation short. */
  const SPECS: seq<Spec> := [SIX_MONTHS, TWO_YEARS, FIVE_YEARS, FULL]

  /** Index of the first bar, from k on, at or after a time; |bars| when there is none. */
  function FirstIdx(bars: seq<Bar>, targetMs: int, k: nat): (i: nat)
    requires k <= |bars|
    ensures k <= i <= |bars|
    ensures forall j :: k <= j < i ==> bars[j].openTime < targetMs
    ensures i < |bars| ==> bars[i].openTime >= targetMs
    decreases |bars| - k
  {
    if k == |bars| || bars[k].openTime >= targetMs then k else FirstIdx(bars, targetMs, k + 1)
  }

  method FindFirstIdx(bars: seq<Bar>, targetMs: int) returns (i: nat)
    ensures i == FirstIdx(bars, targetMs, 0)
  {
    for k := 0 to |bars|
      invariant FirstIdx(bars, targetMs, 0) == FirstIdx(bars, targetMs, k)
    {
      if bars[k].openTime >= targetMs {
        return k;
      }
    }
    return |bars|;
  }

  function EvalStart(bars: seq<Bar>, spec: Spec): int
    requires |bars| > 0
  {
    var first, start := bars[0].openTime, bars[|bars| - 1].openTime - Days(spec.days);
    if spec.days == 0 || start <= first then first else start
  }

  function SliceFrom(bars: seq<Bar>, fromMs: int): seq<Bar> {
    bars[FirstIdx(bars, fromMs, 0)..]
  }

  function TheWindow(bars: seq<Bar>, warmupDays: int, spec: Spec): Window
    requires |bars| > 0
  {
    var start := EvalStart(bars, spec);
    Window(spec.name, spec.weight, SliceFrom(bars, start - Days(warmupDays)), start)
  }

  function WindowFor(bars: seq<Bar>, warmupDays: int, spec: Spec): seq<Window>
    requires |bars| > 0
  {
    if FirstIdx(bars, EvalStart(bars, spec), 0) >= |bars| then [] else [TheWindow(bars, warmupDays, spec)]
  }

  function WindowsFor(bars: seq<Bar>, warmupDays: int, specs: seq<Spec>): seq<Window>
    requires |bars| > 0
  {
    if |specs| == 0 then []
    else WindowsFor(bars, warmupDays, specs[..|specs| - 1]) + WindowFor(bars, warmupDays, specs[|specs| - 1])
  }

  function Windows(bars: seq<Bar>, warmupDays: int): seq<Window> {
    if |bars| == 0 then [] else WindowsFor(bars, warmupDays, SPECS)
  }

  /** The body of the window loop: a window, or nothing when no bar is left to score. */
  method BuildWindow(allBars: seq<Bar>, warmupDays: int, s: Spec) returns (windows: seq<Window>)
    requires |allBars| > 0
    ensures windows == WindowFor(allBars, warmupDays, s)
  {
    var lastMs := allBars[|allBars| - 1].openTime;
    var evalStartMs := 0;
    if s.days == 0 {
      evalStartMs := allBars[0].openTime;
    } else {
      evalStartMs := lastMs - Days(s.days);
      if evalStartMs <= allBars[0].openTime {
        evalStartMs := allBars[0].openTime;
      }
    }
    var evalIdx := FindFirstIdx(allBars, evalStartMs);
    if evalIdx >= |allBars| {
      return [];
    }
    var sliceStartIdx := FindFirstIdx(allBars, evalStartMs - Days(warmupDays));
    return [Window(s.name, s.weight, allBars[sliceStartIdx..], evalStartMs)];
  }

  method BuildAll(allBars: seq<Bar>, warmupDays: int, specs: seq<Spec>) returns (windows: seq<Window>)
    requires |allBars| > 0
    ensures windows == WindowsFor(allBars, warmupDays, specs)
  {
    windows := [];
    for i := 0 to |specs|
      invariant windows == WindowsFor(allBars, warmupDays, specs[..i])
    {
      assert specs[..i + 1][..i] == specs[..i];
      var w := BuildWindow(allBars, warmupDays, specs[i]);
      windows := windows + w;
    }
    assert specs[..|specs|] == specs;
  }

  method BuildCrucibleWindows(allBars: seq<Bar>, warmupDays: int) returns (windows: seq<Window>)
    ensures windows == Windows(allBars, warmupDays)
  {
    if |allBars| == 0 {
      return [];
    }
    windows := BuildAll(allBars, warmupDays, SPECS);
  }

  ghost predicate IsSuffix(a: seq<Bar>, b: seq<Bar>) {
    |a| <= |b| && b[|b| - |a|..] == a
  }

  lemma OneMoreWindow(bars: seq<Bar>, warmupDays: int, specs: seq<Spec>, s: Spec)
    requires |bars| > 0 && Ascending(bars) && s.days >= 0
    ensures WindowsFor(bars, warmupDays, specs + [s])
         == WindowsFor(bars, warmupDays, specs) + [TheWindow(bars, warmupDays, s)]
  {}

  lemma Empty(bars: seq<Bar>, warmupDays: int)
    requires |bars| > 0
    ensures WindowsFor(bars, warmupDays, []) == []
  {}

  lemma FourWindows(bars: seq<Bar>, warmupDays: int)
    requires |bars| > 0 && Ascending(bars)
    ensures Windows(bars, warmupDays)
         == [TheWindow(bars, warmupDays, SIX_MONTHS), TheWindow(bars, warmupDays, TWO_YEARS),
             TheWindow(bars, warmupDays, FIVE_YEARS), TheWindow(bars, warmupDays, FULL)]
  {
    hide WindowFor, TheWindow, WindowsFor, Ascending;
    Empty(bars, warmupDays);
    OneMoreWindow(bars, warmupDays, [], SIX_MONTHS);
    OneMoreWindow(bars, warmupDays, [] + [SIX_MONTHS], TWO_YEARS);
    OneMoreWindow(bars, warmupDays, [] + [SIX_MONTHS] + [TWO_YEARS], FIVE_YEARS);
    OneMoreWindow(bars, warmupDays, [] + [SIX_MONTHS] + [TWO_YEARS] + [FIVE_YEARS], FULL);
    assert SPECS == [] + [SIX_MONTHS] + [TWO_YEARS] + [FIVE_YEARS] + [FULL];
  }

  ghost predicate Nested(a: Window, b: Window) {
    IsSuffix(a.bars, b.bars) && b.evalStartMs <= a.evalStartMs
  }

  lemma ShorterIsNested(bars: seq<Bar>, warmupDays: int, a: Spec, b: Spec)
    requires |bars| > 0 && a.days > 0 && b.days >= 0 && (b.days == 0 || a.days <= b.days)
    ensures Nested(TheWindow(bars, warmupDays, a), TheWindow(bars, warmupDays, b))
  {}

  lemma FullWindow(bars: seq<Bar>, warmupDays: int, s: Spec)
    requires |bars| > 0 && warmupDays >= 0 && s.days == 0
    ensures TheWindow(bars, warmupDays, s).bars == bars
    ensures TheWindow(bars, warmupDays, s).evalStartMs == bars[0].openTime
  {}

  /** The crucible: four windows, short to long, weights summing to one, each a suffix of
      the next, the last one the whole series. */
  lemma CrucibleShape(bars: seq<Bar>, warmupDays: int)
    requires |bars| > 0 && Ascending(bars) && warmupDays >= 0
    ensures var ws := Windows(bars, warmupDays);
      && |ws| == 4
      && ws[0].weight + ws[1].weight + ws[2].weight + ws[3].weight == 1.0
      && Nested(ws[0], ws[1]) && Nested(ws[1], ws[2]) && Nested(ws[2], ws[3])
      && ws[3].bars == bars && ws[3].evalStartMs == bars[0].openTime
  {
    FourWindows(bars, warmupDays);
    hide Nested, EvalStart, Windows, SliceFrom;
    ShorterIsNested(bars, warmupDays, SIX_MONTHS, TWO_YEARS);
    ShorterIsNested(bars, warmupDays, TWO_YEARS, FIVE_YEARS);
    ShorterIsNested(bars, warmupDays, FIVE_YEARS, FULL);
    FullWindow(bars, warmupDays, FULL);
  }

  ghost predicate GoodContents(bars: seq<Bar>, warmupDays: int, w: Window) {
    && IsSuffix(w.bars, bars)
    && (forall b :: b in w.bars ==> b.openTime >= w.evalStartMs - Days(warmupDays))
    && |w.bars| > 0 && w.bars[|w.bars| - 1].openTime >= w.evalStartMs
  }

  lemma SpecContents(bars: seq<Bar>, warmupDays: int, spec: Spec)
    requires |bars| > 0 && Ascending(bars) && warmupDays >= 0 && spec.days >= 0
    ensures GoodContents(bars, warmupDays, TheWindow(bars, warmupDays, spec))
  {}

  /** Every window ends with the last bar, keeps its warm-up bars within the warm-up span,
      and has a bar to score. */
  lemma WindowContents(bars: seq<Bar>, warmupDays: int, w: Window)
    requires |bars| > 0 && Ascending(bars) && warmupDays >= 0 && w in Windows(bars, warmupDays)
    ensures GoodContents(bars, warmupDays, w)
  {
    hide GoodContents, TheWindow;
    FourWindows(bars, warmupDays);
    hide Windows;
    SpecContents(bars, warmupDays, SIX_MONTHS);
    SpecContents(bars, warmupDays, TWO_YEARS);
    SpecContents(bars, warmupDays, FIVE_YEARS);
    SpecContents(bars, warmupDays, FULL);
  }

  /** In every window, the bars that the backtest scores are the bars the benchmark gets. */
  lemma WindowScoredBars(env: Env, cfg: Config, bars: seq<Bar>, warmupDays: int, w: Window)
    requires |bars| > 0 && Ascending(bars) && warmupDays >= 0
    requires w in Windows(bars, warmupDays) && cfg.bars == w.bars && cfg.evalStartMs == w.evalStartMs
    ensures exists k ::
              && FirstEval(cfg, k)
              && BarsFrom(w.bars, w.evalStartMs) == w.bars[k..]
              && forall i :: 0 <= i < |w.bars| ==> (Ready(env, cfg, i).inEval <==> i >= k)
  {
    hide WindowFor, Ready, Windows;
    WindowContents(bars, warmupDays, w);
    var k := FirstIdx(w.bars, w.evalStartMs, 0);
    assert FirstEval(cfg, k);
    forall i | 0 <= i < |w.bars|
      ensures Ready(env, cfg, i).inEval <==> i >= k
    {
      ScoredBars(env, cfg, k, i);
    }
    ScoredBars(env, cfg, k, k);
  }

  /** A number of days before the last bar, but not before the first. */
  function DaysBack(bars: seq<Bar>, days: nat): int
    requires |bars| > 0
  {
    var first, start := bars[0].openTime, bars[|bars| - 1].openTime - days * 86_400_000;
    if start > first then start else first
  }

  lemma WindowHead(bars: seq<Bar>, warmupDays: int, spec: Spec)
    requires |bars| > 0 && spec.days >= 0
    ensures var w := TheWindow(bars, warmupDays, spec);
      && w.name == spec.name && w.weight == spec.weight
      && w.evalStartMs == if spec.days == 0 then bars[0].openTime else DaysBack(bars, spec.days)
  {}

  /** The schedule: half a year, two years, five years and everything, at weights of 10, 20,
      30 and 40 percent. */
  lemma CrucibleSchedule(bars: seq<Bar>, warmupDays: int)
    requires |bars| > 0 && Ascending(bars)
    ensures var ws := Windows(bars, warmupDays);
      && |ws| == 4
      && ws[0].name == SixMonths && ws[0].weight == 0.10 && ws[0].evalStartMs == DaysBack(bars, 183)
      && ws[1].name == TwoYears && ws[1].weight == 0.20 && ws[1].evalStartMs == DaysBack(bars, 730)
      && ws[2].name == FiveYears && ws[2].weight == 0.30 && ws[2].evalStartMs == DaysBack(bars, 1825)
      && ws[3].name == Full && ws[3].weight == 0.40 && ws[3].evalStartMs == bars[0].openTime
  {
    hide Windows, TheWindow, DaysBack, Ascending;
    FourWindows(bars, warmupDays);
    WindowHead(bars, warmupDays, SIX_MONTHS);
    WindowHead(bars, warmupDays, TWO_YEARS);
    WindowHead(bars, warmupDays, FIVE_YEARS);
    WindowHead(bars, warmupDays, FULL);
  }

  /** The bars are cut at a time: all from it on, and none before it. */
  ghost predicate CutAt(a: seq<Bar>, bars: seq<Bar>, fromMs: int) {
    exists k :: && 0 <= k <= |bars| && a == bars[k..]
                && (forall i :: 0 <= i < k ==> bars[i].openTime < fromMs)
                && (forall i :: k <= i < |bars| ==> bars[i].openTime >= fromMs)
  }

  lemma SliceIsCut(bars: seq<Bar>, fromMs: int)
    requires Ascending(bars)
    ensures CutAt(SliceFrom(bars, fromMs), bars, fromMs)
  {
    var k := FirstIdx(bars, fromMs, 0);
    forall i | k <= i < |bars|
      ensures bars[i].openTime >= fromMs
    {
      assert bars[k].openTime <= bars[i].openTime;
    }
    assert SliceFrom(bars, fromMs) == bars[k..];
  }

  lemma TheWindowIsCut(bars: seq<Bar>, warmupDays: int, spec: Spec)
    requires |bars| > 0 && Ascending(bars)
    ensures var w := TheWindow(bars, warmupDays, spec);
      CutAt(w.bars, bars, w.evalStartMs - warmupDays * 86_400_000)
  {
    SliceIsCut(bars, EvalStart(bars, spec) - Days(warmupDays));
    hide CutAt, SliceFrom, EvalStart;
  }

  /** Every window holds exactly the bars from its warm-up span before the evaluation on. */
  lemma WindowIsCut(bars: seq<Bar>, warmupDays: int, w: Window)
    requires |bars| > 0 && Ascending(bars) && w in Windows(bars, warmupDays)
    ensures CutAt(w.bars, bars, w.evalStartMs - warmupDays * 86_400_000)
  {
    hide Windows, CutAt, TheWindow, Ascending;
    FourWindows(bars, warmupDays);
    TheWindowIsCut(bars, warmupDays, SIX_MONTHS);
    TheWindowIsCut(bars, warmupDays, TWO_YEARS);
    TheWindowIsCut(bars, warmupDays, FIVE_YEARS);
    TheWindowIsCut(bars, warmupDays, FULL);
  }
}
