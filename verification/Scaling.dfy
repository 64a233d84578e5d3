/** A change of the unit in which the asset is counted: prices times c, quantities times
    k = 1/c.  Every engine commutes with it. */
module Scaling {
  import opened Data
  import opened Numeric
  import opened Ema
  import opened MarketState
  import opened MacroEngine
  import opened MicroEngine
  import opened Lot
  import opened Strategy

  function Times(k: real, x: real): real {
    k * x
  }

  /** c new price units per old one, k = 1/c new quantity units per old one. */
  ghost predicate Units(c: real, k: real) {
    c > 0.0 && k > 0.0 && c * k == 1.0
  }

  function ScaleSeq(s: seq<real>, c: real): (r: seq<real>)
    ensures |r| == |s| && forall i :: 0 <= i < |s| ==> r[i] == Times(c, s[i])
  {
    seq(|s|, i requires 0 <= i < |s| => Times(c, s[i]))
  }

  function ScaleP(p: PortfolioState, k: real): PortfolioState {
    p.(deadStack := Times(k, p.deadStack), floatStack := Times(k, p.floatStack),
       coldSealedStack := Times(k, p.coldSealedStack))
  }

  function ScaleRt(rt: RuntimeState, c: real): RuntimeState {
    rt.(ema200 := Times(c, rt.ema200), ema200History := ScaleSeq(rt.ema200History, c),
        monthHigh := Times(c, rt.monthHigh))
  }

  function ScaleIntent(x: TradeIntent, k: real): TradeIntent {
    x.(qtyAsset := Times(k, x.qtyAsset))
  }

  function ScaleOption(o: Option<TradeIntent>, k: real): Option<TradeIntent> {
    match o
    case None => None
    case Some(x) => Some(ScaleIntent(x, k))
  }

  function ScaleDecision(d: Decision, c: real, k: real): Decision {
    Decision(ScaleOption(d.intent, k), ScaleRt(d.rt, c))
  }

  function ScaleIntents(s: seq<TradeIntent>, k: real): (r: seq<TradeIntent>)
    ensures |r| == |s| && forall i :: 0 <= i < |s| ==> r[i] == ScaleIntent(s[i], k)
  {
    seq(|s|, i requires 0 <= i < |s| => ScaleIntent(s[i], k))
  }

  function ScaleInput(x: StrategyInput, c: real, k: real): StrategyInput {
    x.(closes := ScaleSeq(x.closes, c), highs := ScaleSeq(x.highs, c), lows := ScaleSeq(x.lows, c),
       portfolio := ScaleP(x.portfolio, k), runtime := ScaleRt(x.runtime, c))
  }

  function ScaleOutput(o: StrategyOutput, c: real, k: real): StrategyOutput {
    StrategyOutput(ScaleIntents(o.intents, k), ScaleRt(o.runtime, c))
  }

  // ----- algebra of scaling

  lemma TimesOrder(k: real, a: real, b: real)
    requires k > 0.0
    ensures Times(k, a) < Times(k, b) <==> a < b
    ensures Times(k, a) == Times(k, b) <==> a == b
  {}

  lemma TimesSign(k: real, a: real)
    requires k > 0.0
    ensures (Times(k, a) < 0.0 <==> a < 0.0) && (Times(k, a) == 0.0 <==> a == 0.0)
    ensures Times(k, 0.0) == 0.0
  {}

  lemma TimesSum(k: real, a: real, b: real)
    ensures Times(k, a + b) == Times(k, a) + Times(k, b)
    ensures Times(k, a - b) == Times(k, a) - Times(k, b)
  {}

  lemma TimesCommute(k: real, a: real, b: real)
    ensures Times(k, a) * b == Times(k, a * b)
    ensures a * Times(k, b) == Times(k, a * b)
  {}

  lemma ValueUnscaled(c: real, k: real, qty: real, price: real)
    requires Units(c, k)
    ensures Notional(Times(k, qty), Times(c, price)) == Notional(qty, price)
  {}

  lemma RatioUnscaled(c: real, a: real, b: real)
    requires c > 0.0 && b != 0.0
    ensures Times(c, b) != 0.0
    ensures Times(c, a) / Times(c, b) == a / b
  {}

  // ----- indicators

  lemma UpdateScaled(prev: real, price: real, c: real, period: int)
    ensures UpdateEMA(Times(c, prev), Times(c, price), period) == Times(c, UpdateEMA(prev, price, period))
  {}

  lemma TimesNothing(c: real)
    ensures Times(c, 0.0) == 0.0
  {}

  lemma {:induction false} EmaScaled(s: seq<real>, c: real, period: int)
    ensures EMA(ScaleSeq(s, c), period) == Times(c, EMA(s, period))
  {
    hide Times, UpdateEMA;
    if |s| == 0 || period <= 0 {
      TimesNothing(c);
    } else if |s| > 1 {
      var init := s[..|s| - 1];
      assert ScaleSeq(s, c)[..|s| - 1] == ScaleSeq(init, c);
      EmaScaled(init, c, period);
      UpdateScaled(EMA(init, period), s[|s| - 1], c, period);
    }
  }

  lemma {:induction false} ExtremesScaled(s: seq<real>, c: real)
    requires |s| > 0 && c > 0.0
    ensures Highest(ScaleSeq(s, c)) == Times(c, Highest(s))
    ensures Lowest(ScaleSeq(s, c)) == Times(c, Lowest(s))
  {
    hide Times;
    if |s| == 1 {
    } else {
      var init, last := s[..|s| - 1], s[|s| - 1];
      assert ScaleSeq(s, c)[..|s| - 1] == ScaleSeq(init, c);
      ExtremesScaled(init, c);
      TimesOrder(c, Highest(init), last);
      TimesOrder(c, last, Lowest(init));
    }
  }

  lemma SigmaScaled(highs: seq<real>, lows: seq<real>, c: real)
    requires c > 0.0
    ensures Sigma24h(ScaleSeq(highs, c), ScaleSeq(lows, c)) == Sigma24h(highs, lows)
  {
    hide Times, Highest, Lowest;
    var n := |highs|;
    if n > 0 && |lows| == n {
      var st := WindowStart(n);
      assert ScaleSeq(highs, c)[st..] == ScaleSeq(highs[st..], c);
      assert ScaleSeq(lows, c)[st..] == ScaleSeq(lows[st..], c);
      ExtremesScaled(highs[st..], c);
      ExtremesScaled(lows[st..], c);
      var h, l := Highest(highs[st..]), Lowest(lows[st..]);
      TimesSign(c, l);
      TimesSum(c, h, l);
      if l > 0.0 {
        RatioUnscaled(c, h - l, l);
      }
    }
  }

  lemma HistoryScaled(hist: seq<real>, v: real, c: real)
    ensures PushHistory(ScaleSeq(hist, c), Times(c, v)) == ScaleSeq(PushHistory(hist, v), c)
  {}

  lemma IndicatorsScaled(closes: seq<real>, price: real, rt: RuntimeState, c: real)
    requires c > 0.0
    ensures Indicators(ScaleSeq(closes, c), Times(c, price), ScaleRt(rt, c))
         == ScaleRt(Indicators(closes, price, rt), c)
  {
    hide Times, EMA, UpdateEMA, PushHistory;
    TimesSign(c, rt.ema200);
    EmaScaled(closes, c, EMA200_PERIOD);
    UpdateScaled(rt.ema200, price, c, EMA200_PERIOD);
    HistoryScaled(rt.ema200History, NextEma(closes, price, rt), c);
  }

  lemma ClassifyScaled(sigma: real, price: real, rt: RuntimeState, c: real)
    requires c > 0.0
    ensures Classify(sigma, Times(c, price), ScaleRt(rt, c)) == Classify(sigma, price, rt)
  {}

  lemma MarketScaled(closes: seq<real>, highs: seq<real>, lows: seq<real>, price: real, rt: RuntimeState, c: real)
    requires c > 0.0
    ensures var (regime, rt') := ComputeMarketState(closes, highs, lows, price, rt);
      ComputeMarketState(ScaleSeq(closes, c), ScaleSeq(highs, c), ScaleSeq(lows, c), Times(c, price), ScaleRt(rt, c))
      == (regime, ScaleRt(rt', c))
  {
    IndicatorsScaled(closes, price, rt, c);
    SigmaScaled(highs, lows, c);
    ClassifyScaled(Sigma24h(highs, lows), price, Indicators(closes, price, rt), c);
    hide Times, Indicators, Sigma24h, Classify, ScaleRt;
  }

  // ----- engines

  function ScaleTier(t: Tier, c: real): Tier {
    t.(trigger := Times(c, t.trigger))
  }

  lemma TriggerScaled(monthHigh: real, drop: real, mul: real, c: real)
    ensures Trigger(Times(c, monthHigh), drop, mul) == Times(c, Trigger(monthHigh, drop, mul))
  {}

  lemma TiersScaled(monthHigh: real, drop: real, c: real)
    ensures var ts := Tiers(monthHigh, drop);
      Tiers(Times(c, monthHigh), drop) == [ScaleTier(ts[0], c), ScaleTier(ts[1], c), ScaleTier(ts[2], c)]
  {
    TriggerScaled(monthHigh, drop, 1.0, c);
    TriggerScaled(monthHigh, drop, 1.5, c);
    TriggerScaled(monthHigh, drop, 2.0, c);
    hide Times, Trigger;
  }

  lemma TierScaled(t: Tier, price: real, p: PortfolioState, rt: RuntimeState, c: real, k: real)
    requires Units(c, k)
    ensures Fires(ScaleTier(t, c), Times(c, price), ScaleP(p, k), ScaleRt(rt, c)) <==> Fires(t, price, p, rt)
    ensures Fire(ScaleTier(t, c), ScaleP(p, k), ScaleRt(rt, c)) == ScaleDecision(Fire(t, p, rt), c, k)
  {}

  lemma {:induction false} ScanScaled(
    tiers: seq<Tier>, tiers': seq<Tier>, i: nat, price: real, p: PortfolioState, rt: RuntimeState, c: real, k: real)
    requires Units(c, k) && i <= |tiers| == |tiers'|
    requires forall j :: 0 <= j < |tiers| ==> tiers'[j] == ScaleTier(tiers[j], c)
    ensures FirstFiring(tiers', i, Times(c, price), ScaleP(p, k), ScaleRt(rt, c))
         == ScaleDecision(FirstFiring(tiers, i, price, p, rt), c, k)
    decreases |tiers| - i
  {
    hide Times, Fires, Fire, ScaleP, ScaleRt, ScaleTier;
    if i < |tiers| {
      TierScaled(tiers[i], price, p, rt, c, k);
      ScanScaled(tiers, tiers', i + 1, price, p, rt, c, k);
    }
  }

  lemma RollScaled(rt: RuntimeState, price: real, mk: MonthKey, c: real)
    requires c > 0.0
    ensures RollMonth(ScaleRt(rt, c), Times(c, price), mk) == ScaleRt(RollMonth(rt, price, mk), c)
  {}

  lemma MacroScaled(price: real, p: PortfolioState, ch: Chromosome, rt: RuntimeState, mk: MonthKey, c: real, k: real)
    requires Units(c, k)
    ensures MacroDecision(Times(c, price), ScaleP(p, k), ch, ScaleRt(rt, c), mk)
         == ScaleDecision(MacroDecision(price, p, ch, rt, mk), c, k)
  {
    RollScaled(rt, price, mk, c);
    var r := RollMonth(rt, price, mk);
    TimesSign(c, r.monthHigh);
    TiersScaled(r.monthHigh, ch.dcaDropPct, c);
    ScanScaled(Tiers(r.monthHigh, ch.dcaDropPct), Tiers(Times(c, r.monthHigh), ch.dcaDropPct), 0, price, p, r, c, k);
    hide Times, RollMonth, Tiers, FirstFiring, ScaleSeq, ScaleTier;
  }

  lemma NavScaled(p: PortfolioState, price: real, c: real, k: real)
    requires Units(c, k)
    ensures ScaleP(p, k).Nav(Times(c, price)) == p.Nav(price)
    ensures ScaleP(p, k).Roi(Times(c, price)) == p.Roi(price)
    ensures ScaleP(p, k).Btc() == Times(k, p.Btc())
  {}

  lemma SellScaled(f: real, s: real, k: real)
    ensures SellQty(Times(k, f), s) == Times(k, SellQty(f, s))
  {}

  lemma MicroScaled(
    env: Env, price: real, ema: real, p: PortfolioState, ch: Chromosome, rt: RuntimeState, c: real, k: real)
    requires Units(c, k)
    ensures ComputeMicroDecision(env, Times(c, price), Times(c, ema), ScaleP(p, k), ch, ScaleRt(rt, c))
         == ScaleDecision(ComputeMicroDecision(env, price, ema, p, ch, rt), c, k)
  {
    hide Times, PortfolioState.Roi, SellQty, ScaleSeq;
    NavScaled(p, price, c, k);
    TimesSign(k, p.floatStack);
    TimesSign(c, ema);
    if ema > 0.0 {
      RatioUnscaled(c, price, ema);
      var s := Signal(env, price, ema, ch);
      SellScaled(p.floatStack, s, k);
      TimesSign(k, SellQty(p.floatStack, s));
    }
  }

  lemma ReleaseQtyScaled(dead: real, ratio: real, k: real)
    ensures ReleaseQty(Times(k, dead), ratio) == Times(k, ReleaseQty(dead, ratio))
  {}

  lemma ReleaseScaled(p: PortfolioState, spawn: SpawnPoint, price: real, c: real, k: real)
    requires Units(c, k)
    ensures RunRelease(ScaleP(p, k), spawn, Times(c, price)) == ScaleOption(RunRelease(p, spawn, price), k)
  {
    ReleaseQtyScaled(p.deadStack, spawn.releaseRatio, k);
    hide Times, PortfolioState.Roi, ReleaseQty;
    NavScaled(p, price, c, k);
    TimesSign(k, p.deadStack);
    TimesSign(c, price);
    TimesSign(k, ReleaseQty(p.deadStack, spawn.releaseRatio));
  }

  lemma TradeScaled(
    env: Env, regime: Regime, price: real, mk: MonthKey, x: StrategyInput, rt: RuntimeState, c: real, k: real)
    requires Units(c, k)
    ensures Trade(env, regime, Times(c, price), mk, ScaleInput(x, c, k), ScaleRt(rt, c))
         == ScaleDecision(Trade(env, regime, price, mk, x, rt), c, k)
  {
    MacroScaled(price, x.portfolio, x.params, rt, mk, c, k);
    MicroScaled(env, price, rt.ema200, x.portfolio, x.params, rt, c, k);
    hide Times, MacroDecision, ComputeMicroDecision, ScaleSeq;
  }

  lemma IntentsScaled(t: Option<TradeIntent>, r: Option<TradeIntent>, k: real)
    ensures ToSeq(ScaleOption(t, k)) + ToSeq(ScaleOption(r, k)) == ScaleIntents(ToSeq(t) + ToSeq(r), k)
  {}

  /** The whole step commutes with a change of unit. */
  lemma StepScaled(env: Env, x: StrategyInput, c: real, k: real)
    requires Units(c, k)
    ensures Step(env, ScaleInput(x, c, k)) == ScaleOutput(Step(env, x), c, k)
  {
    hide Times, ComputeMarketState, Trade, RunRelease, ScaleRt, ScaleP, ScaleIntent;
    if |x.closes| >= MIN_BARS_REQUIRED {
      var price := x.closes[|x.closes| - 1];
      MarketScaled(x.closes, x.highs, x.lows, price, x.runtime, c);
      var (regime, rt) := ComputeMarketState(x.closes, x.highs, x.lows, price, x.runtime);
      var mk := MonthOfInput(env, x);
      assert MonthOfInput(env, ScaleInput(x, c, k)) == mk;
      hide MonthOfInput;
      TradeScaled(env, regime, price, mk, x, rt, c, k);
      ReleaseScaled(x.portfolio, x.spawn, price, c, k);
      IntentsScaled(Trade(env, regime, price, mk, x, rt).intent, RunRelease(x.portfolio, x.spawn, price), k);
    }
    assert ScaleIntents([], k) == [];
  }
}
