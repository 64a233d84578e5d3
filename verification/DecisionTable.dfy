/** Exactly when a step orders what, in terms of the market and the portfolio. */
module DecisionTable {
  import opened Data
  import opened Numeric
  import opened Ema
  import opened Lot
  import opened MarketState
  import opened MacroEngine
  import opened MicroEngine
  import opened Strategy
  import opened StepFacts
  import opened Backtest

  function Price(input: StrategyInput): real
    requires |input.closes| > 0
  {
    input.closes[|input.closes| - 1]
  }

  function Updated(input: StrategyInput): RuntimeState
    requires |input.closes| > 0
  {
    Indicators(input.closes, Price(input), input.runtime)
  }

  /** Enough history, and among the last 24 bars a high at least 1.5% above a low. */
  ghost predicate Active(input: StrategyInput) {
    |input.closes| >= 24 && WideRange(input.highs, input.lows)
  }

  /** Above a rising average. */
  ghost predicate Rising(input: StrategyInput)
    requires |input.closes| > 0
  {
    Price(input) > Updated(input).ema200 && Ema200Slope(Updated(input).ema200History) > 0.0
  }

  ghost predicate Has(intents: seq<TradeIntent>, a: Action) {
    exists x :: x in intents && x.action == a
  }

  /** The tiers that have fired in the month of the step. */
  function FiredThisMonth(rt: RuntimeState, month: MonthKey): seq<int> {
    if month == rt.month then rt.triggeredTiers else []
  }

  /** The high that the tiers hang from: the price in a new month, else the highest so far. */
  function HighOfMonth(rt: RuntimeState, price: real, month: MonthKey): real {
    if month == rt.month && price <= rt.monthHigh then rt.monthHigh else price
  }

  /** What tier j spends: j times 5% of the cash, in whole cents. */
  function TierShare(cash: real, j: int): real {
    RoundToUSDT(cash * (0.05 * j as real))
  }

  /** The price under which tier j buys: (1 + j) / 2 drops below the month high. */
  function TierLine(high: real, drop: real, j: int): real {
    high * (1.0 - drop * ((1 + j) as real / 2.0))
  }

  /** Tier j of three: the price is below its line, it has not fired this month, and its
      share of the cash is enough for an order. */
  predicate TierOpen(price: real, high: real, drop: real, fired: seq<int>, cash: real, j: int) {
    && 1 <= j <= 3
    && price < TierLine(high, drop, j)
    && j !in fired
    && TierShare(cash, j) >= 10.1
  }

  /** The shallowest open tier. */
  ghost predicate BuyingTier(price: real, high: real, drop: real, fired: seq<int>, cash: real, j: int) {
    && TierOpen(price, high, drop, fired, cash, j)
    && forall k :: k < j ==> !TierOpen(price, high, drop, fired, cash, k)
  }

  /** Row j of the engine's table is tier j. */
  ghost predicate SameTier(tiers: seq<Tier>, price: real, p: PortfolioState, drop: real, r: RuntimeState, j: int)
    requires |tiers| == 3 && 1 <= j <= 3
  {
    var t := tiers[j - 1];
    && t.id == j && TierAmount(t, p) == TierShare(p.spendableUSDT, j)
    && (Fires(t, price, p, r) <==> TierOpen(price, r.monthHigh, drop, r.triggeredTiers, p.spendableUSDT, j))
    && (p.spendableUSDT > 0.0 && Fires(t, price, p, r) ==> OrderAmount(t, p) == TierAmount(t, p))
  }

  lemma TableRow(high: real, drop: real, j: int)
    requires 1 <= j <= 3
    ensures |Tiers(high, drop)| == 3
    ensures Tiers(high, drop)[j - 1] == Tier(j, TierLine(high, drop, j), 0.05 * j as real)
  {
    var mul := (1 + j) as real / 2.0;
    assert mul == if j == 1 then 1.0 else if j == 2 then 1.5 else 2.0;
    assert 0.05 * j as real == if j == 1 then 0.05 else if j == 2 then 0.10 else 0.15;
    assert TierLine(high, drop, j) == Trigger(high, drop, mul);
    hide TierLine, Trigger;
  }

  lemma TierFiresIff(price: real, p: PortfolioState, c: Chromosome, r: RuntimeState, j: int)
    requires 1 <= j <= 3
    ensures |Tiers(r.monthHigh, c.dcaDropPct)| == 3
    ensures SameTier(Tiers(r.monthHigh, c.dcaDropPct), price, p, c.dcaDropPct, r, j)
  {
    TableRow(r.monthHigh, c.dcaDropPct, j);
    hide Tiers, TierLine, RoundToUSDT, OrderAmount;
    var t := Tiers(r.monthHigh, c.dcaDropPct)[j - 1];
    assert TierAmount(t, p) == TierShare(p.spendableUSDT, j);
    if p.spendableUSDT > 0.0 && Fires(t, price, p, r) {
      OrderWithinCash(t, p);
    }
    hide TierAmount, TierShare;
  }

  lemma OpenInTable(price: real, high: real, drop: real, fired: seq<int>, cash: real, j: int)
    ensures TierOpen(price, high, drop, fired, cash, j) ==> 1 <= j <= 3
  {}

  /** The tier scan buys at the shallowest open tier. */
  lemma ScanTable(tiers: seq<Tier>, price: real, p: PortfolioState, drop: real, r: RuntimeState)
    requires |tiers| == 3 && p.spendableUSDT > 0.0
    requires forall j :: 1 <= j <= 3 ==> SameTier(tiers, price, p, drop, r, j)
    ensures var d := FirstFiring(tiers, 0, price, p, r);
      && d.rt.month == r.month && d.rt.monthHigh == r.monthHigh
      && (if d.intent.None? then
            && d.rt.triggeredTiers == r.triggeredTiers
            && forall j :: !TierOpen(price, r.monthHigh, drop, r.triggeredTiers, p.spendableUSDT, j)
          else exists j ::
            && BuyingTier(price, r.monthHigh, drop, r.triggeredTiers, p.spendableUSDT, j)
            && d.intent.value.amountUSDT == TierShare(p.spendableUSDT, j)
            && d.rt.triggeredTiers == r.triggeredTiers + [j])
  {
    hide Fires, TierAmount, OrderAmount, TierShare, TierOpen;
    FirstFiringTier(tiers, 0, price, p, r);
    var d := FirstFiring(tiers, 0, price, p, r);
    forall k | 1 <= k <= 3
      ensures Fires(tiers[k - 1], price, p, r)
         <==> TierOpen(price, r.monthHigh, drop, r.triggeredTiers, p.spendableUSDT, k)
    {
      assert SameTier(tiers, price, p, drop, r, k);
    }
    forall k ensures TierOpen(price, r.monthHigh, drop, r.triggeredTiers, p.spendableUSDT, k) ==> 1 <= k <= 3 {
      OpenInTable(price, r.monthHigh, drop, r.triggeredTiers, p.spendableUSDT, k);
    }
    hide FirstFiring;
    if d.intent.Some? {
      var i :| && 0 <= i < |tiers| && Fires(tiers[i], price, p, r) && d == Fire(tiers[i], p, r)
               && forall j :: 0 <= j < i ==> !Fires(tiers[j], price, p, r);
      assert SameTier(tiers, price, p, drop, r, i + 1);
      forall k | k < i + 1
        ensures !TierOpen(price, r.monthHigh, drop, r.triggeredTiers, p.spendableUSDT, k)
      {
        if 1 <= k <= 3 {
          assert !Fires(tiers[k - 1], price, p, r);
        }
      }
      assert BuyingTier(price, r.monthHigh, drop, r.triggeredTiers, p.spendableUSDT, i + 1);
    } else {
      forall k
        ensures !TierOpen(price, r.monthHigh, drop, r.triggeredTiers, p.spendableUSDT, k)
      {
        if 1 <= k <= 3 {
          assert !Fires(tiers[k - 1], price, p, r);
        }
      }
    }
  }

  lemma Rolled(rt: RuntimeState, price: real, month: MonthKey)
    ensures var r := RollMonth(rt, price, month);
      && r.month == month && r.monthHigh == HighOfMonth(rt, price, month)
      && r.triggeredTiers == FiredThisMonth(rt, month)
  {}

  lemma ThreeTiers(high: real, drop: real)
    ensures |Tiers(high, drop)| == 3
  {}

  /** The macro engine, read off the price, the month and the cash. */
  lemma MacroTable(price: real, p: PortfolioState, c: Chromosome, rt: RuntimeState, month: MonthKey)
    ensures var d := MacroDecision(price, p, c, rt, month);
      var high, fired := HighOfMonth(rt, price, month), FiredThisMonth(rt, month);
      && d.rt.month == month && d.rt.monthHigh == high
      && (if d.intent.None? then
            && d.rt.triggeredTiers == fired
            && (p.spendableUSDT > 0.0 && high > 0.0 ==>
                  forall j :: !TierOpen(price, high, c.dcaDropPct, fired, p.spendableUSDT, j))
          else
            && p.spendableUSDT > 0.0 && high > 0.0
            && exists j ::
                 && BuyingTier(price, high, c.dcaDropPct, fired, p.spendableUSDT, j)
                 && d.intent.value.amountUSDT == TierShare(p.spendableUSDT, j)
                 && d.rt.triggeredTiers == fired + [j])
  {
    hide TierOpen, TierShare, SameTier, Tiers, RollMonth, FirstFiring, HighOfMonth, FiredThisMonth, BuyingTier;
    Rolled(rt, price, month);
    var r := RollMonth(rt, price, month);
    var tiers := Tiers(r.monthHigh, c.dcaDropPct);
    ThreeTiers(r.monthHigh, c.dcaDropPct);
    if p.spendableUSDT > 0.0 && r.monthHigh > 0.0 {
      forall j | 1 <= j <= 3
        ensures SameTier(tiers, price, p, c.dcaDropPct, r, j)
      {
        TierFiresIff(price, p, c, r, j);
      }
      ScanTable(tiers, price, p, c.dcaDropPct, r);
    }
  }

  /** Tier j is open, or the shallowest open one, at this step. */
  ghost predicate OpenAt(env: Env, input: StrategyInput, j: int)
    requires |input.closes| > 0
  {
    var month := MonthOfInput(env, input);
    TierOpen(Price(input), HighOfMonth(input.runtime, Price(input), month), input.params.dcaDropPct,
             FiredThisMonth(input.runtime, month), input.portfolio.spendableUSDT, j)
  }

  ghost predicate BuysAt(env: Env, input: StrategyInput, j: int)
    requires |input.closes| > 0
  {
    OpenAt(env, input, j) && forall k :: k < j ==> !OpenAt(env, input, k)
  }

  /** Outside a rising market an active step runs the macro engine on its month and its last
      close; no other step touches the month, its high or its tiers. */
  lemma MacroRuns(env: Env, input: StrategyInput)
    ensures var out, rt := Step(env, input), input.runtime;
      if Active(input) && !Rising(input) then
        var d := MacroDecision(Price(input), input.portfolio, input.params, Updated(input), MonthOfInput(env, input));
        && TradeIn(out.intents) == d.intent && out.runtime == d.rt
      else
        && out.runtime.month == rt.month && out.runtime.monthHigh == rt.monthHigh
        && out.runtime.triggeredTiers == rt.triggeredTiers
        && (TradeIn(out.intents).Some? ==> TradeIn(out.intents).value.action == SELL)
  {
    hide Sigma24h, NextEma, PushHistory, MonthOfInput, Signal, SellQty, PortfolioState.Roi, ReleaseQty, Ema200Slope;
    hide WideRange, MacroDecision;
    SigmaIff(input.highs, input.lows);
    if |input.closes| >= 24 {
      MacroShape(Price(input), input.portfolio, input.params, Updated(input), MonthOfInput(env, input));
    }
  }

  lemma OnlyTradeIn(env: Env, input: StrategyInput, a: Action)
    requires a != RELEASE
    ensures Has(Step(env, input).intents, a)
       <==> TradeIn(Step(env, input).intents).Some? && TradeIn(Step(env, input).intents).value.action == a
    ensures forall x :: x in Step(env, input).intents && x.action == a ==> TradeIn(Step(env, input).intents) == Some(x)
  {
    StepShape(env, input);
    hide Step;
  }

  lemma SameMonthState(input: StrategyInput, price: real, month: MonthKey)
    requires |input.closes| > 0
    ensures HighOfMonth(Updated(input), price, month) == HighOfMonth(input.runtime, price, month)
    ensures FiredThisMonth(Updated(input), month) == FiredThisMonth(input.runtime, month)
  {}

  /** The macro engine at a step, in terms of the state before it. */
  lemma MacroAt(env: Env, input: StrategyInput)
    requires |input.closes| > 0
    ensures var month, cash := MonthOfInput(env, input), input.portfolio.spendableUSDT;
      var d := MacroDecision(Price(input), input.portfolio, input.params, Updated(input), month);
      var high, fired := HighOfMonth(input.runtime, Price(input), month), FiredThisMonth(input.runtime, month);
      && d.rt.month == month && d.rt.monthHigh == high
      && (if d.intent.None? then
            && d.rt.triggeredTiers == fired
            && (cash > 0.0 && high > 0.0 ==> forall j :: !OpenAt(env, input, j))
          else
            && cash > 0.0 && high > 0.0 && d.intent.value.action == BUY
            && exists j ::
                 && BuysAt(env, input, j) && d.intent.value.amountUSDT == TierShare(cash, j)
                 && d.rt.triggeredTiers == fired + [j])
  {
    hide Updated, MonthOfInput, MacroDecision, TierOpen, TierShare, HighOfMonth, FiredThisMonth;
    var month, cash := MonthOfInput(env, input), input.portfolio.spendableUSDT;
    var d := MacroDecision(Price(input), input.portfolio, input.params, Updated(input), month);
    MacroTable(Price(input), input.portfolio, input.params, Updated(input), month);
    MacroLegal(Price(input), input.portfolio, input.params, Updated(input), month);
    SameMonthState(input, Price(input), month);
    if d.intent.Some? {
      var high, fired := HighOfMonth(input.runtime, Price(input), month), FiredThisMonth(input.runtime, month);
      var j :| && BuyingTier(Price(input), high, input.params.dcaDropPct, fired, cash, j)
               && d.intent.value.amountUSDT == TierShare(cash, j) && d.rt.triggeredTiers == fired + [j];
      assert OpenAt(env, input, j);
      assert BuysAt(env, input, j);
    }
  }

  /** A buy happens outside a rising market, with cash, when a tier of the month is open: the
      shallowest open one buys, for its share of the cash, and is marked. */
  lemma WhenBuys(env: Env, input: StrategyInput)
    ensures Has(Step(env, input).intents, BUY)
       <==> (&& Active(input) && !Rising(input) && input.portfolio.spendableUSDT > 0.0
             && HighOfMonth(input.runtime, Price(input), MonthOfInput(env, input)) > 0.0
             && exists j :: OpenAt(env, input, j))
    ensures forall x :: x in Step(env, input).intents && x.action == BUY ==> |input.closes| > 0 && exists j ::
              && BuysAt(env, input, j) && x.amountUSDT == TierShare(input.portfolio.spendableUSDT, j)
              && Step(env, input).runtime.triggeredTiers
                 == FiredThisMonth(input.runtime, MonthOfInput(env, input)) + [j]
  {
    hide Step, Updated, MonthOfInput, MacroDecision, OpenAt, TierShare, HighOfMonth, FiredThisMonth, WideRange;
    OnlyTradeIn(env, input, BUY);
    MacroRuns(env, input);
    if |input.closes| >= 24 {
      MacroAt(env, input);
    }
    hide Has;
  }

  /** The month state: rolled by an active step outside a rising market, untouched by any other. */
  lemma WhenMonthRolls(env: Env, input: StrategyInput)
    ensures var rt, rt', month := input.runtime, Step(env, input).runtime, MonthOfInput(env, input);
      if Active(input) && !Rising(input) then
        && rt'.month == month && rt'.monthHigh == HighOfMonth(rt, Price(input), month)
        && (!Has(Step(env, input).intents, BUY) ==> rt'.triggeredTiers == FiredThisMonth(rt, month))
      else rt'.month == rt.month && rt'.monthHigh == rt.monthHigh && rt'.triggeredTiers == rt.triggeredTiers
  {
    hide Step, Updated, MonthOfInput, MacroDecision, OpenAt, TierShare, HighOfMonth, FiredThisMonth, WideRange;
    OnlyTradeIn(env, input, BUY);
    MacroRuns(env, input);
    if |input.closes| >= 24 {
      MacroAt(env, input);
    }
    hide Has;
  }

  /** The stop-loss latches exactly in an active rising market under the threshold, and stays. */
  lemma WhenLatches(env: Env, input: StrategyInput)
    ensures Step(env, input).runtime.stopLossHit
       <==> || input.runtime.stopLossHit
            || (&& Active(input) && Rising(input)
                && input.portfolio.Roi(Price(input)) < input.params.stopLossThreshold)
  {
    hide Sigma24h, NextEma, PushHistory, MonthOfInput, MacroDecision, Signal, SellQty;
    hide PortfolioState.Roi, ReleaseQty, Ema200Slope, WideRange, RunRelease;
    SigmaIff(input.highs, input.lows);
    if |input.closes| >= 24 {
      MacroKeepsLatch(Price(input), input.portfolio, input.params, Updated(input), MonthOfInput(env, input));
    }
  }

  /** A sell happens in a rising market, before the stop-loss latch, whenever there is a
      floating stack: all of it under the stop-loss threshold, otherwise the sigmoid share. */
  lemma WhenSells(env: Env, input: StrategyInput)
    requires Logistic(env) && input.params.sigmoidSensitivity > 0.0
    ensures var p, stop := input.portfolio, input.params.stopLossThreshold;
      Has(Step(env, input).intents, SELL)
      <==> (&& Active(input) && Rising(input) && !input.runtime.stopLossHit && p.floatStack > 0.0
            && (p.Roi(Price(input)) < stop || Updated(input).ema200 > 0.0))
    ensures forall x :: x in Step(env, input).intents && x.action == SELL ==>
              var p, ema := input.portfolio, Updated(input).ema200;
              if p.Roi(Price(input)) < input.params.stopLossThreshold then x.qtyAsset == p.floatStack
              else ema > 0.0 && x.qtyAsset == SellQty(p.floatStack, Signal(env, Price(input), ema, input.params))
  {
    hide Sigma24h, NextEma, PushHistory, MonthOfInput, MacroDecision, Signal, SellQty;
    hide PortfolioState.Roi, ReleaseQty, Ema200Slope, WideRange;
    SigmaIff(input.highs, input.lows);
    if |input.closes| >= 24 {
      var month := MonthOfInput(env, input);
      MacroLegal(Price(input), input.portfolio, input.params, Updated(input), month);
      if Updated(input).ema200 > 0.0 && Price(input) > Updated(input).ema200 {
        SignalAboveHalf(env, Price(input), Updated(input).ema200, input.params);
        if input.portfolio.floatStack > 0.0 {
          SellShare(input.portfolio.floatStack, Signal(env, Price(input), Updated(input).ema200, input.params));
        }
      }
    }
  }

  /** The input with another last close. */
  function WithClose(input: StrategyInput, close: real): StrategyInput
    requires |input.closes| > 0
  {
    input.(closes := input.closes[..|input.closes| - 1] + [close])
  }

  lemma AverageLags(p: real, q: real, e: real)
    requires 0.0 < p < q && e > 0.0
    ensures 0.0 < UpdateEMA(e, p, 200) && 0.0 < UpdateEMA(e, q, 200)
    ensures p * UpdateEMA(e, q, 200) < q * UpdateEMA(e, p, 200)
  {
    var a: real := 2.0 / 201.0;
    assert Alpha(200) == a;
    var x, y := UpdateEMA(e, p, 200), UpdateEMA(e, q, 200);
    assert x == a * p + (1.0 - a) * e && y == a * q + (1.0 - a) * e;
    assert p * y == a * (p * q) + (1.0 - a) * (p * e);
    assert q * x == a * (p * q) + (1.0 - a) * (q * e);
    assert p * e < q * e;
  }

  /** A higher last close sells more, although it also raises the average it is compared with. */
  lemma HigherCloseSellsMore(env: Env, input: StrategyInput, close: real)
    requires Logistic(env) && input.params.sigmoidSensitivity > 0.0 && input.runtime.ema200 > 0.0
    requires |input.closes| > 0 && 0.0 < Price(input) < close
    requires input.params.stopLossThreshold <= input.portfolio.Roi(Price(input))
    requires input.params.stopLossThreshold <= input.portfolio.Roi(close)
    ensures forall x, y ::
              && x in Step(env, input).intents && x.action == SELL
              && y in Step(env, WithClose(input, close)).intents && y.action == SELL
              ==> x.qtyAsset < y.qtyAsset
  {
    hide Step, PortfolioState.Roi, SellQty, Signal, UpdateEMA, Sigma24h, Ema200Slope, PushHistory;
    var next := WithClose(input, close);
    WhenSells(env, input);
    WhenSells(env, next);
    AverageLags(Price(input), close, input.runtime.ema200);
    assert Updated(input).ema200 == UpdateEMA(input.runtime.ema200, Price(input), 200);
    assert Updated(next).ema200 == UpdateEMA(input.runtime.ema200, close, 200);
    if input.portfolio.floatStack > 0.0 {
      HigherRatioSellsMore(env, Price(input), Updated(input).ema200, close, Updated(next).ema200,
                           input.params, input.portfolio.floatStack);
    }
  }

  lemma QuietIff(sigma: real, price: real, rt: RuntimeState)
    ensures Classify(sigma, price, rt) == QUIET <==> sigma < 0.015
  {}

  lemma ReleaseForm(p: PortfolioState, spawn: SpawnPoint, price: real)
    ensures RunRelease(p, spawn, price).Some? ==>
              RunRelease(p, spawn, price).value
              == TradeIntent(RELEASE, MACRO, DEAD_STACK, 0.0, p.deadStack * spawn.releaseRatio)
  {
    hide PortfolioState.Roi;
  }

  /** A release happens on every active bar at or above the return trigger: nothing re-arms it. */
  lemma WhenReleases(env: Env, input: StrategyInput)
    requires Logistic(env)
    ensures var p := input.portfolio;
      Has(Step(env, input).intents, RELEASE)
      <==> (&& Active(input) && p.deadStack > 0.0 && Price(input) > 0.0 && p.navInitial > 0.0
            && p.Roi(Price(input)) >= input.spawn.roiReleaseTrigger && input.spawn.releaseRatio > 0.0)
    ensures forall x :: x in Step(env, input).intents && x.action == RELEASE ==>
              x == TradeIntent(RELEASE, MACRO, DEAD_STACK, 0.0, input.portfolio.deadStack * input.spawn.releaseRatio)
  {
    hide Sigma24h, NextEma, PushHistory, MonthOfInput, MacroDecision, ComputeMicroDecision;
    hide PortfolioState.Roi, ReleaseQty, Classify, WideRange;
    SigmaIff(input.highs, input.lows);
    if |input.closes| >= 24 {
      var (regime, rt) := ComputeMarketState(input.closes, input.highs, input.lows, Price(input), input.runtime);
      BullIsAboveAverage(Sigma24h(input.highs, input.lows), Price(input), rt);
      QuietIff(Sigma24h(input.highs, input.lows), Price(input), rt);
      TradeLegal(env, regime, Price(input), MonthOfInput(env, input), input, rt);
      ReleaseForm(input.portfolio, input.spawn, Price(input));
      if input.portfolio.deadStack > 0.0 {
        ReleaseShare(input.portfolio.deadStack, input.spawn.releaseRatio);
      }
      hide Trade;
    }
  }

  /** j is one of the 24 bars up to bar i. */
  predicate UpTo(i: int, j: int) {
    0 <= j <= i && j > i - 24
  }

  /** In a backtest, a bar is active exactly when among the 24 bars up to it, whose lows are
      positive, some high is at least 1.5% above some low. */
  lemma ActiveBar(cfg: Config, i: nat, s: Sim)
    requires i < |cfg.bars|
    ensures Active(InputAt(cfg, i, s))
       <==> (&& i >= 23 && (forall j :: UpTo(i, j) ==> cfg.bars[j].low > 0.0)
             && exists a, b :: UpTo(i, a) && UpTo(i, b) && cfg.bars[a].high >= 1.015 * cfg.bars[b].low)
  {
    var input := InputAt(cfg, i, s);
    assert |input.closes| == |input.highs| == |input.lows| == i + 1;
    forall j
      ensures UpTo(i, j) <==> Recent(i + 1, j)
      ensures UpTo(i, j) ==> input.highs[j] == cfg.bars[j].high && input.lows[j] == cfg.bars[j].low
    {}
  }
}
