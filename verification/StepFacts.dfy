/** What one strategy step may emit, stated without the engines that compute it. */
module StepFacts {
  import opened Data
  import opened Calendar
  import opened MarketState
  import opened MacroEngine
  import opened MicroEngine
  import opened Lot
  import opened Strategy

  /** A BUY spends spendable cash on the dead stack; a SELL comes out of the floating stack. */
  ghost predicate LegalTrade(t: Option<TradeIntent>, p: PortfolioState) {
    t.Some? ==>
      || (&& t.value.action == BUY && t.value.lotType == DEAD_STACK
          && 0.0 < t.value.amountUSDT <= p.spendableUSDT)
      || (&& t.value.action == SELL && t.value.lotType == FLOATING
          && 0.0 < t.value.qtyAsset <= p.floatStack)
  }

  ghost predicate LegalRelease(r: Option<TradeIntent>, p: PortfolioState, spawn: SpawnPoint) {
    r.Some? ==>
      && r.value.action == RELEASE && p.deadStack > 0.0 && spawn.releaseRatio > 0.0
      && r.value.qtyAsset == ReleaseQty(p.deadStack, spawn.releaseRatio) > 0.0
  }

  lemma OrderWithinCash(t: Tier, p: PortfolioState)
    requires p.spendableUSDT > 0.0 && 0.0 < t.spendPct <= 0.15
    requires TierAmount(t, p) >= MACRO_MIN_ORDER_USDT
    ensures OrderAmount(t, p) == TierAmount(t, p)
    ensures 0.0 < OrderAmount(t, p) <= p.spendableUSDT
    ensures OrderAmount(t, p) <= Share(p.spendableUSDT, t.spendPct) + 0.005
  {}

  lemma MacroLegal(price: real, p: PortfolioState, c: Chromosome, rt: RuntimeState, month: MonthKey)
    ensures LegalTrade(MacroDecision(price, p, c, rt, month).intent, p)
    ensures MacroDecision(price, p, c, rt, month).intent.Some? ==>
              MacroDecision(price, p, c, rt, month).intent.value.action == BUY
  {
    var r := RollMonth(rt, price, month);
    if p.spendableUSDT > 0.0 && r.monthHigh > 0.0 {
      var tiers := Tiers(r.monthHigh, c.dcaDropPct);
      var d := FirstFiring(tiers, 0, price, p, r);
      FirstFiringTier(tiers, 0, price, p, r);
      if d.intent.Some? {
        var i :| 0 <= i < |tiers| && Fires(tiers[i], price, p, r) && d == Fire(tiers[i], p, r);
        OrderWithinCash(tiers[i], p);
      }
    }
  }

  /** In a bull market the micro engine sells all of the floating stack (stop-loss) or less
      than 5% of it. */
  lemma MicroLegal(env: Env, price: real, ema200: real, p: PortfolioState, c: Chromosome, rt: RuntimeState)
    requires Logistic(env) && price > ema200
    ensures var d := ComputeMicroDecision(env, price, ema200, p, c, rt);
      && LegalTrade(d.intent, p)
      && (d.intent.Some? ==> d.intent.value.action == SELL && !rt.stopLossHit)
      && (d.intent.Some? && !d.rt.stopLossHit ==> d.intent.value.qtyAsset <= p.floatStack * R_TICK_MAX_SELL)
      && (d.intent.Some? && d.rt.stopLossHit ==> d.intent.value.qtyAsset == p.floatStack)
  {
    if p.floatStack > 0.0 && ema200 > 0.0 {
      SignalAboveHalf(env, price, ema200, c);
      SellShare(p.floatStack, Signal(env, price, ema200, c));
    }
  }

  lemma ReleaseLegal(p: PortfolioState, spawn: SpawnPoint, price: real)
    ensures LegalRelease(RunRelease(p, spawn, price), p, spawn)
  {}

  lemma MacroKeepsLatch(price: real, p: PortfolioState, c: Chromosome, rt: RuntimeState, month: MonthKey)
    ensures MacroDecision(price, p, c, rt, month).rt.stopLossHit == rt.stopLossHit
    ensures MacroDecision(price, p, c, rt, month).rt.ema200 == rt.ema200
    ensures MacroDecision(price, p, c, rt, month).rt.ema200History == rt.ema200History
  {
    var r := RollMonth(rt, price, month);
    FirstFiringTier(Tiers(r.monthHigh, c.dcaDropPct), 0, price, p, r);
  }

  /** The trade half of a step. */
  lemma TradeLegal(env: Env, regime: Regime, price: real, month: MonthKey, input: StrategyInput, rt: RuntimeState)
    requires Logistic(env) && (regime == BULL ==> price > rt.ema200)
    ensures var d := Trade(env, regime, price, month, input, rt);
      && LegalTrade(d.intent, input.portfolio)
      && (rt.stopLossHit ==> d.rt.stopLossHit)
      && (d.intent.Some? && d.intent.value.action == SELL ==> !rt.stopLossHit)
      && (d.intent.Some? && d.intent.value.action == SELL && !d.rt.stopLossHit
          ==> d.intent.value.qtyAsset <= input.portfolio.floatStack * R_TICK_MAX_SELL)
      && (d.intent.Some? && d.intent.value.action == SELL && d.rt.stopLossHit
          ==> d.intent.value.qtyAsset == input.portfolio.floatStack)
  {
    match regime
    case QUIET =>
    case BEAR =>
      MacroLegal(price, input.portfolio, input.params, rt, month);
      MacroKeepsLatch(price, input.portfolio, input.params, rt, month);
    case BULL =>
      MicroLegal(env, price, rt.ema200, input.portfolio, input.params, rt);
  }

  lemma BullIsAboveAverage(sigma: real, price: real, rt: RuntimeState)
    ensures Classify(sigma, price, rt) == BULL ==> price > rt.ema200
  {}

  /** The trade of an intent list, if it starts with one. */
  function TradeIn(intents: seq<TradeIntent>): Option<TradeIntent> {
    if |intents| > 0 && intents[0].action != RELEASE then Some(intents[0]) else None
  }

  /** The release of an intent list, if it ends with one. */
  function ReleaseIn(intents: seq<TradeIntent>): Option<TradeIntent> {
    if |intents| > 0 && intents[|intents| - 1].action == RELEASE then Some(intents[|intents| - 1]) else None
  }

  predicate WholeCents(v: real) {
    (v * 100.0).Floor as real == v * 100.0
  }

  /** An order that can be written down: a dead-stack buy of whole cents, or a floating sell. */
  ghost predicate WellShaped(t: Option<TradeIntent>) {
    t.Some? ==>
      || (&& t.value.action == BUY && t.value.engine == MACRO && t.value.lotType == DEAD_STACK
          && WholeCents(t.value.amountUSDT))
      || (t.value.action == SELL && t.value.engine == MICRO && t.value.lotType == FLOATING)
  }

  lemma MacroShape(price: real, p: PortfolioState, c: Chromosome, rt: RuntimeState, month: MonthKey)
    ensures WellShaped(MacroDecision(price, p, c, rt, month).intent)
  {
    var r := RollMonth(rt, price, month);
    FirstFiringTier(Tiers(r.monthHigh, c.dcaDropPct), 0, price, p, r);
    forall t: Tier
      ensures WholeCents(OrderAmount(t, p))
    {}
    hide WholeCents, OrderAmount, Fires, Tiers, RollMonth, FirstFiring;
  }

  /** The shape of every step's output: at most one order, then at most one release. */
  lemma StepShape(env: Env, input: StrategyInput)
    ensures var intents := Step(env, input).intents;
      && intents == ToSeq(TradeIn(intents)) + ToSeq(ReleaseIn(intents))
      && WellShaped(TradeIn(intents))
  {
    hide Sigma24h, Indicators, Classify, MonthOfInput, MacroDecision, WholeCents;
    if |input.closes| >= MIN_BARS_REQUIRED {
      var price := input.closes[|input.closes| - 1];
      var (regime, rt) := ComputeMarketState(input.closes, input.highs, input.lows, price, input.runtime);
      MacroShape(price, input.portfolio, input.params, rt, MonthOfInput(env, input));
    }
  }

  /** One step emits at most one trade, then at most one release, both within the portfolio;
      the stop-loss latch never clears and silences every later sell. */
  lemma StepLegal(env: Env, input: StrategyInput)
    requires Logistic(env)
    ensures var out := Step(env, input);
      var t, r := TradeIn(out.intents), ReleaseIn(out.intents);
      && out.intents == ToSeq(t) + ToSeq(r)
      && LegalTrade(t, input.portfolio) && LegalRelease(r, input.portfolio, input.spawn)
      && (input.runtime.stopLossHit ==> out.runtime.stopLossHit)
      && (t.Some? && t.value.action == SELL ==> !input.runtime.stopLossHit)
      && (t.Some? && t.value.action == SELL && !out.runtime.stopLossHit
          ==> t.value.qtyAsset <= input.portfolio.floatStack * R_TICK_MAX_SELL)
      && (t.Some? && t.value.action == SELL && out.runtime.stopLossHit
          ==> t.value.qtyAsset == input.portfolio.floatStack)
  {
    hide Sigma24h, NextEma, PushHistory, Classify, Trade, RunRelease, MonthOfInput, MonthKeyOf;
    if |input.closes| >= MIN_BARS_REQUIRED {
      var price := input.closes[|input.closes| - 1];
      var (regime, rt) := ComputeMarketState(input.closes, input.highs, input.lows, price, input.runtime);
      BullIsAboveAverage(Sigma24h(input.highs, input.lows), price, rt);
      if regime != QUIET {
        TradeLegal(env, regime, price, MonthOfInput(env, input), input, rt);
        ReleaseLegal(input.portfolio, input.spawn, price);
      }
    }
  }
}
