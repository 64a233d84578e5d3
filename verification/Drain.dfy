/** How fast the two stacks can shrink, and the stop-loss latch over a run. */
module Drain {
  import opened Data
  import opened Numeric
  import opened Lot
  import opened MarketState
  import MacroEngine
  import opened MicroEngine
  import opened Strategy
  import opened Backtest
  import opened StepFacts
  import opened Safety

  function Keep(v: real, factor: real): real {
    v * factor
  }

  /** A value that keeps the given factor of itself n times over. */
  function Decay(v: real, factor: real, n: nat): real {
    if n == 0 then v else Keep(Decay(v, factor, n - 1), factor)
  }

  /** The share of the dead stack that one release leaves. */
  function DeadFactor(spawn: SpawnPoint): real {
    1.0 - ClipFloat64(spawn.releaseRatio, 0.0, 1.0)
  }

  lemma KeepOrder(v: real, w: real, factor: real)
    requires v <= w && factor >= 0.0
    ensures Keep(v, factor) <= Keep(w, factor)
  {}

  lemma FactorAtMostOne(v: real, factor: real)
    requires v >= 0.0 && factor <= 1.0
    ensures Keep(v, factor) <= v
  {}

  lemma LeftOfRelease(dead: real, spawn: SpawnPoint)
    requires dead >= 0.0
    ensures spawn.releaseRatio <= 0.0 ==> Keep(dead, DeadFactor(spawn)) == dead
    ensures 0.0 < spawn.releaseRatio <= 1.0
        ==> Keep(dead, DeadFactor(spawn)) == dead - ReleaseQty(dead, spawn.releaseRatio)
    ensures spawn.releaseRatio > 1.0 ==> Keep(dead, DeadFactor(spawn)) == 0.0
  {}

  /** One legal output: only the quantity sold leaves the floating stack, and no more than
      one release leaves the dead stack. */
  lemma SlotDrain(t: Option<TradeIntent>, r: Option<TradeIntent>, spawn: SpawnPoint, p: PortfolioState, m: Terms)
    requires m.price > 0.0 && ValidFee(m.fee) && Sound(spawn, p)
    requires LegalTrade(t, p) && LegalRelease(r, p, spawn)
    ensures var q := ExecuteAll(ToSeq(t) + ToSeq(r), p, m);
      && q.floatStack >= p.floatStack - (if t.Some? && t.value.action == SELL then t.value.qtyAsset else 0.0)
      && q.deadStack >= Keep(p.deadStack, DeadFactor(spawn))
  {
    ExecuteTwo(t, r, p, m);
    StepKeepsSound(t, r, spawn, p, m);
    LeftOfRelease(p.deadStack, spawn);
    FactorAtMostOne(p.deadStack, DeadFactor(spawn));
    if t.Some? {
      LegalTradeFills(t.value, spawn, p, m);
    }
    var q := ExecuteSlot(t, p, m);
    if r.Some? {
      LegalReleaseFills(r.value, spawn, p, q, m);
    }
    hide Keep, DeadFactor, Notional, Proceeds, NetQty, SnapToStep, ReleaseQty;
  }

  lemma FactorInUnit(spawn: SpawnPoint)
    ensures 0.0 <= DeadFactor(spawn) <= 1.0
  {}

  lemma FivePercentLess(v: real)
    ensures Keep(v, 0.95) == v - v * R_TICK_MAX_SELL
  {}

  /** One bar of the run. */
  lemma BarDrain(env: Env, cfg: Config, i: nat)
    requires Logistic(env) && ValidFee(cfg.takerFee) && i < |cfg.bars|
    ensures var s, s' := RunTo(env, cfg, i), RunTo(env, cfg, i + 1);
      && (s.runtime.stopLossHit ==> s'.runtime.stopLossHit && s'.portfolio.floatStack >= s.portfolio.floatStack)
      && (!s'.runtime.stopLossHit ==> s'.portfolio.floatStack >= Keep(s.portfolio.floatStack, 0.95))
      && s'.portfolio.deadStack >= Keep(s.portfolio.deadStack, DeadFactor(cfg.spawn))
      && s.portfolio.floatStack >= 0.0 && s.portfolio.deadStack >= 0.0
  {
    hide Step, ExecuteAll, LegalTrade, LegalRelease, Keep, DeadFactor;
    RunSafe(env, cfg, i);
    FoldBar(env, cfg, i);
    var s, ready, out := RunTo(env, cfg, i), Ready(env, cfg, i), Output(env, cfg, i);
    StepLegal(env, InputAt(cfg, i, ready));
    FactorAtMostOne(s.portfolio.floatStack, 0.95);
    FivePercentLess(s.portfolio.floatStack);
    FactorAtMostOne(s.portfolio.deadStack, DeadFactor(cfg.spawn)) by {
      FactorInUnit(cfg.spawn);
    }
    if ready.inEval && cfg.bars[i].close > 0.0 {
      SlotDrain(TradeIn(out.intents), ReleaseIn(out.intents), cfg.spawn, ready.portfolio, TermsAt(cfg, cfg.bars[i]));
    }
  }

  /** Over any stretch of a run: the latch stays; once it is set the floating stack never
      falls; until it is set at least 95% of it survives each bar; and each bar leaves the
      dead stack at least its release remainder. */
  lemma {:induction false} RunDrain(env: Env, cfg: Config, i: nat, j: nat)
    requires Logistic(env) && ValidFee(cfg.takerFee) && i <= j <= |cfg.bars|
    ensures var s, s' := RunTo(env, cfg, i), RunTo(env, cfg, j);
      && (s.runtime.stopLossHit ==> s'.runtime.stopLossHit && s'.portfolio.floatStack >= s.portfolio.floatStack)
      && (!s'.runtime.stopLossHit ==> s'.portfolio.floatStack >= Decay(s.portfolio.floatStack, 0.95, j - i))
      && s'.portfolio.deadStack >= Decay(s.portfolio.deadStack, DeadFactor(cfg.spawn), j - i)
    decreases j - i
  {
    hide RunTo, Keep, DeadFactor;
    if i < j {
      RunDrain(env, cfg, i, j - 1);
      BarDrain(env, cfg, j - 1);
      var s, mid := RunTo(env, cfg, i).portfolio, RunTo(env, cfg, j - 1).portfolio;
      FactorInUnit(cfg.spawn);
      KeepOrder(Decay(s.deadStack, DeadFactor(cfg.spawn), j - 1 - i), mid.deadStack, DeadFactor(cfg.spawn));
      if !RunTo(env, cfg, j).runtime.stopLossHit {
        KeepOrder(Decay(s.floatStack, 0.95, j - 1 - i), mid.floatStack, 0.95);
      }
    }
  }

  /** The tick that trips the stop-loss never releases, unless releases trigger below the
      stop-loss threshold. */
  lemma LiquidationExcludesRelease(env: Env, input: StrategyInput)
    requires input.spawn.roiReleaseTrigger >= input.params.stopLossThreshold
    requires !input.runtime.stopLossHit && Step(env, input).runtime.stopLossHit
    ensures forall x :: x in Step(env, input).intents ==> x.action != RELEASE
  {
    hide Sigma24h, NextEma, PushHistory, Signal, SellQty, ReleaseQty, MacroEngine.MacroDecision;
    var price := input.closes[|input.closes| - 1];
    var (regime, rt) := ComputeMarketState(input.closes, input.highs, input.lows, price, input.runtime);
    if regime == BEAR {
      MacroKeepsLatch(price, input.portfolio, input.params, rt, MonthOfInput(env, input));
    }
    assert regime == BULL;
    hide PortfolioState.Roi;
  }
}
