/** The macro engine over one natural month: each tier at most once, and how much of the
    spendable cash it can deploy. */
module Monthly {
  import opened Data
  import opened Numeric
  import opened Calendar
  import opened MarketState
  import opened MacroEngine
  import opened MicroEngine
  import opened Strategy
  import opened Backtest
  import opened StepFacts
  import opened Safety
  import opened WarmUp

  /** The tiers that have fired in month mk. */
  function FiredIn(rt: RuntimeState, mk: MonthKey): seq<int> {
    if rt.month == mk then rt.triggeredTiers else []
  }

  function TierPct(id: int): real {
    if id == 1 then 0.05 else if id == 2 then 0.10 else 0.15
  }

  /** From one runtime state to the next within month mk: tier id fires, or none does. */
  ghost predicate TierFires(rt: RuntimeState, rt': RuntimeState, mk: MonthKey, id: int) {
    && 1 <= id <= 3 && id !in FiredIn(rt, mk)
    && FiredIn(rt', mk) == FiredIn(rt, mk) + [id]
  }

  lemma MacroTiers(price: real, p: PortfolioState, c: Chromosome, rt: RuntimeState, mk: MonthKey)
    ensures var d := MacroDecision(price, p, c, rt, mk);
      if d.intent.None? then FiredIn(d.rt, mk) == FiredIn(rt, mk)
      else exists id :: && TierFires(rt, d.rt, mk, id)
                        && d.intent.value.amountUSDT <= Share(p.spendableUSDT, TierPct(id)) + 0.005
  {
    var r := RollMonth(rt, price, mk);
    assert r.month == mk && r.triggeredTiers == FiredIn(rt, mk);
    if p.spendableUSDT > 0.0 && r.monthHigh > 0.0 {
      var tiers := Tiers(r.monthHigh, c.dcaDropPct);
      var d := FirstFiring(tiers, 0, price, p, r);
      FirstFiringTier(tiers, 0, price, p, r);
      if d.intent.Some? {
        var k :| 0 <= k < |tiers| && Fires(tiers[k], price, p, r) && d == Fire(tiers[k], p, r);
        OrderWithinCash(tiers[k], p);
        assert TierPct(tiers[k].id) == tiers[k].spendPct;
        hide Share, TierAmount, OrderAmount, TierPct, Tiers, RollMonth;
        assert TierFires(rt, d.rt, mk, tiers[k].id);
      }
    }
  }

  /** A step fires a tier exactly when it emits a BUY, whose amount is bounded by the tier. */
  lemma StepTiers(env: Env, input: StrategyInput)
    requires Logistic(env)
    ensures var out, mk, t := Step(env, input), MonthOfInput(env, input), TradeIn(Step(env, input).intents);
      if t.Some? && t.value.action == BUY
      then exists id :: && TierFires(input.runtime, out.runtime, mk, id)
                        && t.value.amountUSDT <= Share(input.portfolio.spendableUSDT, TierPct(id)) + 0.005
      else FiredIn(out.runtime, mk) == FiredIn(input.runtime, mk)
  {
    hide Sigma24h, NextEma, PushHistory, MacroDecision, MonthOfInput, Signal, SellQty, PortfolioState.Roi;
    hide Share, TierPct, Lot.TryReleaseDeadToFloat;
    if |input.closes| >= MIN_BARS_REQUIRED {
      var price := input.closes[|input.closes| - 1];
      var (regime, rt) := ComputeMarketState(input.closes, input.highs, input.lows, price, input.runtime);
      var mk := MonthOfInput(env, input);
      MacroTiers(price, input.portfolio, input.params, rt, mk);
      MacroLegal(price, input.portfolio, input.params, rt, mk);
      if regime == BEAR && MacroDecision(price, input.portfolio, input.params, rt, mk).intent.Some? {
        var d := MacroDecision(price, input.portfolio, input.params, rt, mk);
        var id :| TierFires(rt, d.rt, mk, id)
               && d.intent.value.amountUSDT <= Share(input.portfolio.spendableUSDT, TierPct(id)) + 0.005;
        assert TierFires(input.runtime, Step(env, input).runtime, mk, id);
      }
      hide Classify;
    }
  }

  function TierKeeps(fired: seq<int>, id: int, cash: real): real {
    if id in fired then cash
    else if id == 1 then cash * 0.95
    else if id == 2 then cash * 0.90
    else cash * 0.85
  }

  /** What is left of the cash after every tier not in the list has taken its full share. */
  function WorstLeft(fired: seq<int>, cash: real): real {
    TierKeeps(fired, 1, TierKeeps(fired, 2, TierKeeps(fired, 3, cash)))
  }

  function Pending(fired: seq<int>): int {
    (if 1 in fired then 0 else 1) + (if 2 in fired then 0 else 1) + (if 3 in fired then 0 else 1)
  }

  /** The guarantee that never falls within a month: the worst case left, less half a cent
      of rounding for each tier still to fire. */
  function Guarantee(fired: seq<int>, cash: real): real {
    WorstLeft(fired, cash) - 0.005 * Pending(fired) as real
  }

  lemma GuaranteeBounds(fired: seq<int>, cash: real)
    requires cash >= 0.0
    ensures cash >= Guarantee(fired, cash)
    ensures Guarantee(fired, cash) >= 0.95 * 0.90 * 0.85 * cash - 0.015
  {}

  lemma GuaranteeGrowsWithCash(fired: seq<int>, cash: real, cash': real)
    requires cash <= cash'
    ensures Guarantee(fired, cash) <= Guarantee(fired, cash')
  {}

  lemma FiringKeepsGuarantee(fired: seq<int>, id: int, cash: real, cash': real)
    requires 1 <= id <= 3 && id !in fired
    requires cash' >= cash - (Share(cash, TierPct(id)) + 0.005)
    ensures Guarantee(fired + [id], cash') >= Guarantee(fired, cash)
  {}

  /** One legal output: a BUY costs no more than its amount, anything else costs nothing. */
  lemma SlotCash(t: Option<TradeIntent>, r: Option<TradeIntent>, spawn: SpawnPoint, p: PortfolioState, m: Terms)
    requires m.price > 0.0 && ValidFee(m.fee) && Sound(spawn, p)
    requires LegalTrade(t, p) && LegalRelease(r, p, spawn)
    ensures ExecuteAll(ToSeq(t) + ToSeq(r), p, m).spendableUSDT
         >= p.spendableUSDT - (if t.Some? && t.value.action == BUY then t.value.amountUSDT else 0.0)
  {
    ExecuteTwo(t, r, p, m);
    if t.Some? {
      LegalTradeFills(t.value, spawn, p, m);
      var f := FillOf(t.value, p, m);
      if f.Sold? {
        ProceedsNonNegative(f.qty, m);
      }
    }
    hide Notional, Proceeds, BuyQty, SnapToStep, LotRefused;
  }

  lemma CashNonNegative(spawn: SpawnPoint, p: PortfolioState)
    requires Sound(spawn, p)
    ensures p.spendableUSDT >= 0.0
  {}

  lemma TradeIsPositive(t: TradeIntent, p: PortfolioState)
    requires LegalTrade(Some(t), p) && t.action == BUY
    ensures t.amountUSDT > 0.0
  {}

  /** One evaluation bar: whatever fires, the guarantee for its month does not fall. */
  lemma BarGuarantee(env: Env, cfg: Config, i: nat)
    requires Logistic(env) && ValidFee(cfg.takerFee) && i < |cfg.bars|
    requires Ready(env, cfg, i).inEval
    ensures var mk := MonthKeyOf(env, cfg.bars[i].openTime);
      Guarantee(FiredIn(RunTo(env, cfg, i + 1).runtime, mk), RunTo(env, cfg, i + 1).portfolio.spendableUSDT)
      >= Guarantee(FiredIn(RunTo(env, cfg, i).runtime, mk), Ready(env, cfg, i).portfolio.spendableUSDT)
  {
    hide Step, ExecuteAll, Guarantee, Sound, LegalTrade, LegalRelease, Opened, FiredIn, Share, TierPct;
    RunSafe(env, cfg, i);
    FoldBar(env, cfg, i);
    ReadyRuntime(env, cfg, i);
    var ready, out, mk := Ready(env, cfg, i), Output(env, cfg, i), MonthKeyOf(env, cfg.bars[i].openTime);
    var input := InputAt(cfg, i, ready);
    assert MonthOfInput(env, input) == mk;
    StepLegal(env, input);
    StepTiers(env, input);
    var t, r := TradeIn(out.intents), ReleaseIn(out.intents);
    var cash, cash' := ready.portfolio.spendableUSDT, RunTo(env, cfg, i + 1).portfolio.spendableUSDT;
    if cfg.bars[i].close > 0.0 {
      SlotCash(t, r, cfg.spawn, ready.portfolio, TermsAt(cfg, cfg.bars[i]));
    }
    CashNonNegative(cfg.spawn, ready.portfolio);
    hide RunTo, Ready, Apply, MonthOfInput, InputAt;
    if t.Some? && t.value.action == BUY {
      var id :| TierFires(input.runtime, out.runtime, mk, id)
             && t.value.amountUSDT <= Share(cash, TierPct(id)) + 0.005;
      TradeIsPositive(t.value, ready.portfolio);
      FiringKeepsGuarantee(FiredIn(input.runtime, mk), id, cash, cash');
    } else {
      GuaranteeGrowsWithCash(FiredIn(input.runtime, mk), cash, cash');
    }
  }

  /** Opening a bar inside the evaluation period never takes cash away. */
  lemma OpeningKeepsCash(env: Env, cfg: Config, bar: Bar, s: Sim)
    requires s.inEval && Invariant(cfg, s)
    ensures Opened(env, cfg, bar, s).inEval
    ensures Opened(env, cfg, bar, s).portfolio.spendableUSDT >= s.portfolio.spendableUSDT
  {}

  lemma SameMonth(env: Env, cfg: Config, i: nat, k: nat, j: nat)
    requires MonotoneMonths(env) && Ascending(cfg.bars) && i <= k <= j < |cfg.bars|
    requires MonthKeyOf(env, cfg.bars[i].openTime) == MonthKeyOf(env, cfg.bars[j].openTime)
    ensures MonthKeyOf(env, cfg.bars[k].openTime) == MonthKeyOf(env, cfg.bars[i].openTime)
  {}

  lemma {:induction false} MonthGuarantee(env: Env, cfg: Config, i: nat, j: nat)
    requires Logistic(env) && ValidFee(cfg.takerFee) && MonotoneMonths(env) && Ascending(cfg.bars)
    requires i <= j < |cfg.bars| && Ready(env, cfg, i).inEval
    requires MonthKeyOf(env, cfg.bars[i].openTime) == MonthKeyOf(env, cfg.bars[j].openTime)
    ensures var mk := MonthKeyOf(env, cfg.bars[i].openTime);
      Guarantee(FiredIn(RunTo(env, cfg, j + 1).runtime, mk), RunTo(env, cfg, j + 1).portfolio.spendableUSDT)
      >= Guarantee(FiredIn(RunTo(env, cfg, i).runtime, mk), Ready(env, cfg, i).portfolio.spendableUSDT)
    ensures RunTo(env, cfg, j + 1).inEval
    decreases j - i
  {
    hide Guarantee, FiredIn, Step, MonthKeyOf, Opened, ExecuteAll, Sound;
    FoldBar(env, cfg, j);
    if i == j {
      BarGuarantee(env, cfg, i);
    } else {
      SameMonth(env, cfg, i, j - 1, j);
      MonthGuarantee(env, cfg, i, j - 1);
      RunSafe(env, cfg, j);
      OpeningKeepsCash(env, cfg, cfg.bars[j], RunTo(env, cfg, j));
      var mk := MonthKeyOf(env, cfg.bars[i].openTime);
      BarGuarantee(env, cfg, j);
      GuaranteeGrowsWithCash(FiredIn(RunTo(env, cfg, j).runtime, mk),
                             RunTo(env, cfg, j).portfolio.spendableUSDT, Ready(env, cfg, j).portfolio.spendableUSDT);
    }
  }

  /** From spendable cash S at an evaluation bar to after any later bar of the same month at
      least 0.95 * 0.90 * 0.85 * S - 0.015 stays spendable. */
  lemma MonthlyDeployment(env: Env, cfg: Config, i: nat, j: nat)
    requires Logistic(env) && ValidFee(cfg.takerFee) && MonotoneMonths(env) && Ascending(cfg.bars)
    requires i <= j < |cfg.bars| && Ready(env, cfg, i).inEval
    requires MonthKeyOf(env, cfg.bars[i].openTime) == MonthKeyOf(env, cfg.bars[j].openTime)
    ensures RunTo(env, cfg, j + 1).portfolio.spendableUSDT
         >= 0.95 * 0.90 * 0.85 * Ready(env, cfg, i).portfolio.spendableUSDT - 0.015
  {
    hide Guarantee, FiredIn, RunTo, Ready;
    MonthGuarantee(env, cfg, i, j);
    RunSafe(env, cfg, i);
    RunSafe(env, cfg, j + 1);
    CashNonNegative(cfg.spawn, Ready(env, cfg, i).portfolio);
    CashNonNegative(cfg.spawn, RunTo(env, cfg, j + 1).portfolio);
    var mk := MonthKeyOf(env, cfg.bars[i].openTime);
    GuaranteeBounds(FiredIn(RunTo(env, cfg, i).runtime, mk), Ready(env, cfg, i).portfolio.spendableUSDT);
    GuaranteeBounds(FiredIn(RunTo(env, cfg, j + 1).runtime, mk), RunTo(env, cfg, j + 1).portfolio.spendableUSDT);
  }

  /** Bar i fires the given tier. */
  ghost predicate FiresAt(env: Env, cfg: Config, i: nat, id: int)
    requires i < |cfg.bars|
  {
    TierFires(RunTo(env, cfg, i).runtime, RunTo(env, cfg, i + 1).runtime,
              MonthKeyOf(env, cfg.bars[i].openTime), id)
  }

  lemma BarTiers(env: Env, cfg: Config, i: nat)
    requires Logistic(env) && i < |cfg.bars|
    ensures var mk := MonthKeyOf(env, cfg.bars[i].openTime);
      FiredIn(RunTo(env, cfg, i).runtime, mk) <= FiredIn(RunTo(env, cfg, i + 1).runtime, mk)
    ensures TradeIn(Output(env, cfg, i).intents).Some? && TradeIn(Output(env, cfg, i).intents).value.action == BUY
       <==> exists id :: FiresAt(env, cfg, i, id)
  {
    hide Step, Opened, FiredIn, Share, TierPct, ExecuteAll;
    FoldBar(env, cfg, i);
    ReadyRuntime(env, cfg, i);
    var input := InputAt(cfg, i, Ready(env, cfg, i));
    assert MonthOfInput(env, input) == MonthKeyOf(env, cfg.bars[i].openTime);
    StepTiers(env, input);
    var t, mk := TradeIn(Output(env, cfg, i).intents), MonthOfInput(env, input);
    var rt, rt' := RunTo(env, cfg, i).runtime, RunTo(env, cfg, i + 1).runtime;
    assert rt == input.runtime && rt' == Output(env, cfg, i).runtime;
    hide MonthOfInput, MonthKeyOf, Ready, RunTo;
    if t.Some? && t.value.action == BUY {
      var id :| TierFires(rt, rt', mk, id);
      assert FiresAt(env, cfg, i, id);
    } else {
      assert |FiredIn(rt', mk)| == |FiredIn(rt, mk)|;
      assert forall id :: !FiresAt(env, cfg, i, id);
    }
  }

  lemma {:induction false} FiredTiersStay(env: Env, cfg: Config, i: nat, j: nat)
    requires Logistic(env) && MonotoneMonths(env) && Ascending(cfg.bars) && i <= j < |cfg.bars|
    requires MonthKeyOf(env, cfg.bars[i].openTime) == MonthKeyOf(env, cfg.bars[j].openTime)
    ensures var mk := MonthKeyOf(env, cfg.bars[i].openTime);
      FiredIn(RunTo(env, cfg, i).runtime, mk) <= FiredIn(RunTo(env, cfg, j).runtime, mk)
    decreases j - i
  {
    hide RunTo, FiredIn, MonthKeyOf;
    if i < j {
      SameMonth(env, cfg, i, j - 1, j);
      FiredTiersStay(env, cfg, i, j - 1);
      BarTiers(env, cfg, j - 1);
    }
  }

  /** With ascending timestamps no tier fires twice in a month. */
  lemma TierOncePerMonth(env: Env, cfg: Config, i: nat, j: nat, id: int)
    requires Logistic(env) && MonotoneMonths(env) && Ascending(cfg.bars) && i < j < |cfg.bars|
    requires MonthKeyOf(env, cfg.bars[i].openTime) == MonthKeyOf(env, cfg.bars[j].openTime)
    requires FiresAt(env, cfg, i, id)
    ensures !FiresAt(env, cfg, j, id)
  {
    hide RunTo, FiredIn, MonthKeyOf;
    SameMonth(env, cfg, i, i + 1, j);
    FiredTiersStay(env, cfg, i + 1, j);
    var mk := MonthKeyOf(env, cfg.bars[i].openTime);
    assert id in FiredIn(RunTo(env, cfg, i + 1).runtime, mk);
  }
}
