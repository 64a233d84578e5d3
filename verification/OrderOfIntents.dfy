/** Releases first, capped (live), against list order with guards (backtest). */
module OrderOfIntents {
  import opened Data
  import opened Numeric
  import opened Calendar
  import Ledger
  import opened Lot
  import opened MarketState
  import opened MacroEngine
  import opened MicroEngine
  import opened Strategy
  import opened Backtest
  import opened StepFacts
  import opened Safety

  /** The intents that are, or are not, releases, in list order. */
  function OnlyRelease(intents: seq<TradeIntent>, releases: bool): seq<TradeIntent> {
    if |intents| == 0 then []
    else
      var rest := OnlyRelease(intents[1..], releases);
      if (intents[0].action == RELEASE) == releases then [intents[0]] + rest else rest
  }

  /** A live release moves what there is of the dead stack; a backtest release larger than
      the dead stack is refused. */
  function LiveRelease(r: TradeIntent, p: PortfolioState): PortfolioState {
    if r.qtyAsset <= 0.0 then p
    else
      var moved := if r.qtyAsset > p.deadStack then p.deadStack else r.qtyAsset;
      p.(deadStack := p.deadStack - moved, floatStack := p.floatStack + moved)
  }

  function LiveReleases(rs: seq<TradeIntent>, p: PortfolioState): PortfolioState {
    if |rs| == 0 then p else LiveReleases(rs[1..], LiveRelease(rs[0], p))
  }

  /** The live execution of a step: its releases in the ledger, then its orders, filled on
      the same terms as in the backtest. */
  function LiveExecute(intents: seq<TradeIntent>, p: PortfolioState, m: Terms): PortfolioState
    requires m.price > 0.0
  {
    ExecuteAll(OnlyRelease(intents, false), LiveReleases(OnlyRelease(intents, true), p), m)
  }

  /** The live release is the one of the ledger. */
  lemma LiveReleaseIsLedger(db: Ledger.Db, instance: nat, r: TradeIntent, spawn: SpawnPoint)
    requires instance in db.portfolios
    ensures var db' := Ledger.ApplyRelease(db, instance, r.qtyAsset);
      && instance in db'.portfolios
      && Ledger.View(db'.portfolios[instance], spawn) == LiveRelease(r, Ledger.View(db.portfolios[instance], spawn))
  {}

  lemma ReleasesOfOne(r: Option<TradeIntent>, p: PortfolioState)
    ensures LiveReleases(ToSeq(r), p) == if r.Some? then LiveRelease(r.value, p) else p
  {
    hide LiveRelease;
    if r.Some? {
      assert [r.value][1..] == [];
    }
  }

  lemma OnlyReleaseOfOne(r: Option<TradeIntent>)
    requires r.Some? ==> r.value.action == RELEASE
    ensures OnlyRelease(ToSeq(r), true) == ToSeq(r) && OnlyRelease(ToSeq(r), false) == []
  {}

  lemma LiveExecuteOfTwo(t: Option<TradeIntent>, r: Option<TradeIntent>, p: PortfolioState, m: Terms)
    requires m.price > 0.0
    requires t.Some? ==> t.value.action != RELEASE
    requires r.Some? ==> r.value.action == RELEASE
    ensures LiveExecute(ToSeq(t) + ToSeq(r), p, m)
         == ExecuteSlot(t, if r.Some? then LiveRelease(r.value, p) else p, m)
  {
    hide Execute, LiveRelease;
    var all := ToSeq(t) + ToSeq(r);
    var q := if r.Some? then LiveRelease(r.value, p) else p;
    OnlyReleaseOfOne(r);
    OnlyReleaseOfOne(None);
    if t.None? {
      assert all == ToSeq(r);
    } else {
      assert all[0] == t.value && all[1..] == ToSeq(r);
    }
    assert OnlyRelease(all, true) == ToSeq(r) && OnlyRelease(all, false) == ToSeq(t);
    ReleasesOfOne(r, p);
    ExecuteTwo(t, None, q, m);
    assert ToSeq(t) + ToSeq(None) == ToSeq(t);
    hide ExecuteAll, LiveReleases, OnlyRelease;
  }

  /** For every legal pair the two executions agree exactly when nothing is released or the
      ratio is at most one. */
  lemma OrdersAgreeIff(t: Option<TradeIntent>, r: Option<TradeIntent>, spawn: SpawnPoint, p: PortfolioState, m: Terms)
    requires m.price > 0.0 && ValidFee(m.fee)
    requires LegalTrade(t, p) && LegalRelease(r, p, spawn)
    ensures ExecuteSlot(t, if r.Some? then LiveRelease(r.value, p) else p, m) == ExecuteSlot(r, ExecuteSlot(t, p, m), m)
       <==> r.None? || spawn.releaseRatio <= 1.0
  {
    if t.Some? {
      LegalTradeFills(t.value, spawn, p, m);
    }
    if r.Some? {
      ReleaseShare(p.deadStack, spawn.releaseRatio);
    }
    hide Notional, Proceeds, BuyQty, ReleaseQty, SnapToStep;
  }

  /** For every step the live execution gives the portfolio of the backtest exactly when the
      step releases nothing or the release ratio is at most one. */
  lemma LiveAndBacktestAgree(env: Env, input: StrategyInput, m: Terms)
    requires Logistic(env) && m.price > 0.0 && ValidFee(m.fee)
    ensures var intents, p := Step(env, input).intents, input.portfolio;
      LiveExecute(intents, p, m) == ExecuteAll(intents, p, m)
      <==> ReleaseIn(intents).None? || input.spawn.releaseRatio <= 1.0
  {
    hide Step, Execute, FillOf, LiveRelease, LiveExecute, ExecuteAll;
    StepLegal(env, input);
    var intents, p := Step(env, input).intents, input.portfolio;
    var t, r := TradeIn(intents), ReleaseIn(intents);
    LiveExecuteOfTwo(t, r, p, m);
    ExecuteTwo(t, r, p, m);
    OrdersAgreeIff(t, r, input.spawn, p, m);
  }

  // ----- inputs for which they differ

  /** Twenty-four bars around 10, in a month that has seen 20, a dead stack of one bought
      for 10, and a release ratio of two. */
  function DoubleRelease(env: Env, cash: real): StrategyInput {
    var rt := RuntimeState(10.0, [], 20.0, MonthKeyOf(env, 86_400_000), [], false);
    StrategyInput(seq(24, _ => 10.0), seq(24, _ => 11.0), seq(24, _ => 9.0), seq(24, _ => 86_400_000),
                  PortfolioState(cash, 0.0, cash, 1.0, 0.0, 0.0, 10.0), rt,
                  Chromosome(0.10, 5.0, -0.20), SpawnPoint(10.0, 0.0, 0.0, 2.0, 0.0))
  }

  lemma FlatMarket(env: Env, cash: real)
    requires cash >= 0.0
    ensures var x := DoubleRelease(env, cash);
      var rt := Indicators(x.closes, 10.0, x.runtime);
      Step(env, x).intents
      == ToSeq(MacroDecision(10.0, x.portfolio, x.params, rt, x.runtime.month).intent)
       + [TradeIntent(RELEASE, MACRO, DEAD_STACK, 0.0, 2.0)]
    ensures Indicators(DoubleRelease(env, cash).closes, 10.0, DoubleRelease(env, cash).runtime).triggeredTiers == []
  {
    var x := DoubleRelease(env, cash);
    var rt := Indicators(x.closes, 10.0, x.runtime);
    ExtremesBound(x.highs);
    ExtremesBound(x.lows);
    assert x.highs[0..] == x.highs && x.lows[0..] == x.lows;
    assert Sigma24h(x.highs, x.lows) >= 0.2;
    assert Ema200Slope(rt.ema200History) == 0.0;
    assert x.portfolio.Roi(10.0) >= 0.0;
    hide Sigma24h, Indicators, MacroDecision;
  }

  lemma FifteenOfThreeHundred(p: PortfolioState)
    requires p.spendableUSDT == 300.0
    ensures OrderAmount(Tier(1, 18.0, 0.05), p) == TierAmount(Tier(1, 18.0, 0.05), p) == 15.0
  {
    assert Share(300.0, 0.05) == 15.0;
  }

  lemma FirstTierBuys(p: PortfolioState, c: Chromosome, rt: RuntimeState)
    requires p.spendableUSDT == 300.0 && c.dcaDropPct == 0.10 && rt.monthHigh == 20.0 && rt.triggeredTiers == []
    ensures MacroDecision(10.0, p, c, rt, rt.month).intent == Some(TradeIntent(BUY, MACRO, DEAD_STACK, 15.0, 0.0))
  {
    FifteenOfThreeHundred(p);
    var tiers := Tiers(20.0, c.dcaDropPct);
    assert tiers[0] == Tier(1, 18.0, 0.05);
    hide OrderAmount, TierAmount, Trigger, RoundToUSDT;
    assert Fires(tiers[0], 10.0, p, rt);
  }

  lemma BuyThenRelease(p: PortfolioState, buy: TradeIntent, release: TradeIntent, m: Terms)
    requires p == PortfolioState(300.0, 0.0, 300.0, 1.0, 0.0, 0.0, 10.0) && m == Terms(10.0, 0.0, 0.0, 0.0)
    requires buy == TradeIntent(BUY, MACRO, DEAD_STACK, 15.0, 0.0)
    requires release == TradeIntent(RELEASE, MACRO, DEAD_STACK, 0.0, 2.0)
    ensures Execute(release, Execute(buy, p, m), m).deadStack == 0.5
    ensures Execute(buy, LiveRelease(release, p), m).deadStack == 1.5
  {
    assert BuyQty(15.0, m) == 1.5;
    hide BuyQty, Notional;
  }

  lemma BareRelease(env: Env)
    ensures Step(env, DoubleRelease(env, 0.0)).intents == [TradeIntent(RELEASE, MACRO, DEAD_STACK, 0.0, 2.0)]
  {
    FlatMarket(env, 0.0);
    hide Step, Indicators;
  }

  /** A bare release of ratio two: the backtest refuses it, the live side carries it out. */
  lemma BareReleaseDiffers(env: Env)
    ensures var x, m := DoubleRelease(env, 0.0), Terms(10.0, 0.0, 0.0, 0.0);
      var intents := Step(env, x).intents;
      && intents == [TradeIntent(RELEASE, MACRO, DEAD_STACK, 0.0, 2.0)] && FillOf(intents[0], x.portfolio, m) == NoFill
      && ExecuteAll(intents, x.portfolio, m) == x.portfolio
      && LiveExecute(intents, x.portfolio, m) == x.portfolio.(deadStack := 0.0, floatStack := 1.0)
  {
    var m, release := Terms(10.0, 0.0, 0.0, 0.0), TradeIntent(RELEASE, MACRO, DEAD_STACK, 0.0, 2.0);
    var p := DoubleRelease(env, 0.0).portfolio;
    BareRelease(env);
    assert ToSeq(None) + ToSeq(Some(release)) == [release];
    LiveExecuteOfTwo(None, Some(release), p, m);
    ExecuteTwo(None, Some(release), p, m);
    hide Step, LiveExecute, ExecuteAll, MonthKeyOf;
  }

  /** A release of ratio two behind a buy: both sides carry it out, with different results. */
  lemma BuyAndReleaseDiffer(env: Env)
    ensures var x, m := DoubleRelease(env, 300.0), Terms(10.0, 0.0, 0.0, 0.0);
      var intents := Step(env, x).intents;
      && intents == [TradeIntent(BUY, MACRO, DEAD_STACK, 15.0, 0.0), TradeIntent(RELEASE, MACRO, DEAD_STACK, 0.0, 2.0)]
      && ExecuteAll(intents, x.portfolio, m).deadStack == 0.5
      && LiveExecute(intents, x.portfolio, m).deadStack == 1.5
  {
    var m, release := Terms(10.0, 0.0, 0.0, 0.0), TradeIntent(RELEASE, MACRO, DEAD_STACK, 0.0, 2.0);
    var buy := TradeIntent(BUY, MACRO, DEAD_STACK, 15.0, 0.0);
    var x := DoubleRelease(env, 300.0);
    var p := x.portfolio;
    FlatMarket(env, 300.0);
    FirstTierBuys(p, x.params, Indicators(x.closes, 10.0, x.runtime));
    assert ToSeq(Some(buy)) + ToSeq(Some(release)) == [buy, release];
    LiveExecuteOfTwo(Some(buy), Some(release), p, m);
    ExecuteTwo(Some(buy), Some(release), p, m);
    BuyThenRelease(p, buy, release, m);
    hide Step, LiveExecute, ExecuteAll, MonthKeyOf, Execute, NextEma, PushHistory, MacroDecision, LiveRelease;
  }

  /** The row of an instance that holds a portfolio. */
  function RowOfPortfolio(p: PortfolioState): Ledger.PortfolioRow {
    Ledger.PortfolioRow(p.totalUSDT, p.deadStack, p.floatStack, p.coldSealedStack)
  }

  /** The live system shows the strategy what the backtest does: the same cash, spendable
      only beyond the reserve, the same stacks and the same initial value. */
  lemma LiveSeesBacktestPortfolio(spawn: SpawnPoint, p: PortfolioState)
    requires Sound(spawn, p)
    ensures Ledger.View(RowOfPortfolio(p), spawn) == p
  {}
}
