/** The quantity of a sell is written to eight decimals, to the nearest; so what is written
    can be more than the floating stack. */
module SellRounding {
  import opened Data
  import opened Numeric
  import opened MarketState
  import opened MicroEngine
  import opened Strategy
  import opened StepFacts
  import opened Ledger
  import opened Settlement

  /** What follows the eighth decimal is under one half of it, or is one half that rounds to
      an even digit below. */
  predicate WritesDown(v: real) {
    var x := v * 100_000_000.0;
    x - x.Floor as real < 0.5 || (x - x.Floor as real == 0.5 && x.Floor % 2 == 0)
  }

  lemma WrittenDownIff(v: real)
    ensures Written(v, 100_000_000) <= v <==> WritesDown(v)
  {}

  lemma SmallShareFits(qty: real, stack: real)
    requires 0.0 < qty <= stack * R_TICK_MAX_SELL
    ensures Written(qty, 100_000_000) <= stack
  {
    var x, y := qty * 100_000_000.0, stack * 100_000_000.0;
    assert x <= y * 0.05;
    assert RoundEven(x) as real <= y;
  }

  /** Exactly when the written quantity of a step's sell is within the floating stack: for
      every sigmoid sell, and for a liquidation when the stack itself is written down. */
  lemma WrittenSellFitsIff(env: Env, input: StrategyInput, x: TradeIntent)
    requires Logistic(env) && x in Step(env, input).intents && x.action == SELL
    ensures x.qtyAsset == input.portfolio.floatStack <==> Step(env, input).runtime.stopLossHit
    ensures Written(x.qtyAsset, 100_000_000) <= input.portfolio.floatStack
       <==> !Step(env, input).runtime.stopLossHit || WritesDown(input.portfolio.floatStack)
  {
    StepLegal(env, input);
    assert TradeIn(Step(env, input).intents) == Some(x);
    var stack := input.portfolio.floatStack;
    if Step(env, input).runtime.stopLossHit {
      WrittenDownIff(stack);
    } else {
      SmallShareFits(x.qtyAsset, stack);
    }
    hide Step, Written, WritesDown;
  }

  /** The report fills, in full, a step's sell from the stack that the step saw. */
  ghost predicate FullFill(db: Db, r: Report, i: nat, x: TradeIntent, stack: real) {
    && r.execution.Some? && Settles(db, r.execution.value)
    && db.executions[r.execution.value.order] == Execution(i, PENDING, IntentToCommand(x))
    && r.execution.value.qty == Written(x.qtyAsset, 100_000_000)
    && db.portfolios[i].floatBtc == stack
  }

  lemma OverdrawnIff(db: Db, r: Report, i: nat, x: TradeIntent, stack: real)
    requires FullFill(db, r, i, x, stack) && x.action == SELL && x.lotType == FLOATING
    ensures Overdraw(db, Reported(r), i) == 0.0 <==> Written(x.qtyAsset, 100_000_000) <= stack
  {
    hide Written;
  }

  lemma OneMoreEvent(events: seq<Event>, e: Event, i: nat)
    ensures NeverOverdrawn(events + [e], i) <==> NeverOverdrawn(events, i) && Overdraw(After(events), e, i) == 0.0
  {
    hide After, Overdraw;
    var n := |events|;
    assert (events + [e])[..n] == events && (events + [e])[n] == e;
    assert forall m :: 0 <= m < n ==> (events + [e])[..m] == events[..m] && (events + [e])[m] == events[m];
    if NeverOverdrawn(events + [e], i) {
      forall m | 0 <= m < n
        ensures Overdraw(After(events[..m]), events[m], i) == 0.0
      {
        assert Overdraw(After((events + [e])[..m]), (events + [e])[m], i) == 0.0;
      }
    }
  }

  /** So a full fill keeps the floating stack what releases, buys and sells say exactly
      unless it liquidates a stack that is written up. */
  lemma FullFillMatchesIff(
    env: Env, input: StrategyInput, x: TradeIntent, events: seq<Event>, r: Report, i: nat)
    requires Logistic(env) && x in Step(env, input).intents && x.action == SELL
    requires FullFill(After(events), r, i, x, input.portfolio.floatStack)
    requires NeverOverdrawn(events, i) && forall e :: e in events + [Reported(r)] ==> WellFormed(e)
    ensures var db := After(events + [Reported(r)]);
      FloatOf(db, i) == FloatByJournal(db, i)
      <==> !Step(env, input).runtime.stopLossHit || WritesDown(input.portfolio.floatStack)
  {
    StepLegal(env, input);
    assert TradeIn(Step(env, input).intents) == Some(x);
    WrittenSellFitsIff(env, input, x);
    OverdrawnIff(After(events), r, i, x, input.portfolio.floatStack);
    OneMoreEvent(events, Reported(r), i);
    FloatMatchesIff(events + [Reported(r)], i);
    hide Step, Written, WritesDown, Overdraw, NeverOverdrawn, FloatOf, FloatByJournal, After, FullFill;
  }

  /** A bull market over an average of 10, and a floating stack of 0.6 of the eighth decimal
      left of a capital of 10. */
  const TINY := StrategyInput(
    seq(24, _ => 20.0), seq(24, _ => 22.0), seq(24, _ => 18.0), [],
    PortfolioState(0.0, 0.0, 0.0, 0.0, 0.000000006, 0.0, 10.0),
    RuntimeState(10.0, [10.0], 0.0, NoMonth, [], false), Chromosome(0.10, 5.0, -0.20),
    SpawnPoint(10.0, 0.0, 0.5, 0.5, 0.0))

  lemma TinyMarket(env: Env)
    ensures ComputeMarketState(TINY.closes, TINY.highs, TINY.lows, 20.0, TINY.runtime).0 == BULL
  {
    ExtremesBound(TINY.highs);
    ExtremesBound(TINY.lows);
    assert TINY.highs[0..] == TINY.highs && TINY.lows[0..] == TINY.lows;
    assert Sigma24h(TINY.highs, TINY.lows) >= 0.2;
    var rt := Indicators(TINY.closes, 20.0, TINY.runtime);
    assert 10.0 < rt.ema200 < 20.0;
    assert rt.ema200History == [10.0, rt.ema200];
    hide Sigma24h, Indicators;
  }

  /** A liquidation that is written larger than the stack. */
  lemma TinyLiquidation(env: Env)
    ensures var intents := Step(env, TINY).intents;
      && intents == [TradeIntent(SELL, MICRO, FLOATING, 0.0, TINY.portfolio.floatStack)]
      && IntentToCommand(intents[0]).qtyAsset == Some(0.00000001)
      && 0.00000001 > TINY.portfolio.floatStack
  {
    TinyMarket(env);
    assert TINY.portfolio.Roi(20.0) < -0.9;
    assert Written(0.000000006, 100_000_000) == 0.00000001;
    hide ComputeMarketState, PortfolioState.Roi, Written;
  }
}
