/** The per-bar decision: market state, then the macro or the micro engine, then release. */
module Strategy {
  import opened Data
  import opened Calendar
  import opened MarketState
  import opened MacroEngine
  import opened MicroEngine
  import opened Lot

  const MIN_BARS_REQUIRED: int := 24

  datatype StrategyInput = StrategyInput(
    closes: seq<real>, highs: seq<real>, lows: seq<real>, timestamps: seq<int>,
    portfolio: PortfolioState, runtime: RuntimeState, params: Chromosome, spawn: SpawnPoint)

  datatype StrategyOutput = StrategyOutput(intents: seq<TradeIntent>, runtime: RuntimeState)

  function RunRelease(p: PortfolioState, spawn: SpawnPoint, price: real): Option<TradeIntent> {
    var res := TryReleaseDeadToFloat(p, spawn, price);
    if res.released <= 0.0 then None else Some(TradeIntent(RELEASE, MACRO, DEAD_STACK, 0.0, res.released))
  }

  function ToSeq(intent: Option<TradeIntent>): seq<TradeIntent> {
    match intent
    case None => []
    case Some(i) => [i]
  }

  function MonthOfInput(env: Env, input: StrategyInput): MonthKey {
    if |input.timestamps| > 0 then MonthKeyOf(env, input.timestamps[|input.timestamps| - 1]) else NoMonth
  }

  /** Engines that run in the given (non-quiet) regime. */
  function Trade(env: Env, regime: Regime, price: real, month: MonthKey, input: StrategyInput, rt: RuntimeState)
    : Decision
  {
    match regime
    case QUIET => Decision(None, rt)
    case BEAR => MacroDecision(price, input.portfolio, input.params, rt, month)
    case BULL => ComputeMicroDecision(env, price, rt.ema200, input.portfolio, input.params, rt)
  }

  function Step(env: Env, input: StrategyInput): StrategyOutput {
    if |input.closes| < MIN_BARS_REQUIRED then StrategyOutput([], input.runtime)
    else
      var price := input.closes[|input.closes| - 1];
      var (regime, rt) := ComputeMarketState(input.closes, input.highs, input.lows, price, input.runtime);
      if regime == QUIET then StrategyOutput([], rt)
      else
        var d := Trade(env, regime, price, MonthOfInput(env, input), input, rt);
        StrategyOutput(ToSeq(d.intent) + ToSeq(RunRelease(input.portfolio, input.spawn, price)), d.rt)
  }
}
