/** The plain records of the system: market bars, portfolio and runtime state, trade
    intents and the evolvable parameters.  Prices and quantities are exact reals. */
module Data {
  import opened Numeric

  datatype Option<+T> = None | Some(value: T)

  /** One OHLCV candlestick; openTime is a millisecond timestamp. */
  datatype Bar = Bar(openTime: int, open: real, high: real, low: real, close: real, volume: real)

  /** The three parameters the genetic algorithm evolves. */
  datatype Chromosome = Chromosome(dcaDropPct: real, sigmoidSensitivity: real, stopLossThreshold: real)

  /** Birth-time parameters, never evolved. */
  datatype SpawnPoint = SpawnPoint(
    initialCapital: real, reserveFloor: real, roiReleaseTrigger: real, releaseRatio: real, monthlyInject: real)

  datatype PortfolioState = PortfolioState(
    totalUSDT: real, reserveFloor: real, spendableUSDT: real,
    deadStack: real, floatStack: real, coldSealedStack: real, navInitial: real)
  {
    function Btc(): real {
      deadStack + floatStack + coldSealedStack
    }

    function Nav(price: real): real {
      totalUSDT + Notional(Btc(), price)
    }

    /** Return on the initial value; 0 when that is not positive. */
    function Roi(price: real): real {
      if navInitial > 0.0 then (Nav(price) - navInitial) / navInitial else 0.0
    }
  }

  /** A month bucket: the empty key of a non-positive timestamp, or a month of the calendar. */
  datatype MonthKey = NoMonth | Month(index: int)

  /** The state a strategy step reads and returns; ema200 == 0.0 means "not initialised". */
  datatype RuntimeState = RuntimeState(
    ema200: real, ema200History: seq<real>, monthHigh: real, month: MonthKey,
    triggeredTiers: seq<int>, stopLossHit: bool)

  const FRESH_RUNTIME := RuntimeState(0.0, [], 0.0, NoMonth, [], false)

  datatype Action = BUY | SELL | RELEASE | OtherAction
  datatype Engine = MACRO | MICRO
  datatype LotType = DEAD_STACK | FLOATING | OtherLot

  datatype TradeIntent = TradeIntent(
    action: Action, engine: Engine, lotType: LotType, amountUSDT: real, qtyAsset: real)

  /** What the macro and micro engines return: at most one intent, and the new runtime state. */
  datatype Decision = Decision(intent: Option<TradeIntent>, rt: RuntimeState)

  /** Functions the system takes from its platform: the UTC month (a single increasing
      index) of a second count, and the logistic curve 1 / (1 + ratio^-k). */
  datatype Env = Env(monthOfSecond: int -> int, sigmoid: (real, real) -> real)

  function Closes(bars: seq<Bar>): (r: seq<real>)
    ensures |r| == |bars| && forall i :: 0 <= i < |r| ==> r[i] == bars[i].close
  {
    seq(|bars|, i requires 0 <= i < |bars| => bars[i].close)
  }

  function Highs(bars: seq<Bar>): (r: seq<real>)
    ensures |r| == |bars| && forall i :: 0 <= i < |r| ==> r[i] == bars[i].high
  {
    seq(|bars|, i requires 0 <= i < |bars| => bars[i].high)
  }

  function Lows(bars: seq<Bar>): (r: seq<real>)
    ensures |r| == |bars| && forall i :: 0 <= i < |r| ==> r[i] == bars[i].low
  {
    seq(|bars|, i requires 0 <= i < |bars| => bars[i].low)
  }

  function Timestamps(bars: seq<Bar>): (r: seq<int>)
    ensures |r| == |bars| && forall i :: 0 <= i < |r| ==> r[i] == bars[i].openTime
  {
    seq(|bars|, i requires 0 <= i < |bars| => bars[i].openTime)
  }

  ghost predicate Ascending(bars: seq<Bar>) {
    forall i, j :: 0 <= i < j < |bars| ==> bars[i].openTime <= bars[j].openTime
  }

  /** The value of a portfolio is its cash plus all three stacks at the price, and its return
      is what the initial value has grown by. */
  lemma ValueAndReturn(p: PortfolioState, price: real)
    ensures p.Nav(0.0) == p.totalUSDT
    ensures p.Nav(price) - p.Nav(0.0) == (p.deadStack + p.floatStack + p.coldSealedStack) * price
    ensures p.navInitial > 0.0 ==> p.navInitial * (1.0 + p.Roi(price)) == p.Nav(price)
    ensures p.navInitial <= 0.0 ==> p.Roi(price) == 0.0
  {
    if p.navInitial > 0.0 {
      var r := (p.Nav(price) - p.navInitial) / p.navInitial;
      assert r * p.navInitial == p.Nav(price) - p.navInitial;
    }
  }
}
