/** The backtest adapter: one fold of the strategy over a bar series. */
module Backtest {
  import opened Data
  import opened Numeric
  import opened Calendar
  import opened Strategy
  import opened Dietz
  import Drawdown

  datatype Config = Config(
    bars: seq<Bar>, evalStartMs: int, chromosome: Chromosome, spawn: SpawnPoint,
    lotStep: real, lotMin: real, takerFee: real)

  datatype Metrics = Metrics(finalEquity: real, maxDrawdown: real, roi: real)

  /** The terms on which orders of one bar fill. */
  datatype Terms = Terms(price: real, lotStep: real, lotMin: real, fee: real)

  function TermsAt(cfg: Config, bar: Bar): Terms {
    Terms(bar.close, cfg.lotStep, cfg.lotMin, cfg.takerFee)
  }

  /** What executing an intent does to the ledger. */
  datatype Fill = NoFill | Bought(lot: LotType, qty: real) | Sold(qty: real) | Released(qty: real)

  /** The quantity an amount buys, less the fee. */
  function NetQty(spend: real, price: real, fee: real): real
    requires price > 0.0
  {
    spend / price * (1.0 - fee)
  }

  function BuyQty(spend: real, m: Terms): real
    requires m.price > 0.0
  {
    SnapToStep(NetQty(spend, m.price, m.fee), m.lotStep)
  }

  /** The guards of order execution. */
  function FillOf(intent: TradeIntent, p: PortfolioState, m: Terms): Fill
    requires m.price > 0.0
  {
    match intent.action
    case BUY =>
      var spend := intent.amountUSDT;
      if spend <= 0.0 || spend > p.spendableUSDT then NoFill
      else
        var qty := BuyQty(spend, m);
        if m.lotMin > 0.0 && qty < m.lotMin then NoFill else Bought(intent.lotType, qty)
    case SELL =>
      var qty := SnapToStep(intent.qtyAsset, m.lotStep);
      if (m.lotMin > 0.0 && qty < m.lotMin) || qty > p.floatStack then NoFill else Sold(qty)
    case RELEASE =>
      if intent.qtyAsset <= 0.0 || intent.qtyAsset > p.deadStack then NoFill else Released(intent.qtyAsset)
    case OtherAction => NoFill
  }

  function WithTotal(p: PortfolioState, total: real): PortfolioState {
    p.(totalUSDT := total, spendableUSDT := Clamp0(total - p.reserveFloor))
  }

  function Proceeds(qty: real, m: Terms): real {
    Notional(qty, m.price) * (1.0 - m.fee)
  }

  function Settle(fill: Fill, p: PortfolioState, m: Terms): PortfolioState {
    match fill
    case NoFill => p
    case Bought(lot, qty) =>
      var q := WithTotal(p, p.totalUSDT - Notional(qty, m.price));
      (match lot
       case DEAD_STACK => q.(deadStack := p.deadStack + qty)
       case FLOATING => q.(floatStack := p.floatStack + qty)
       case OtherLot => q)
    case Sold(qty) => WithTotal(p, p.totalUSDT + Proceeds(qty, m)).(floatStack := p.floatStack - qty)
    case Released(qty) => p.(deadStack := p.deadStack - qty, floatStack := p.floatStack + qty)
  }

  function Execute(intent: TradeIntent, p: PortfolioState, m: Terms): PortfolioState
    requires m.price > 0.0
  {
    Settle(FillOf(intent, p, m), p, m)
  }

  function ExecuteAll(intents: seq<TradeIntent>, p: PortfolioState, m: Terms): PortfolioState
    requires m.price > 0.0
  {
    if |intents| == 0 then p
    else
      var q := ExecuteAll(intents[..|intents| - 1], p, m);
      Execute(intents[|intents| - 1], q, m)
  }

  /** The order in which the adapter updates its copy of the portfolio. */
  method ApplyIntent(intent: TradeIntent, p: PortfolioState, m: Terms) returns (q: PortfolioState)
    requires m.price > 0.0
    ensures q == Execute(intent, p, m)
  {
    q := p;
    match intent.action {
      case BUY =>
        var spend := intent.amountUSDT;
        if spend <= 0.0 || spend > q.spendableUSDT {
          return;
        }
        var net := spend / m.price * (1.0 - m.fee);
        assert net == NetQty(spend, m.price, m.fee);
        var qty := SnapToStep(net, m.lotStep);
        if m.lotMin > 0.0 && qty < m.lotMin {
          return;
        }
        var cost := qty * m.price;
        assert cost == Notional(qty, m.price);
        q := q.(totalUSDT := q.totalUSDT - cost);
        q := q.(spendableUSDT := Clamp0(q.totalUSDT - q.reserveFloor));
        match intent.lotType {
          case DEAD_STACK => q := q.(deadStack := q.deadStack + qty);
          case FLOATING => q := q.(floatStack := q.floatStack + qty);
          case OtherLot =>
        }
      case SELL =>
        var qty := SnapToStep(intent.qtyAsset, m.lotStep);
        if (m.lotMin > 0.0 && qty < m.lotMin) || qty > q.floatStack {
          return;
        }
        q := q.(floatStack := q.floatStack - qty);
        var proceeds := qty * m.price * (1.0 - m.fee);
        assert proceeds == Proceeds(qty, m);
        q := q.(totalUSDT := q.totalUSDT + proceeds);
        q := q.(spendableUSDT := Clamp0(q.totalUSDT - q.reserveFloor));
      case RELEASE =>
        var qty := intent.qtyAsset;
        if qty <= 0.0 || qty > q.deadStack {
          return;
        }
        q := q.(deadStack := q.deadStack - qty);
        q := q.(floatStack := q.floatStack + qty);
      case OtherAction =>
    }
  }

  /** Everything the bar loop carries from one bar to the next. */
  datatype Sim = Sim(
    portfolio: PortfolioState, runtime: RuntimeState, inEval: bool, evalFirstMs: int, evalLastMs: int,
    prevMonth: MonthKey, flows: seq<CashFlow>, nav: seq<real>)

  function InitialSim(cfg: Config): Sim {
    Sim(PortfolioState(0.0, cfg.spawn.reserveFloor, 0.0, 0.0, 0.0, 0.0, cfg.spawn.initialCapital),
        FRESH_RUNTIME, false, 0, 0, NoMonth, [], [])
  }

  /** Entry into the evaluation period: the portfolio is seeded once. */
  function Enter(env: Env, cfg: Config, bar: Bar, s: Sim): Sim {
    if !s.inEval && bar.openTime >= cfg.evalStartMs
    then s.(inEval := true, evalFirstMs := bar.openTime,
            portfolio := WithTotal(s.portfolio, cfg.spawn.initialCapital),
            prevMonth := MonthKeyOf(env, bar.openTime))
    else s
  }

  /** The injection at a month boundary of the evaluation period. */
  function Inject(env: Env, cfg: Config, bar: Bar, s: Sim): Sim {
    if !s.inEval then s
    else
      var s' := s.(evalLastMs := bar.openTime);
      var mk := MonthKeyOf(env, bar.openTime);
      if mk != s.prevMonth && cfg.spawn.monthlyInject > 0.0
      then s'.(prevMonth := mk,
               portfolio := WithTotal(s.portfolio, s.portfolio.totalUSDT + cfg.spawn.monthlyInject),
               flows := s.flows
                 + [CashFlow(TruncDiv(bar.openTime - s.evalFirstMs, MS_PER_DAY), cfg.spawn.monthlyInject)])
      else s'
  }

  /** What happens to the state before the strategy sees a bar. */
  function Opened(env: Env, cfg: Config, bar: Bar, s: Sim): Sim {
    Inject(env, cfg, bar, Enter(env, cfg, bar, s))
  }

  function InputAt(cfg: Config, i: nat, s: Sim): StrategyInput
    requires i < |cfg.bars|
  {
    var seen := cfg.bars[..i + 1];
    StrategyInput(Closes(seen), Highs(seen), Lows(seen), Timestamps(seen),
                  s.portfolio, s.runtime, cfg.chromosome, cfg.spawn)
  }

  /** The strategy's output is folded in; trades and the value curve only inside the period. */
  function Apply(cfg: Config, bar: Bar, out: StrategyOutput, s: Sim): Sim {
    var s' := s.(runtime := out.runtime);
    if s.inEval && bar.close > 0.0
    then
      var p := ExecuteAll(out.intents, s.portfolio, TermsAt(cfg, bar));
      s'.(portfolio := p, nav := s.nav + [p.Nav(bar.close)])
    else s'
  }

  /** The state after the first n bars. */
  function RunTo(env: Env, cfg: Config, n: nat): Sim
    requires n <= |cfg.bars|
    decreases n, 0
  {
    if n == 0 then InitialSim(cfg)
    else Apply(cfg, cfg.bars[n - 1], Output(env, cfg, n - 1), Ready(env, cfg, n - 1))
  }

  /** The state in which the strategy sees bar i. */
  function Ready(env: Env, cfg: Config, i: nat): Sim
    requires i < |cfg.bars|
    decreases i, 1
  {
    Opened(env, cfg, cfg.bars[i], RunTo(env, cfg, i))
  }

  /** The strategy's decision at bar i. */
  function Output(env: Env, cfg: Config, i: nat): StrategyOutput
    requires i < |cfg.bars|
    decreases i, 2
  {
    Step(env, InputAt(cfg, i, Ready(env, cfg, i)))
  }

  function Summarise(cfg: Config, s: Sim): Metrics {
    if |s.nav| == 0 then Metrics(0.0, 0.0, 0.0)
    else
      var final := s.nav[|s.nav| - 1];
      Metrics(final, Drawdown.MaxDrawdown(s.nav),
              Roi(cfg.spawn.initialCapital, s.flows, TruncDiv(s.evalLastMs - s.evalFirstMs, MS_PER_DAY), final))
  }

  function Result(env: Env, cfg: Config): Metrics {
    if |cfg.bars| == 0 || cfg.spawn.initialCapital <= 0.0 then Metrics(0.0, 0.0, 0.0)
    else Summarise(cfg, RunTo(env, cfg, |cfg.bars|))
  }

  method ApplyAll(intents: seq<TradeIntent>, p: PortfolioState, m: Terms) returns (q: PortfolioState)
    requires m.price > 0.0
    ensures q == ExecuteAll(intents, p, m)
  {
    q := p;
    for i := 0 to |intents|
      invariant q == ExecuteAll(intents[..i], p, m)
    {
      assert intents[..i + 1][..i] == intents[..i];
      q := ApplyIntent(intents[i], q, m);
    }
    assert intents[..|intents|] == intents;
  }

  /** The seeding and injection part of the bar loop, field by field. */
  method BeginBar(env: Env, cfg: Config, bar: Bar, s: Sim) returns (s': Sim)
    ensures s' == Opened(env, cfg, bar, s)
  {
    s' := s;
    if !s'.inEval && bar.openTime >= cfg.evalStartMs {
      s' := s'.(inEval := true);
      s' := s'.(evalFirstMs := bar.openTime);
      var p := s'.portfolio.(totalUSDT := cfg.spawn.initialCapital);
      p := p.(spendableUSDT := Clamp0(p.totalUSDT - p.reserveFloor));
      s' := s'.(portfolio := p, prevMonth := MonthKeyOf(env, bar.openTime));
    }
    if s'.inEval {
      s' := s'.(evalLastMs := bar.openTime);
      var mk := MonthKeyOf(env, bar.openTime);
      if mk != s'.prevMonth && cfg.spawn.monthlyInject > 0.0 {
        s' := s'.(prevMonth := mk);
        var inj := cfg.spawn.monthlyInject;
        var p := s'.portfolio.(totalUSDT := s'.portfolio.totalUSDT + inj);
        p := p.(spendableUSDT := Clamp0(p.totalUSDT - p.reserveFloor));
        var days := TruncDiv(bar.openTime - s'.evalFirstMs, MS_PER_DAY);
        s' := s'.(portfolio := p, flows := s'.flows + [CashFlow(days, inj)]);
      }
    }
  }

  lemma SeriesGrow(bars: seq<Bar>, i: nat)
    requires i < |bars|
    ensures Closes(bars[..i + 1]) == Closes(bars[..i]) + [bars[i].close]
    ensures Highs(bars[..i + 1]) == Highs(bars[..i]) + [bars[i].high]
    ensures Lows(bars[..i + 1]) == Lows(bars[..i]) + [bars[i].low]
    ensures Timestamps(bars[..i + 1]) == Timestamps(bars[..i]) + [bars[i].openTime]
  {}

  lemma FoldBar(env: Env, cfg: Config, i: nat)
    requires i < |cfg.bars|
    ensures Ready(env, cfg, i) == Opened(env, cfg, cfg.bars[i], RunTo(env, cfg, i))
    ensures Output(env, cfg, i) == Step(env, InputAt(cfg, i, Ready(env, cfg, i)))
    ensures RunTo(env, cfg, i + 1) == Apply(cfg, cfg.bars[i], Output(env, cfg, i), Ready(env, cfg, i))
  {}

  /** The trading part of the bar loop. */
  method FinishBar(cfg: Config, bar: Bar, out: StrategyOutput, s: Sim) returns (s': Sim)
    ensures s' == Apply(cfg, bar, out, s)
  {
    s' := s.(runtime := out.runtime);
    if s'.inEval && bar.close > 0.0 {
      var p := ApplyAll(out.intents, s'.portfolio, TermsAt(cfg, bar));
      s' := s'.(portfolio := p);
      s' := s'.(nav := s'.nav + [p.Nav(bar.close)]);
    }
  }

  /** One pass of the bar loop. */
  method PlayBar(
    env: Env, cfg: Config, i: nat, s: Sim,
    closes: seq<real>, highs: seq<real>, lows: seq<real>, timestamps: seq<int>)
    returns (s': Sim)
    requires i < |cfg.bars| && s == RunTo(env, cfg, i)
    requires closes == Closes(cfg.bars[..i + 1]) && highs == Highs(cfg.bars[..i + 1])
    requires lows == Lows(cfg.bars[..i + 1]) && timestamps == Timestamps(cfg.bars[..i + 1])
    ensures s' == RunTo(env, cfg, i + 1)
  {
    FoldBar(env, cfg, i);
    var bar := cfg.bars[i];
    s' := BeginBar(env, cfg, bar, s);
    var input := StrategyInput(closes, highs, lows, timestamps, s'.portfolio, s'.runtime, cfg.chromosome, cfg.spawn);
    var out := Step(env, input);
    s' := FinishBar(cfg, bar, out, s');
  }

  /** The bar loop: the four series grow by one element a bar, the rest is updated in place. */
  method PlayBars(env: Env, cfg: Config) returns (s: Sim)
    ensures s == RunTo(env, cfg, |cfg.bars|)
  {
    s := InitialSim(cfg);
    var closes, highs, lows: seq<real> := [], [], [];
    var timestamps: seq<int> := [];
    for i := 0 to |cfg.bars|
      invariant closes == Closes(cfg.bars[..i])
      invariant highs == Highs(cfg.bars[..i])
      invariant lows == Lows(cfg.bars[..i])
      invariant timestamps == Timestamps(cfg.bars[..i])
      invariant s == RunTo(env, cfg, i)
    {
      SeriesGrow(cfg.bars, i);
      closes := closes + [cfg.bars[i].close];
      highs := highs + [cfg.bars[i].high];
      lows := lows + [cfg.bars[i].low];
      timestamps := timestamps + [cfg.bars[i].openTime];
      s := PlayBar(env, cfg, i, s, closes, highs, lows, timestamps);
    }
  }

  method Finish(cfg: Config, s: Sim) returns (m: Metrics)
    ensures m == Summarise(cfg, s)
  {
    if |s.nav| == 0 {
      return Metrics(0.0, 0.0, 0.0);
    }
    var finalEquity := s.nav[|s.nav| - 1];
    var maxDD := Drawdown.ComputeMaxDrawdown(s.nav);
    var totalDays := TruncDiv(s.evalLastMs - s.evalFirstMs, MS_PER_DAY);
    var sumF, roi := ComputeRoi(cfg.spawn.initialCapital, s.flows, totalDays, finalEquity);
    return Metrics(finalEquity, maxDD, roi);
  }

  method RunBacktest(env: Env, cfg: Config) returns (m: Metrics)
    ensures m == Result(env, cfg)
  {
    if |cfg.bars| == 0 || cfg.spawn.initialCapital <= 0.0 {
      return Metrics(0.0, 0.0, 0.0);
    }
    var s := PlayBars(env, cfg);
    m := Finish(cfg, s);
  }
}
