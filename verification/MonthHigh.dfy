/** The month high that the buy tiers hang from: despite its name it is the highest close of
    the bear bars of the month, because only they run the macro engine. */
module MonthHigh {
  import opened Data
  import opened Calendar
  import opened MarketState
  import opened MacroEngine
  import opened MicroEngine
  import opened Strategy
  import opened Backtest
  import opened WarmUp
  import opened Monthly

  ghost predicate BearAt(env: Env, cfg: Config, i: int) {
    MIN_BARS_REQUIRED - 1 <= i < |cfg.bars| && RegimeAt(env, cfg, i) == BEAR
  }

  function KeyAt(env: Env, cfg: Config, i: int): MonthKey
    requires 0 <= i < |cfg.bars|
  {
    MonthKeyOf(env, cfg.bars[i].openTime)
  }

  /** Only a bear step moves the month and its high, by one roll. */
  lemma StepMonth(env: Env, input: StrategyInput)
    requires |input.closes| > 0
    ensures var rt, rt' := input.runtime, Step(env, input).runtime;
      if |input.closes| >= MIN_BARS_REQUIRED && RegimeOf(input) == BEAR then
        var r := RollMonth(rt, input.closes[|input.closes| - 1], MonthOfInput(env, input));
        rt'.month == r.month && rt'.monthHigh == r.monthHigh
      else rt'.month == rt.month && rt'.monthHigh == rt.monthHigh
  {
    hide Sigma24h, NextEma, PushHistory, Signal, SellQty, PortfolioState.Roi, RunRelease, MonthOfInput;
    hide FirstFiring, Tiers;
    if |input.closes| >= MIN_BARS_REQUIRED {
      var price := input.closes[|input.closes| - 1];
      var (regime, rt) := ComputeMarketState(input.closes, input.highs, input.lows, price, input.runtime);
      var r := RollMonth(rt, price, MonthOfInput(env, input));
      FirstFiringTier(Tiers(r.monthHigh, input.params.dcaDropPct), 0, price, input.portfolio, r);
      hide Classify;
    }
  }

  lemma BarMonth(env: Env, cfg: Config, i: nat)
    requires i < |cfg.bars|
    ensures var rt, rt' := RunTo(env, cfg, i).runtime, RunTo(env, cfg, i + 1).runtime;
      if BearAt(env, cfg, i) then
        var r := RollMonth(rt, cfg.bars[i].close, KeyAt(env, cfg, i));
        rt'.month == r.month && rt'.monthHigh == r.monthHigh
      else rt'.month == rt.month && rt'.monthHigh == rt.monthHigh
  {
    hide Step, RegimeOf, MonthKeyOf;
    FoldBar(env, cfg, i);
    ReadyRuntime(env, cfg, i);
    var input := InputAt(cfg, i, Ready(env, cfg, i));
    StepMonth(env, input);
    assert MonthOfInput(env, input) == KeyAt(env, cfg, i);
    assert input.closes[|input.closes| - 1] == cfg.bars[i].close;
    hide RunTo, Ready, MonthOfInput, RollMonth;
  }

  /** Bar k is the last bear bar before n. */
  ghost predicate LastBear(env: Env, cfg: Config, k: int, n: int) {
    0 <= k < n && BearAt(env, cfg, k) && forall i :: k < i < n ==> !BearAt(env, cfg, i)
  }

  /** The highest close of the bear bars before n in one month. */
  ghost predicate HighestBearClose(env: Env, cfg: Config, n: int, mk: MonthKey, high: real) {
    && (exists i :: 0 <= i < n && BearAt(env, cfg, i) && KeyAt(env, cfg, i) == mk && cfg.bars[i].close == high)
    && (forall i :: 0 <= i < n && BearAt(env, cfg, i) && KeyAt(env, cfg, i) == mk ==> cfg.bars[i].close <= high)
  }

  lemma {:induction false} NoLastNoBear(env: Env, cfg: Config, n: nat)
    requires n <= |cfg.bars| && forall j :: !LastBear(env, cfg, j, n)
    ensures forall i :: 0 <= i < n ==> !BearAt(env, cfg, i)
  {
    hide BearAt;
    if n == 0 {
    } else {
      assert !LastBear(env, cfg, n - 1, n);
      var m := n - 1;
      forall j ensures !LastBear(env, cfg, j, m) {
        assert !LastBear(env, cfg, j, n);
      }
      NoLastNoBear(env, cfg, m);
    }
  }

  /** A bear bar after bear bar j continues its month or starts a new one. */
  lemma BearAfterBear(env: Env, cfg: Config, j: nat, b: nat)
    requires MonotoneMonths(env) && Ascending(cfg.bars)
    requires b < |cfg.bars| && BearAt(env, cfg, b) && LastBear(env, cfg, j, b)
    requires RunTo(env, cfg, b).runtime.month == KeyAt(env, cfg, j)
    requires HighestBearClose(env, cfg, b, KeyAt(env, cfg, j), RunTo(env, cfg, b).runtime.monthHigh)
    ensures RunTo(env, cfg, b + 1).runtime.month == KeyAt(env, cfg, b)
    ensures HighestBearClose(env, cfg, b + 1, KeyAt(env, cfg, b), RunTo(env, cfg, b + 1).runtime.monthHigh)
  {
    hide RunTo, BearAt, MonthKeyOf;
    BarMonth(env, cfg, b);
    var high := RunTo(env, cfg, b + 1).runtime.monthHigh;
    var mk := KeyAt(env, cfg, b);
    forall i | 0 <= i < b && BearAt(env, cfg, i) && KeyAt(env, cfg, i) == mk
      ensures KeyAt(env, cfg, j) == mk
    {
      SameMonth(env, cfg, i, j, b);
    }
    if mk == KeyAt(env, cfg, j) && cfg.bars[b].close <= RunTo(env, cfg, b).runtime.monthHigh {
      var i :| 0 <= i < b && BearAt(env, cfg, i) && KeyAt(env, cfg, i) == mk
            && cfg.bars[i].close == RunTo(env, cfg, b).runtime.monthHigh;
      assert cfg.bars[i].close == high;
    } else {
      assert cfg.bars[b].close == high;
    }
  }

  lemma NoMonthAtStart(env: Env, cfg: Config)
    ensures RunTo(env, cfg, 0).runtime.month == NoMonth
  {}

  /** The first bear bar of a run starts the month. */
  lemma FirstBear(env: Env, cfg: Config, b: nat)
    requires b < |cfg.bars| && cfg.bars[b].openTime > 0 && BearAt(env, cfg, b)
    requires (forall i :: 0 <= i < b ==> !BearAt(env, cfg, i)) && RunTo(env, cfg, b).runtime.month == NoMonth
    ensures RunTo(env, cfg, b + 1).runtime.month == KeyAt(env, cfg, b)
    ensures HighestBearClose(env, cfg, b + 1, KeyAt(env, cfg, b), RunTo(env, cfg, b + 1).runtime.monthHigh)
  {
    hide RunTo, BearAt, MonthOf;
    BarMonth(env, cfg, b);
    assert KeyAt(env, cfg, b) != NoMonth;
  }

  /** With ascending positive timestamps: before any bear bar the month is unset; after the
      last bear bar it is that bar's month, and the month high is the highest close of the
      bear bars of that month, whatever closes the other bars had. */
  lemma {:induction false} MonthHighOfRun(env: Env, cfg: Config, n: nat)
    requires MonotoneMonths(env) && Ascending(cfg.bars) && n <= |cfg.bars|
    requires forall i :: 0 <= i < n ==> cfg.bars[i].openTime > 0
    ensures (forall i :: 0 <= i < n ==> !BearAt(env, cfg, i)) ==> RunTo(env, cfg, n).runtime.month == NoMonth
    ensures forall k :: LastBear(env, cfg, k, n) ==>
              && RunTo(env, cfg, n).runtime.month == KeyAt(env, cfg, k)
              && HighestBearClose(env, cfg, n, KeyAt(env, cfg, k), RunTo(env, cfg, n).runtime.monthHigh)
  {
    hide RunTo, BearAt, MonthKeyOf;
    if n == 0 {
      NoMonthAtStart(env, cfg);
    } else {
      var b := n - 1;
      MonthHighOfRun(env, cfg, b);
      BarMonth(env, cfg, b);
      forall k | LastBear(env, cfg, k, n)
        ensures RunTo(env, cfg, n).runtime.month == KeyAt(env, cfg, k)
        ensures HighestBearClose(env, cfg, n, KeyAt(env, cfg, k), RunTo(env, cfg, n).runtime.monthHigh)
      {
        if k < b {
          assert LastBear(env, cfg, k, b) && !BearAt(env, cfg, b);
        } else if exists j :: LastBear(env, cfg, j, b) {
          var j :| LastBear(env, cfg, j, b);
          BearAfterBear(env, cfg, j, b);
        } else {
          NoLastNoBear(env, cfg, b);
          FirstBear(env, cfg, b);
        }
      }
    }
  }
}
