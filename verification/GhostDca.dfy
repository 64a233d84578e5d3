/** The passive benchmark: all cash is deployed at once, on the first bar and at every
    month boundary. */
module GhostDca {
  import opened Data
  import opened Numeric
  import opened Calendar
  import opened Dietz
  import Drawdown

  datatype GhostResult = GhostResult(finalEquity: real, totalInjected: real, maxDrawdown: real, roi: real)

  const NO_RESULT := GhostResult(0.0, 0.0, 0.0, 0.0)

  datatype Ghost = Ghost(btc: real, prevMonth: int, flows: seq<CashFlow>, nav: seq<real>)

  function GhostBar(env: Env, inject: real, bars: seq<Bar>, i: nat, g: Ghost): Ghost
    requires 1 <= i < |bars|
  {
    var b := bars[i];
    if b.close <= 0.0 then g.(nav := g.nav + [Notional(g.btc, bars[i - 1].close)])
    else
      var m := MonthOf(env, b.openTime);
      if m != g.prevMonth && inject > 0.0 then
        var btc := g.btc + inject / b.close;
        Ghost(btc, m, g.flows + [CashFlow(DaysSince(bars[0].openTime, b.openTime), inject)],
              g.nav + [Notional(btc, b.close)])
      else g.(nav := g.nav + [Notional(g.btc, b.close)])
  }

  /** The state after the first n bars. */
  function GhostTo(env: Env, initial: real, inject: real, bars: seq<Bar>, n: nat): Ghost
    requires 1 <= n <= |bars|
  {
    if n == 1 then
      var btc := if bars[0].close > 0.0 then initial / bars[0].close else 0.0;
      Ghost(btc, MonthOf(env, bars[0].openTime), [], [Notional(btc, bars[0].close)])
    else
      GhostBar(env, inject, bars, n - 1, GhostTo(env, initial, inject, bars, n - 1))
  }

  function GhostOutcome(env: Env, initial: real, inject: real, bars: seq<Bar>): GhostResult {
    if |bars| == 0 || initial <= 0.0 then NO_RESULT
    else
      var g, last := GhostTo(env, initial, inject, bars, |bars|), bars[|bars| - 1];
      var final := Notional(g.btc, last.close);
      GhostResult(final, initial + SumFlows(g.flows), Drawdown.MaxDrawdown(g.nav),
                  Roi(initial, g.flows, DaysSince(bars[0].openTime, last.openTime), final))
  }

  method SimulateGhostDCA(env: Env, initial: real, inject: real, bars: seq<Bar>) returns (r: GhostResult)
    ensures r == GhostOutcome(env, initial, inject, bars)
  {
    if |bars| == 0 || initial <= 0.0 {
      return NO_RESULT;
    }
    var btc := 0.0;
    var navCurve: seq<real> := [];
    var flows: seq<CashFlow> := [];
    var totalDays := DaysSince(bars[0].openTime, bars[|bars| - 1].openTime);
    if bars[0].close > 0.0 {
      btc := initial / bars[0].close;
    }
    navCurve := navCurve + [Notional(btc, bars[0].close)];
    var prevMonth := MonthOf(env, bars[0].openTime);
    for i := 1 to |bars|
      invariant GhostTo(env, initial, inject, bars, i) == Ghost(btc, prevMonth, flows, navCurve)
    {
      var b := bars[i];
      if b.close <= 0.0 {
        navCurve := navCurve + [Notional(btc, bars[i - 1].close)];
        continue;
      }
      var m := MonthOf(env, b.openTime);
      if m != prevMonth && inject > 0.0 {
        prevMonth := m;
        btc := btc + inject / b.close;
        var daysIn := DaysSince(bars[0].openTime, b.openTime);
        flows := flows + [CashFlow(daysIn, inject)];
      }
      navCurve := navCurve + [Notional(btc, b.close)];
    }
    var final := Notional(btc, bars[|bars| - 1].close);
    var sumF, roi := ComputeRoi(initial, flows, totalDays, final);
    var dd := Drawdown.ComputeMaxDrawdown(navCurve);
    return GhostResult(final, initial + sumF, dd, roi);
  }
}
