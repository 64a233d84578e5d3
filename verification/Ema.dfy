/** Exponential moving average: the batch form, the incremental form, and their agreement. */
module Ema {

  function Alpha(period: int): real
    requires period > 0
  {
    2.0 / (period + 1) as real
  }

  function UpdateEMA(prev: real, price: real, period: int): real {
    if period <= 0 then price else Alpha(period) * price + (1.0 - Alpha(period)) * prev
  }

  /** The average of a whole series: its first element, then one update per later element. */
  function EMA(series: seq<real>, period: int): real {
    if |series| == 0 || period <= 0 then 0.0
    else if |series| == 1 then series[0]
    else UpdateEMA(EMA(series[..|series| - 1], period), series[|series| - 1], period)
  }

  method ComputeEMA(series: seq<real>, period: int) returns (ema: real)
    ensures ema == EMA(series, period)
  {
    var n := |series|;
    if n == 0 || period <= 0 {
      return 0.0;
    }
    var alpha := 2.0 / (period + 1) as real;
    ema := series[0];
    for i := 1 to n
      invariant ema == EMA(series[..i], period)
    {
      assert series[..i + 1][..i] == series[..i];
      ema := alpha * series[i] + (1.0 - alpha) * ema;
    }
    assert series[..n] == series;
  }

  lemma Product(a: real, b: real)
    requires a >= 0.0 && b >= 0.0
    ensures a * b >= 0.0
  {}

  lemma Mix(alpha: real, x: real, y: real, lo: real, hi: real)
    requires 0.0 <= alpha <= 1.0 && lo <= x <= hi && lo <= y <= hi
    ensures lo <= alpha * x + (1.0 - alpha) * y <= hi
  {
    Product(alpha, x - lo);
    Product(1.0 - alpha, y - lo);
    Product(alpha, hi - x);
    Product(1.0 - alpha, hi - y);
  }

  lemma UpdateWithinRange(prev: real, price: real, period: int, lo: real, hi: real)
    requires period > 0 && lo <= prev <= hi && lo <= price <= hi
    ensures lo <= UpdateEMA(prev, price, period) <= hi
  {
    assert 0.0 <= Alpha(period) <= 1.0;
    hide Alpha;
    Mix(Alpha(period), price, prev, lo, hi);
  }

  /** The average of a series stays between its bounds. */
  lemma {:induction false} EmaWithinRange(series: seq<real>, period: int, lo: real, hi: real)
    requires |series| > 0 && period > 0
    requires forall i :: 0 <= i < |series| ==> lo <= series[i] <= hi
    ensures lo <= EMA(series, period) <= hi
  {
    if |series| == 1 {
    } else {
      var init := series[..|series| - 1];
      EmaWithinRange(init, period, lo, hi);
      UpdateWithinRange(EMA(init, period), series[|series| - 1], period, lo, hi);
      hide UpdateEMA;
    }
  }

  lemma Pull(a: real, n: real, x: real, e: real)
    requires a * n == 2.0
    ensures n * (a * x + (1.0 - a) * e - e) == 2.0 * (x - e)
  {
    assert a * x + (1.0 - a) * e - e == a * (x - e);
    assert n * (a * (x - e)) == (a * n) * (x - e);
  }

  /** One more element pulls the average 2 / (period + 1) of the way toward it; the first
      element is where it starts. */
  lemma EmaPull(series: seq<real>, x: real, period: int)
    requires |series| > 0 && period > 0
    ensures EMA([x], period) == x
    ensures (period + 1) as real * (EMA(series + [x], period) - EMA(series, period))
         == 2.0 * (x - EMA(series, period))
  {
    assert (series + [x])[..|series|] == series;
    var e := EMA(series, period);
    var a := Alpha(period);
    assert a * (period + 1) as real == 2.0;
    Pull(a, (period + 1) as real, x, e);
    hide EMA, Alpha;
  }
}
