/** Market regime: incremental EMA-200 with bounded history, 24-bar range, slope. */
module MarketState {
  import opened Data
  import opened Ema

  const EMA200_PERIOD: int := 200
  const EMA200_SLOPE_BARS: int := 10
  const QUIET_SIGMA_THRESH: real := 0.015
  const EMA200_HIST_MAX: int := 11

  datatype Regime = QUIET | BEAR | BULL

  function NextEma(closes: seq<real>, price: real, rt: RuntimeState): real {
    if rt.ema200 == 0.0 then EMA(closes, EMA200_PERIOD) else UpdateEMA(rt.ema200, price, EMA200_PERIOD)
  }

  function PushHistory(hist: seq<real>, v: real): seq<real> {
    var h := hist + [v];
    if |h| > EMA200_HIST_MAX then h[|h| - EMA200_HIST_MAX..] else h
  }

  /** The runtime state after the indicator update of one tick. */
  function Indicators(closes: seq<real>, price: real, rt: RuntimeState): RuntimeState {
    var ema := NextEma(closes, price, rt);
    rt.(ema200 := ema, ema200History := PushHistory(rt.ema200History, ema))
  }

  function Ema200Slope(hist: seq<real>): real {
    var m := |hist|;
    if m < 2 then 0.0
    else hist[m - 1] - hist[m - 1 - (if EMA200_SLOPE_BARS >= m then m - 1 else EMA200_SLOPE_BARS)]
  }

  function Highest(s: seq<real>): real
    requires |s| > 0
  {
    var last := s[|s| - 1];
    if |s| == 1 then last
    else
      var r := Highest(s[..|s| - 1]);
      if last > r then last else r
  }

  function Lowest(s: seq<real>): real
    requires |s| > 0
  {
    var last := s[|s| - 1];
    if |s| == 1 then last
    else
      var r := Lowest(s[..|s| - 1]);
      if last < r then last else r
  }

  lemma {:induction false} ExtremesBound(s: seq<real>)
    requires |s| > 0
    ensures Highest(s) in s && Lowest(s) in s
    ensures forall i :: 0 <= i < |s| ==> Lowest(s) <= s[i] <= Highest(s)
  {
    if |s| == 1 {
    } else {
      ExtremesBound(s[..|s| - 1]);
    }
  }

  function WindowStart(n: int): int {
    if n - 24 < 0 then 0 else n - 24
  }

  /** (High24h - Low24h) / Low24h over the last 24 bars; 0 when it cannot be computed. */
  function Sigma24h(highs: seq<real>, lows: seq<real>): real {
    var n := |highs|;
    if n == 0 || |lows| != n then 0.0
    else
      var h24, l24 := Highest(highs[WindowStart(n)..]), Lowest(lows[WindowStart(n)..]);
      if l24 <= 0.0 then 0.0 else (h24 - l24) / l24
  }

  lemma ExtremesGrow(s: seq<real>, lo: nat, i: nat)
    requires lo < i < |s|
    ensures Highest(s[lo..i + 1]) == if s[i] > Highest(s[lo..i]) then s[i] else Highest(s[lo..i])
    ensures Lowest(s[lo..i + 1]) == if s[i] < Lowest(s[lo..i]) then s[i] else Lowest(s[lo..i])
  {
    assert s[lo..i + 1][..i - lo] == s[lo..i];
  }

  /** The scan itself.  The two extremes start from the first bar of the window, which is
      what the first comparison with the largest and smallest float leaves. */
  method ComputeSigma24h(highs: seq<real>, lows: seq<real>) returns (sigma: real)
    ensures sigma == Sigma24h(highs, lows)
  {
    var n := |highs|;
    if n == 0 || |lows| != n {
      return 0.0;
    }
    var start := n - 24;
    if start < 0 {
      start := 0;
    }
    var h24, l24 := highs[start], lows[start];
    assert highs[start..start + 1] == [highs[start]] && lows[start..start + 1] == [lows[start]];
    for i := start + 1 to n
      invariant h24 == Highest(highs[start..i])
      invariant l24 == Lowest(lows[start..i])
    {
      ExtremesGrow(highs, start, i);
      ExtremesGrow(lows, start, i);
      if highs[i] > h24 {
        h24 := highs[i];
      }
      if lows[i] < l24 {
        l24 := lows[i];
      }
    }
    assert highs[start..n] == highs[start..] && lows[start..n] == lows[start..];
    if l24 <= 0.0 {
      return 0.0;
    }
    sigma := (h24 - l24) / l24;
  }

  /** i is one of the last 24 of n bars. */
  predicate Recent(n: int, i: int) {
    0 <= i < n && i >= n - 24
  }

  /** Among the last 24 bars, whose lows are all positive, some high is at least 1.5% above
      some low. */
  ghost predicate WideRange(highs: seq<real>, lows: seq<real>) {
    var n := |highs|;
    && |lows| == n
    && (forall j :: Recent(n, j) ==> lows[j] > 0.0)
    && exists i, j :: Recent(n, i) && Recent(n, j) && highs[i] >= 1.015 * lows[j]
  }

  lemma RangeThreshold(high: real, low: real)
    requires low > 0.0
    ensures (high - low) / low >= 0.015 <==> high >= 1.015 * low
  {
    var r := (high - low) / low;
    assert r * low == high - low;
    assert r >= 0.015 <==> r * low >= 0.015 * low;
  }

  lemma HighestOfLast24(s: seq<real>)
    requires |s| > 0
    ensures var top := Highest(s[WindowStart(|s|)..]);
      && (exists i :: Recent(|s|, i) && s[i] == top)
      && forall i :: Recent(|s|, i) ==> s[i] <= top
  {
    var start := WindowStart(|s|);
    var r := s[start..];
    ExtremesBound(r);
    var i :| 0 <= i < |r| && r[i] == Highest(r);
    assert Recent(|s|, start + i) && s[start + i] == Highest(r);
    assert forall k :: Recent(|s|, k) ==> r[k - start] == s[k];
    hide Highest;
  }

  lemma LowestOfLast24(s: seq<real>)
    requires |s| > 0
    ensures var bottom := Lowest(s[WindowStart(|s|)..]);
      && (exists i :: Recent(|s|, i) && s[i] == bottom)
      && forall i :: Recent(|s|, i) ==> s[i] >= bottom
  {
    var start := WindowStart(|s|);
    var r := s[start..];
    ExtremesBound(r);
    var i :| 0 <= i < |r| && r[i] == Lowest(r);
    assert Recent(|s|, start + i) && s[start + i] == Lowest(r);
    assert forall k :: Recent(|s|, k) ==> r[k - start] == s[k];
    hide Lowest;
  }

  /** The range reaches the threshold exactly in a wide range. */
  lemma SigmaIff(highs: seq<real>, lows: seq<real>)
    ensures Sigma24h(highs, lows) >= 0.015 <==> WideRange(highs, lows)
  {
    var n := |highs|;
    if n > 0 && |lows| == n {
      HighestOfLast24(highs);
      LowestOfLast24(lows);
      var high, low := Highest(highs[WindowStart(n)..]), Lowest(lows[WindowStart(n)..]);
      if low > 0.0 {
        RangeThreshold(high, low);
      }
      assert Sigma24h(highs, lows) == if low <= 0.0 then 0.0 else (high - low) / low;
      hide Highest, Lowest, WindowStart, Recent, Sigma24h;
    } else {
      assert Sigma24h(highs, lows) == 0.0;
    }
  }

  function Classify(sigma: real, price: real, rt: RuntimeState): Regime {
    if sigma < QUIET_SIGMA_THRESH then QUIET
    else if price < rt.ema200 then BEAR
    else if price > rt.ema200 && Ema200Slope(rt.ema200History) > 0.0 then BULL
    else BEAR
  }

  function ComputeMarketState(closes: seq<real>, highs: seq<real>, lows: seq<real>, price: real, rt: RuntimeState)
    : (Regime, RuntimeState)
  {
    var rt' := Indicators(closes, price, rt);
    (Classify(Sigma24h(highs, lows), price, rt'), rt')
  }
}
