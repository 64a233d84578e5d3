/** The value curve of the passive benchmark, and what it reports of it. */
module Benchmark {
  import opened Data
  import opened Numeric
  import opened Dietz
  import Drawdown
  import opened GhostDca

  /** The price the benchmark is valued at after bar i: its close, or the close before it
      when that is not positive. */
  function ValuePrice(bars: seq<Bar>, i: nat): real
    requires i < |bars|
  {
    if i == 0 || bars[i].close > 0.0 then bars[i].close else bars[i - 1].close
  }

  /** The BTC of the benchmark after bar i. */
  function Held(env: Env, initial: real, inject: real, bars: seq<Bar>, i: nat): real
    requires i < |bars|
  {
    GhostTo(env, initial, inject, bars, i + 1).btc
  }

  lemma Product(qty: real, price: real)
    ensures Notional(qty, price) == qty * price
  {}

  lemma OneEntryMore(env: Env, inject: real, bars: seq<Bar>, i: nat, g: Ghost)
    requires 1 <= i < |bars|
    ensures var g' := GhostBar(env, inject, bars, i, g);
      && |g'.nav| == |g.nav| + 1 && g'.nav[..|g.nav|] == g.nav
      && g'.nav[|g.nav|] == g'.btc * ValuePrice(bars, i)
      && (bars[i].close <= 0.0 ==> g' == g.(nav := g'.nav))
  {
    var g' := GhostBar(env, inject, bars, i, g);
    assert g'.nav == g.nav + [Notional(g'.btc, ValuePrice(bars, i))];
    Product(g'.btc, ValuePrice(bars, i));
    hide Notional, GhostBar, ValuePrice;
  }

  lemma FirstEntry(env: Env, initial: real, inject: real, bars: seq<Bar>)
    requires |bars| > 0
    ensures var nav := GhostTo(env, initial, inject, bars, 1).nav;
      |nav| == 1 && nav[0] == Held(env, initial, inject, bars, 0) * ValuePrice(bars, 0)
  {
    assert GhostTo(env, initial, inject, bars, 1).nav == [Notional(Held(env, initial, inject, bars, 0), bars[0].close)];
    Product(Held(env, initial, inject, bars, 0), bars[0].close);
    hide Notional, GhostTo;
  }

  /** The value curve has one entry a bar, whatever the closes: the BTC at the value price;
      and on a close that is not positive nothing is bought. */
  lemma {:induction false} BenchmarkCurve(env: Env, initial: real, inject: real, bars: seq<Bar>, n: nat)
    requires 1 <= n <= |bars|
    ensures var nav := GhostTo(env, initial, inject, bars, n).nav;
      && |nav| == n
      && (forall i :: 0 <= i < n ==> nav[i] == Held(env, initial, inject, bars, i) * ValuePrice(bars, i))
      && (forall i :: 1 <= i < n && bars[i].close <= 0.0 ==>
            Held(env, initial, inject, bars, i) == Held(env, initial, inject, bars, i - 1))
  {
    hide GhostBar, ValuePrice;
    if n == 1 {
      FirstEntry(env, initial, inject, bars);
    } else {
      BenchmarkCurve(env, initial, inject, bars, n - 1);
      OneEntryMore(env, inject, bars, n - 1, GhostTo(env, initial, inject, bars, n - 1));
    }
  }

  lemma BuysAreNotNegative(amount: real, price: real)
    requires amount >= 0.0 && price > 0.0
    ensures amount / price >= 0.0
  {}

  lemma {:induction false} HeldIsNotNegative(env: Env, initial: real, inject: real, bars: seq<Bar>, i: nat)
    requires i < |bars| && initial >= 0.0 && inject >= 0.0
    ensures Held(env, initial, inject, bars, i) >= 0.0
  {
    if bars[i].close > 0.0 {
      BuysAreNotNegative(initial, bars[i].close);
      BuysAreNotNegative(inject, bars[i].close);
    }
    if i == 0 {
    } else {
      HeldIsNotNegative(env, initial, inject, bars, i - 1);
    }
  }

  lemma ValueIsNotNegative(btc: real, price: real)
    requires btc >= 0.0 && price >= 0.0
    ensures btc * price >= 0.0
  {}

  /** What the benchmark reports on positive closes: its last value, all that was paid in,
      and the largest fall of its value over all pairs of bars, which is a fraction. */
  lemma BenchmarkReport(env: Env, initial: real, inject: real, bars: seq<Bar>, nav: seq<real>)
    requires |bars| > 0 && initial > 0.0 && inject >= 0.0 && forall i :: 0 <= i < |bars| ==> bars[i].close > 0.0
    requires |nav| == |bars|
    requires forall i :: 0 <= i < |bars| ==> nav[i] == Held(env, initial, inject, bars, i) * bars[i].close
    ensures var r := GhostOutcome(env, initial, inject, bars);
      && r.finalEquity == nav[|nav| - 1]
      && r.totalInjected == initial + SumFlows(GhostTo(env, initial, inject, bars, |bars|).flows)
      && Drawdown.IsLargestDrop(nav, r.maxDrawdown) && 0.0 <= r.maxDrawdown <= 1.0
  {
    hide GhostTo, Roi, Drawdown.MaxDrawdown, Drawdown.IsLargestDrop, SumFlows;
    BenchmarkCurve(env, initial, inject, bars, |bars|);
    var g := GhostTo(env, initial, inject, bars, |bars|);
    forall i | 0 <= i < |bars|
      ensures g.nav[i] == nav[i]
    {
      assert ValuePrice(bars, i) == bars[i].close;
    }
    assert g.nav == nav;
    Product(g.btc, bars[|bars| - 1].close);
    hide Notional;
    forall i | 0 <= i < |nav|
      ensures nav[i] >= 0.0
    {
      HeldIsNotNegative(env, initial, inject, bars, i);
      ValueIsNotNegative(Held(env, initial, inject, bars, i), bars[i].close);
    }
    Drawdown.NonNegativeCurveExact(nav);
  }
}
