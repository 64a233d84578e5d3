/** The one-pass drawdown of a value curve against the largest fall over all pairs of bars. */
module Drawdown {
  import opened Numeric

  /** The highest value of a curve. */
  function Peak(nav: seq<real>): real
    requires |nav| > 0
  {
    var last := nav[|nav| - 1];
    if |nav| == 1 then last
    else
      var peak := Peak(nav[..|nav| - 1]);
      if last > peak then last else peak
  }

  function Drop(from: real, to: real): real
    requires from > 0.0
  {
    (from - to) / from
  }

  function MaxDrawdown(nav: seq<real>): real {
    if |nav| == 0 then 0.0
    else
      var soFar, peak := MaxDrawdown(nav[..|nav| - 1]), Peak(nav);
      if peak > 0.0 && Drop(peak, nav[|nav| - 1]) > soFar then Drop(peak, nav[|nav| - 1]) else soFar
  }

  method ComputeMaxDrawdown(nav: seq<real>) returns (maxDD: real)
    ensures maxDD == MaxDrawdown(nav)
  {
    if |nav| == 0 {
      return 0.0;
    }
    var peak := nav[0];
    maxDD := 0.0;
    for i := 0 to |nav|
      invariant maxDD == MaxDrawdown(nav[..i])
      invariant peak == if i == 0 then nav[0] else Peak(nav[..i])
    {
      assert nav[..i + 1][..i] == nav[..i];
      var v := nav[i];
      if v > peak {
        peak := v;
      }
      if peak > 0.0 {
        var dd := (peak - v) / peak;
        assert dd == Drop(peak, v);
        if dd > maxDD {
          maxDD := dd;
        }
      }
    }
    assert nav[..|nav|] == nav;
  }

  /** d is the largest fall from a positive value to a value at the same or a later bar,
      and 0 when the curve never is positive. */
  ghost predicate IsLargestDrop(nav: seq<real>, d: real) {
    && (forall i, j :: 0 <= i <= j < |nav| && nav[i] > 0.0 ==> Drop(nav[i], nav[j]) <= d)
    && (d == 0.0 || exists i, j :: 0 <= i <= j < |nav| && nav[i] > 0.0 && Drop(nav[i], nav[j]) == d)
  }

  /** The highest value up to bar k. */
  function PeakAt(nav: seq<real>, k: int): real
    requires 0 <= k < |nav|
  {
    Peak(nav[..k + 1])
  }

  /** Bar k has a positive running peak to fall from. */
  predicate Falls(nav: seq<real>, k: int) {
    0 <= k < |nav| && PeakAt(nav, k) > 0.0
  }

  /** The fall at bar k from the running peak. */
  function PeakDrop(nav: seq<real>, k: int): real
    requires Falls(nav, k)
  {
    Drop(PeakAt(nav, k), nav[k])
  }

  /** A fall below zero that is deeper than every fall below zero from a running peak. */
  ghost predicate HiddenDrop(nav: seq<real>, i: int, j: int) {
    && 0 <= i <= j < |nav| && nav[j] < 0.0 < nav[i]
    && forall k :: Falls(nav, k) && nav[k] < 0.0 ==> PeakDrop(nav, k) < Drop(nav[i], nav[j])
  }

  lemma {:induction false} PeakBounds(nav: seq<real>)
    requires |nav| > 0
    ensures forall i :: 0 <= i < |nav| ==> nav[i] <= Peak(nav)
    ensures exists i :: 0 <= i < |nav| && nav[i] == Peak(nav)
  {
    if |nav| == 1 {
      assert nav[0] == Peak(nav);
    } else {
      var init := nav[..|nav| - 1];
      PeakBounds(init);
      assert nav[|nav| - 1] <= Peak(nav);
      var i :| 0 <= i < |init| && init[i] == Peak(init);
      assert nav[if Peak(nav) == Peak(init) then i else |nav| - 1] == Peak(nav);
    }
  }

  lemma ShareOrder(a: real, b: real, x: real, y: real, v: real)
    requires 0.0 < a <= b && x * a == v && y * b == v
    ensures v >= 0.0 ==> 0.0 <= y <= x
    ensures v < 0.0 ==> x <= y < 0.0
    ensures v < 0.0 && a < b ==> x < y
  {}

  /** The share of its start that a fall leaves. */
  lemma Left(a: real, v: real) returns (x: real)
    requires a > 0.0
    ensures x * a == v && Drop(a, v) == 1.0 - x
  {
    x := v / a;
    assert x * a == v;
    var d := Drop(a, v);
    assert d * a == a - v;
    assert (1.0 - x) * a == a - v;
    if d < 1.0 - x {
      MulStrict(d, 1.0 - x, a);
    }
    if 1.0 - x < d {
      MulStrict(1.0 - x, d, a);
    }
  }

  /** A fall to a non-negative value is larger from a higher start, a fall below zero smaller. */
  lemma DropOrder(a: real, b: real, v: real)
    requires 0.0 < a <= b
    ensures v >= 0.0 ==> Drop(a, v) <= Drop(b, v) <= 1.0
    ensures v < 0.0 ==> 1.0 < Drop(b, v) <= Drop(a, v)
    ensures v < 0.0 && a < b ==> Drop(b, v) < Drop(a, v)
  {
    var x := Left(a, v);
    var y := Left(b, v);
    ShareOrder(a, b, x, y, v);
  }

  lemma PeakAtBounds(nav: seq<real>, i: int, j: int)
    requires 0 <= i <= j < |nav|
    ensures nav[i] <= PeakAt(nav, j)
    ensures exists k :: 0 <= k <= j && nav[k] == PeakAt(nav, j)
  {
    var init := nav[..j + 1];
    PeakBounds(init);
    assert init[i] == nav[i];
    var k :| 0 <= k <= j && init[k] == Peak(init);
    assert nav[k] == PeakAt(nav, j);
  }

  lemma PeakDropOfPrefix(nav: seq<real>, n: nat, k: int)
    requires 0 <= k < n <= |nav|
    ensures Falls(nav[..n], k) <==> Falls(nav, k)
    ensures Falls(nav, k) ==> PeakDrop(nav[..n], k) == PeakDrop(nav, k)
  {
    assert nav[..n][..k + 1] == nav[..k + 1];
  }

  /** The one pass reports the largest fall from a running peak. */
  lemma {:induction false} LargestFromPeak(nav: seq<real>)
    ensures MaxDrawdown(nav) >= 0.0
    ensures forall k :: Falls(nav, k) ==> PeakDrop(nav, k) <= MaxDrawdown(nav)
    ensures MaxDrawdown(nav) == 0.0 || exists k :: Falls(nav, k) && PeakDrop(nav, k) == MaxDrawdown(nav)
  {
    if |nav| == 0 {
    } else {
      var n := |nav| - 1;
      LargestFromPeak(nav[..n]);
      assert nav[..n + 1] == nav;
      assert PeakAt(nav, n) == Peak(nav);
      hide Peak, PeakAt, Drop;
      forall k | Falls(nav, k)
        ensures PeakDrop(nav, k) <= MaxDrawdown(nav)
      {
        if k < n {
          PeakDropOfPrefix(nav, n, k);
        }
      }
      if MaxDrawdown(nav) == MaxDrawdown(nav[..n]) != 0.0 {
        var k :| Falls(nav[..n], k) && PeakDrop(nav[..n], k) == MaxDrawdown(nav[..n]);
        PeakDropOfPrefix(nav, n, k);
      } else if MaxDrawdown(nav) != 0.0 {
        assert Falls(nav, n) && PeakDrop(nav, n) == MaxDrawdown(nav);
      }
    }
  }

  /** Every reported fall is a fall between two bars. */
  lemma DrawdownAttained(nav: seq<real>)
    ensures MaxDrawdown(nav) >= 0.0
    ensures MaxDrawdown(nav) == 0.0
         || exists i, j :: 0 <= i <= j < |nav| && nav[i] > 0.0 && Drop(nav[i], nav[j]) == MaxDrawdown(nav)
  {
    LargestFromPeak(nav);
    if MaxDrawdown(nav) != 0.0 {
      var k :| Falls(nav, k) && PeakDrop(nav, k) == MaxDrawdown(nav);
      PeakAtBounds(nav, k, k);
      var i :| 0 <= i <= k && nav[i] == PeakAt(nav, k);
      assert Drop(nav[i], nav[k]) == MaxDrawdown(nav);
    }
  }

  /** A fall that is not hidden is not missed. */
  lemma NoFallMissed(nav: seq<real>, i: int, j: int)
    requires 0 <= i <= j < |nav| && nav[i] > 0.0 && !HiddenDrop(nav, i, j)
    ensures Drop(nav[i], nav[j]) <= MaxDrawdown(nav)
  {
    LargestFromPeak(nav);
    PeakAtBounds(nav, i, j);
    assert Falls(nav, j);
    DropOrder(nav[i], PeakAt(nav, j), nav[j]);
    hide MaxDrawdown, PeakAt, Drop;
  }

  /** A hidden fall is deeper than whatever is reported. */
  lemma HiddenIsMissed(nav: seq<real>, i: int, j: int)
    requires HiddenDrop(nav, i, j)
    ensures Drop(nav[i], nav[j]) > MaxDrawdown(nav)
  {
    LargestFromPeak(nav);
    DropOrder(nav[i], nav[i], nav[j]);
    if MaxDrawdown(nav) != 0.0 {
      var k :| Falls(nav, k) && PeakDrop(nav, k) == MaxDrawdown(nav);
      DropOrder(PeakAt(nav, k), PeakAt(nav, k), nav[k]);
    }
    hide MaxDrawdown, PeakAt, Drop;
  }

  /** Exactly when the one pass finds the largest fall over all pairs: a curve has no fall
      below zero that is deeper than every such fall from a running peak. */
  lemma LargestDropIff(nav: seq<real>)
    ensures IsLargestDrop(nav, MaxDrawdown(nav)) <==> forall i, j :: !HiddenDrop(nav, i, j)
  {
    DrawdownAttained(nav);
    if forall i, j :: !HiddenDrop(nav, i, j) {
      forall i, j | 0 <= i <= j < |nav| && nav[i] > 0.0
        ensures Drop(nav[i], nav[j]) <= MaxDrawdown(nav)
      {
        NoFallMissed(nav, i, j);
      }
    } else {
      var i, j :| HiddenDrop(nav, i, j);
      HiddenIsMissed(nav, i, j);
    }
  }

  /** A guard on the curve for which the largest fall is missed: two different positive
      values before the first bar below zero. */
  lemma MissedAfterTwoPositives(nav: seq<real>, a: int, b: int, j: int)
    requires 0 <= a < j < |nav| && 0 <= b < j && 0.0 < nav[a] < nav[b]
    requires nav[j] < 0.0 && forall k :: 0 <= k < j ==> nav[k] >= 0.0
    ensures !IsLargestDrop(nav, MaxDrawdown(nav))
  {
    LargestFromPeak(nav);
    PeakAtBounds(nav, b, j);
    assert Falls(nav, j);
    DropOrder(PeakAt(nav, j), PeakAt(nav, j), nav[j]);
    var k :| Falls(nav, k) && PeakDrop(nav, k) == MaxDrawdown(nav);
    DropOrder(PeakAt(nav, k), PeakAt(nav, k), nav[k]);
    assert k >= j;
    PeakAtBounds(nav, b, k);
    DropOrder(nav[a], PeakAt(nav, k), nav[k]);
    assert Drop(nav[a], nav[k]) > MaxDrawdown(nav);
    hide MaxDrawdown, PeakAt, Drop;
  }

  /** A guard for which it is found: the positive values before any bar below zero are all
      the same. */
  lemma FoundAfterOnePositive(nav: seq<real>)
    requires forall a, b, j ::
               0 <= a < j < |nav| && 0 <= b < j && nav[a] > 0.0 && nav[b] > 0.0 && nav[j] < 0.0 ==> nav[a] == nav[b]
    ensures IsLargestDrop(nav, MaxDrawdown(nav))
  {
    forall i, j
      ensures !HiddenDrop(nav, i, j)
    {
      if 0 <= i <= j < |nav| && nav[j] < 0.0 < nav[i] {
        PeakAtBounds(nav, i, j);
        var k :| 0 <= k <= j && nav[k] == PeakAt(nav, j);
        assert Falls(nav, j) && nav[i] == nav[k];
      }
    }
    LargestDropIff(nav);
    hide MaxDrawdown, PeakAt, Drop, IsLargestDrop;
  }

  /** Together, while a curve that has gone below zero stays without a positive value: the
      largest fall is found exactly when all its positive values are the same. */
  lemma LargestDropOnceBelowZero(nav: seq<real>, j: int)
    requires 0 <= j < |nav| && nav[j] < 0.0 && forall k :: 0 <= k < j ==> nav[k] >= 0.0
    requires forall k :: j < k < |nav| ==> nav[k] <= 0.0
    ensures IsLargestDrop(nav, MaxDrawdown(nav))
       <==> forall a, b :: 0 <= a < j && 0 <= b < j && nav[a] > 0.0 && nav[b] > 0.0 ==> nav[a] == nav[b]
  {
    if a, b :| 0 <= a < j && 0 <= b < j && nav[a] > 0.0 && nav[b] > 0.0 && nav[a] != nav[b] {
      if nav[a] < nav[b] {
        MissedAfterTwoPositives(nav, a, b, j);
      } else {
        MissedAfterTwoPositives(nav, b, a, j);
      }
    } else {
      FoundAfterOnePositive(nav);
    }
    hide MaxDrawdown, IsLargestDrop;
  }

  /** Exactly when the result is a fraction: the curve never goes below zero after having
      been positive. */
  lemma FractionIff(nav: seq<real>)
    ensures 0.0 <= MaxDrawdown(nav)
    ensures MaxDrawdown(nav) <= 1.0 <==> forall i, j :: 0 <= i < j < |nav| && nav[i] > 0.0 ==> nav[j] >= 0.0
  {
    DrawdownAttained(nav);
    if MaxDrawdown(nav) > 1.0 {
      var i, j :| 0 <= i <= j < |nav| && nav[i] > 0.0 && Drop(nav[i], nav[j]) == MaxDrawdown(nav);
      DropOrder(nav[i], nav[i], nav[j]);
    } else {
      LargestFromPeak(nav);
      forall i, j | 0 <= i < j < |nav| && nav[i] > 0.0
        ensures nav[j] >= 0.0
      {
        PeakAtBounds(nav, i, j);
        assert Falls(nav, j);
        DropOrder(nav[i], PeakAt(nav, j), nav[j]);
      }
    }
    hide MaxDrawdown, PeakAt, Drop;
  }

  /** On a non-negative curve the one pass is exact, and its result is a fraction. */
  lemma NonNegativeCurveExact(nav: seq<real>)
    requires forall i :: 0 <= i < |nav| ==> nav[i] >= 0.0
    ensures IsLargestDrop(nav, MaxDrawdown(nav))
    ensures 0.0 <= MaxDrawdown(nav) <= 1.0
  {
    LargestDropIff(nav);
    FractionIff(nav);
  }

  /** A curve on which the one pass misses the largest fall: 1, 10, -1. */
  lemma NegativeCurveMissed()
    ensures MaxDrawdown([1.0, 10.0, -1.0]) == 1.1
    ensures Drop(1.0, -1.0) == 2.0
    ensures !IsLargestDrop([1.0, 10.0, -1.0], MaxDrawdown([1.0, 10.0, -1.0]))
  {
    var a, b, c := [1.0], [1.0, 10.0], [1.0, 10.0, -1.0];
    assert b[..1] == a && c[..2] == b && a[..0] == [];
    assert MaxDrawdown(a) == 0.0 && MaxDrawdown(b) == 0.0;
    assert Drop(c[0], c[2]) == 2.0;
  }

  /** A curve with a result above one that is the largest fall all the same: 1, -1. */
  lemma AboveOneYetLargest()
    ensures MaxDrawdown([1.0, -1.0]) == 2.0
    ensures IsLargestDrop([1.0, -1.0], 2.0)
  {
    var a, b := [1.0], [1.0, -1.0];
    assert b[..1] == a && a[..0] == [];
    assert MaxDrawdown(a) == 0.0;
    assert Drop(b[0], b[1]) == 2.0;
  }
}
