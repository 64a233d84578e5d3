/** Scalar arithmetic of internal/quant/math.go over exact reals, and small facts about it. */
module Numeric {

  function Clamp0(v: real): real {
    if v < 0.0 then 0.0 else v
  }

  function Max(a: real, b: real): real {
    if a < b then b else a
  }

  function Min(a: real, b: real): real {
    if b < a then b else a
  }

  /** The value of a quantity at a price. */
  function Notional(qty: real, price: real): real {
    qty * price
  }

  function ClipFloat64(v: real, lo: real, hi: real): (r: real)
    ensures lo <= hi ==> lo <= r <= hi && (lo <= v <= hi ==> r == v)
    ensures lo <= hi ==> (v < lo ==> r == lo) && (v > hi ==> r == hi)
  {
    if v < lo then lo else if v > hi then hi else v
  }

  /** Conversion of a float to an integer: truncation toward zero. */
  function Trunc(x: real): int {
    if x >= 0.0 then x.Floor else -((-x).Floor)
  }

  /** Integer division that truncates toward zero. */
  function TruncDiv(a: int, b: int): int
    requires b > 0
  {
    if a >= 0 then a / b else -((-a) / b)
  }

  /** Rounding to the nearest integer, halves away from zero. */
  function Round(x: real): int {
    if x >= 0.0 then (x + 0.5).Floor else -((-x + 0.5).Floor)
  }

  function RoundToUSDT(v: real): (r: real)
    ensures v - 0.005 <= r <= v + 0.005
    ensures (v >= 0.0 ==> v - 0.005 < r) && (v <= 0.0 ==> r < v + 0.005)
    ensures (r * 100.0).Floor as real == r * 100.0
  {
    var n := Round(v * 100.0);
    n as real / 100.0
  }

  /** Rounding to the nearest integer, halves to the even one. */
  function RoundEven(x: real): int {
    var below := x.Floor;
    var rest := x - below as real;
    if rest < 0.5 || (rest == 0.5 && below % 2 == 0) then below else below + 1
  }

  /** A number written with a fixed number of decimals, one to a unit. */
  function Written(v: real, units: int): (r: real)
    requires units > 0
  {
    RoundEven(v * units as real) as real / units as real
  }

  /** Two decimals keep every whole number of cents. */
  lemma CentsKept(v: real)
    requires (v * 100.0).Floor as real == v * 100.0
    ensures Written(v, 100) == v
  {}

  /** Eight decimals are off by at most half of the last one. */
  lemma EightDecimals(v: real)
    ensures v - 0.000000005 <= Written(v, 100_000_000) <= v + 0.000000005
  {}

  function Steps(n: int, step: real): real {
    n as real * step
  }

  function SnapToStep(qty: real, step: real): real {
    if step <= 0.0 then qty else Steps(Trunc(qty / step), step)
  }

  lemma MulOrder(a: real, b: real, c: real)
    ensures a <= b && c >= 0.0 ==> a * c <= b * c
  {}

  lemma MulStrict(a: real, b: real, c: real)
    ensures a < b && c > 0.0 ==> a * c < b * c
  {}

  lemma BelowNext(x: real, n: real, c: real, xc: real, nc: real)
    requires x < n + 1.0 && c > 0.0 && xc == x * c && nc == n * c
    ensures xc < nc + c
  {
    MulStrict(x, n + 1.0, c);
  }

  lemma StepsBelow(x: real, n: int, c: real)
    requires c > 0.0 && 0.0 <= n as real <= x < n as real + 1.0
    ensures 0.0 <= Steps(n, c) <= x * c < Steps(n, c) + c
  {
    MulOrder(0.0, n as real, c);
    MulOrder(n as real, x, c);
    BelowNext(x, n as real, c, x * c, Steps(n, c));
  }

  lemma StepsAbove(x: real, n: int, c: real)
    requires c > 0.0 && x < 0.0 && n as real - 1.0 < x <= n as real <= 0.0
    ensures Steps(n, c) - c < x * c <= Steps(n, c) <= 0.0 && x * c < 0.0
  {
    MulOrder(x, n as real, c);
    MulOrder(n as real, 0.0, c);
    MulStrict(x, 0.0, c);
    BelowNext(n as real - 1.0, x - 1.0, c, (n as real - 1.0) * c, (x - 1.0) * c);
  }

  lemma WholeSteps(x: real, step: real)
    requires step > 0.0
    ensures x * step >= 0.0 ==> 0.0 <= Steps(Trunc(x), step) <= x * step < Steps(Trunc(x), step) + step
    ensures x * step <= 0.0 ==> Steps(Trunc(x), step) - step < x * step <= Steps(Trunc(x), step) <= 0.0
  {
    if x >= 0.0 {
      StepsBelow(x, Trunc(x), step);
    } else {
      StepsAbove(x, Trunc(x), step);
    }
  }

  /** v is a whole number of steps. */
  ghost predicate IsWhole(v: real, step: real) {
    exists n: int :: v == Steps(n, step)
  }

  /** What the small comparisons mean. */
  lemma Extremes(a: real, b: real)
    ensures Max(a, b) in {a, b} && Min(a, b) in {a, b}
    ensures Min(a, b) <= a <= Max(a, b) && Min(a, b) <= b <= Max(a, b)
    ensures Clamp0(a) in {a, 0.0} && Clamp0(a) >= a && Clamp0(a) >= 0.0
  {}

  /** Division toward zero: the largest whole part, of either sign. */
  lemma TruncDivParts(a: int, b: int)
    requires b > 0
    ensures a >= 0 ==> TruncDiv(a, b) * b <= a < TruncDiv(a, b) * b + b
    ensures TruncDiv(-a, b) == -TruncDiv(a, b)
  {}

  /** Snapping moves a quantity toward zero by less than one step. */
  lemma SnapBounds(qty: real, step: real)
    ensures qty >= 0.0 ==> 0.0 <= SnapToStep(qty, step) <= qty
    ensures qty <= 0.0 ==> qty <= SnapToStep(qty, step) <= 0.0
    ensures step > 0.0 && qty >= 0.0 ==> qty < SnapToStep(qty, step) + step
    ensures step > 0.0 && qty <= 0.0 ==> SnapToStep(qty, step) - step < qty
    ensures if step <= 0.0 then SnapToStep(qty, step) == qty else IsWhole(SnapToStep(qty, step), step)
  {
    if step > 0.0 {
      var x := qty / step;
      assert x * step == qty;
      assert SnapToStep(qty, step) == Trunc(x) as real * step;
      hide Trunc;
      WholeSteps(x, step);
    }
  }
}
