/** The facts assumed of the logistic curve are consistent: for whole exponents it is the
    rational function x^n / (1 + x^n), which meets all of them. */
module Sigmoid {
  import opened Data
  import opened Numeric
  import opened MicroEngine

  function Power(x: real, n: nat): real {
    if n == 0 then 1.0 else x * Power(x, n - 1)
  }

  function Exponent(k: real): nat {
    if k.Floor < 1 then 1 else k.Floor
  }

  function Share(v: real): real
    requires v > 0.0
  {
    v / (1.0 + v)
  }

  lemma {:induction false} PowerPositive(x: real, n: nat)
    requires x > 0.0
    ensures Power(x, n) > 0.0
  {
    if n == 0 {
    } else {
      PowerPositive(x, n - 1);
      MulStrict(0.0, x, Power(x, n - 1));
    }
  }

  lemma Grow(x: real, y: real, a: real, b: real, xa: real, yb: real)
    requires 0.0 < x < y && 0.0 < a < b && xa == x * a && yb == y * b
    ensures xa < yb
  {}

  lemma {:induction false} PowerGrows(x: real, y: real, n: nat)
    requires 0.0 < x < y && n > 0
    ensures 0.0 < Power(x, n) < Power(y, n)
  {
    PowerPositive(x, n);
    PowerPositive(x, n - 1);
    PowerPositive(y, n - 1);
    if n == 1 {
      assert Power(x, 0) == Power(y, 0) == 1.0;
      assert Power(x, 1) == x && Power(y, 1) == y;
    } else {
      PowerGrows(x, y, n - 1);
      Grow(x, y, Power(x, n - 1), Power(y, n - 1), Power(x, n), Power(y, n));
    }
  }

  lemma {:induction false} PowerOfOne(n: nat)
    ensures Power(1.0, n) == 1.0
  {
    if n == 0 {
    } else {
      PowerOfOne(n - 1);
    }
  }

  lemma Fractions(a: real, b: real, v: real, w: real)
    requires 0.0 < v < w && a * (1.0 + v) == v && b * (1.0 + w) == w
    ensures 0.0 < a < b < 1.0
  {}

  lemma ShareOrder(v: real, w: real)
    requires 0.0 < v < w
    ensures 0.0 < Share(v) < Share(w) < 1.0
    ensures Share(1.0) == 0.5
  {
    var a, b := Share(v), Share(w);
    assert a * (1.0 + v) == v && b * (1.0 + w) == w;
    Fractions(a, b, v, w);
  }

  function Rational(k: real, x: real): real {
    if x <= 0.0 || Power(x, Exponent(k)) <= 0.0 then 0.0 else Share(Power(x, Exponent(k)))
  }

  lemma RationalOrder(k: real, x: real, y: real)
    requires 0.0 < x < y
    ensures 0.0 < Rational(k, x) < Rational(k, y) < 1.0 && Rational(k, 1.0) == 0.5
  {
    PowerGrows(x, y, Exponent(k));
    PowerOfOne(Exponent(k));
    ShareOrder(Power(x, Exponent(k)), Power(y, Exponent(k)));
    hide Share, Power, Exponent;
  }

  /** An environment that meets every assumption made of the platform. */
  lemma AssumptionsAreConsistent(months: int -> int)
    ensures Logistic(Env(months, Rational))
  {
    hide Rational;
    var env := Env(months, Rational);
    forall k, x | x > 0.0
      ensures 0.0 < env.sigmoid(k, x) < 1.0
      ensures env.sigmoid(k, x) > 0.5 <==> x > 1.0
    {
      RationalOrder(k, x, x + 1.0);
      if x < 1.0 {
        RationalOrder(k, x, 1.0);
      } else if x > 1.0 {
        RationalOrder(k, 1.0, x);
      }
    }
    forall k, x, y | k > 0.0 && 0.0 < x < y
      ensures env.sigmoid(k, x) < env.sigmoid(k, y)
    {
      RationalOrder(k, x, y);
    }
  }

  lemma {:induction false} PowerOfQuotient(x: real, e: real, n: nat)
    requires e > 0.0
    ensures Power(x / e, n) * Power(e, n) == Power(x, n)
  {
    if n == 0 {
    } else {
      PowerOfQuotient(x, e, n - 1);
      var q, a, b := x / e, Power(x / e, n - 1), Power(e, n - 1);
      assert q * e == x;
      assert (q * a) * (e * b) == (q * e) * (a * b);
    }
  }

  lemma SoldFraction(f: real, s: real, a: real, b: real, qty: real)
    requires s * (a + b) == a && qty == f * ((s - 0.5) * 2.0) * 0.05
    ensures 20.0 * qty * (a + b) == f * (a - b)
  {
    assert (s - 0.5) * 2.0 * (a + b) == 2.0 * (s * (a + b)) - (a + b) == a - b;
    assert 20.0 * qty == f * ((s - 0.5) * 2.0);
    assert 20.0 * qty * (a + b) == f * ((s - 0.5) * 2.0 * (a + b));
  }

  lemma ShareOfPowers(s: real, v: real, e: real)
    requires s * (1.0 + v) == v
    ensures s * (v * e + e) == v * e
  {
    assert v * e + e == (1.0 + v) * e;
    assert s * ((1.0 + v) * e) == (s * (1.0 + v)) * e;
  }

  lemma ShareTimes(v: real)
    requires v > 0.0
    ensures Share(v) * (1.0 + v) == v
  {}

  lemma PositiveRatio(price: real, ema: real)
    requires price > 0.0 && ema > 0.0
    ensures price / ema > 0.0
  {}

  lemma RationalIsShare(x: real, k: nat)
    requires x > 0.0 && k >= 1
    ensures Power(x, k) > 0.0 && Rational(k as real, x) == Share(Power(x, k))
  {
    PowerPositive(x, k);
    hide Power;
  }

  lemma SignalOfPowers(env: Env, price: real, ema: real, c: Chromosome, k: nat)
    requires env.sigmoid == Rational && k >= 1 && c.sigmoidSensitivity == k as real && price > 0.0 && ema > 0.0
    ensures Power(price, k) + Power(ema, k) > 0.0
    ensures Signal(env, price, ema, c) * (Power(price, k) + Power(ema, k)) == Power(price, k)
  {
    hide Power, Exponent, Share, Rational;
    PowerPositive(price, k);
    PowerPositive(ema, k);
    PowerOfQuotient(price, ema, k);
    PositiveRatio(price, ema);
    RationalIsShare(price / ema, k);
    var s := Signal(env, price, ema, c);
    assert s == Share(Power(price / ema, k));
    ShareTimes(Power(price / ema, k));
    ShareOfPowers(s, Power(price / ema, k), Power(ema, k));
    hide Signal;
  }

  /** For a whole sensitivity k the sold quantity is exactly
      floatStack / 20 * (P^k - E^k) / (P^k + E^k). */
  lemma WholeSensitivitySells(env: Env, price: real, ema: real, c: Chromosome, k: nat, floatStack: real)
    requires env.sigmoid == Rational && k >= 1 && c.sigmoidSensitivity == k as real && price > 0.0 && ema > 0.0
    ensures 20.0 * SellQty(floatStack, Signal(env, price, ema, c)) * (Power(price, k) + Power(ema, k))
         == floatStack * (Power(price, k) - Power(ema, k))
  {
    SignalOfPowers(env, price, ema, c, k);
    var s := Signal(env, price, ema, c);
    SoldFraction(floatStack, s, Power(price, k), Power(ema, k), SellQty(floatStack, s));
    hide Signal, Power;
  }
}
