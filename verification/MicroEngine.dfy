/** Micro engine: stop-loss latch, then a bounded sigmoid sell of the floating stack. */
module MicroEngine {
  import opened Data

  const R_TICK_MAX_SELL: real := 0.05

  function Sell(qty: real): Option<TradeIntent> {
    Some(TradeIntent(SELL, MICRO, FLOATING, 0.0, qty))
  }

  /** The share of the stack that a signal s above one half sells. */
  function SellQty(floatStack: real, s: real): real {
    floatStack * ((s - 0.5) * 2.0) * R_TICK_MAX_SELL
  }

  function Signal(env: Env, price: real, ema200: real, c: Chromosome): real
    requires ema200 > 0.0
  {
    env.sigmoid(c.sigmoidSensitivity, price / ema200)
  }

  function ComputeMicroDecision(
    env: Env, price: real, ema200: real, p: PortfolioState, c: Chromosome, rt: RuntimeState): Decision
  {
    if !rt.stopLossHit && p.Roi(price) < c.stopLossThreshold then
      Decision(if p.floatStack > 0.0 then Sell(p.floatStack) else None, rt.(stopLossHit := true))
    else if rt.stopLossHit then Decision(None, rt)
    else if p.floatStack <= 0.0 || ema200 <= 0.0 then Decision(None, rt)
    else
      var s := Signal(env, price, ema200, c);
      if s <= 0.5 then Decision(None, rt)
      else
        var qty := SellQty(p.floatStack, s);
        if qty <= 0.0 then Decision(None, rt) else Decision(Sell(qty), rt)
  }

  /** What is assumed of the logistic curve 1 / (1 + ratio^-k). */
  ghost predicate Logistic(env: Env) {
    && (forall k, x :: x > 0.0 ==> 0.0 < env.sigmoid(k, x) < 1.0)
    && (forall k, x :: k > 0.0 && x > 0.0 ==> (env.sigmoid(k, x) > 0.5 <==> x > 1.0))
    && (forall k, x, y :: k > 0.0 && 0.0 < x < y ==> env.sigmoid(k, x) < env.sigmoid(k, y))
  }

  /** A sigmoid sell takes a positive share, under 5%, of the floating stack. */
  lemma SellShare(floatStack: real, s: real)
    requires floatStack > 0.0 && s < 1.0
    ensures SellQty(floatStack, s) < floatStack * R_TICK_MAX_SELL
    ensures SellQty(floatStack, s) > 0.0 <==> s > 0.5
    ensures SellQty(floatStack, 0.5) == 0.0 && SellQty(floatStack, 1.0) == floatStack * 0.05
    ensures R_TICK_MAX_SELL == 0.05
  {
    var r := (s - 0.5) * 2.0;
    assert floatStack * r < floatStack;
    assert floatStack * r > 0.0 <==> r > 0.0;
  }

  /** Half way between two signals half way is sold: the share rises evenly. */
  lemma SellShareIsEven(floatStack: real, s: real, s': real)
    ensures 2.0 * SellQty(floatStack, (s + s') / 2.0) == SellQty(floatStack, s) + SellQty(floatStack, s')
  {
    assert floatStack * (s + s' - 1.0) == floatStack * (s - 0.5) + floatStack * (s' - 0.5);
  }

  /** The signal exceeds one half exactly when the price exceeds its average. */
  lemma SignalAboveHalf(env: Env, price: real, ema200: real, c: Chromosome)
    requires Logistic(env) && ema200 > 0.0 && price > 0.0
    ensures 0.0 < Signal(env, price, ema200, c) < 1.0
    ensures c.sigmoidSensitivity > 0.0 ==> (Signal(env, price, ema200, c) > 0.5 <==> price > ema200)
  {}

  lemma RatioOrder(x: real, x': real, ema: real, ema': real)
    requires ema > 0.0 && ema' > 0.0 && (x * ema) * ema' < (x' * ema') * ema
    ensures x < x'
  {
    var e := ema * ema';
    assert (x * ema) * ema' == x * e && (x' * ema') * ema == x' * e && e > 0.0;
  }

  lemma ShareGrows(f: real, s: real, s': real)
    requires f > 0.0 && s < s'
    ensures SellQty(f, s) < SellQty(f, s')
  {
    var r, r' := (s - 0.5) * 2.0, (s' - 0.5) * 2.0;
    assert f * r < f * r';
  }

  /** The further the price is above its average, in proportion, the more is sold. */
  lemma HigherRatioSellsMore(
    env: Env, price: real, ema: real, price': real, ema': real, c: Chromosome, floatStack: real)
    requires Logistic(env) && c.sigmoidSensitivity > 0.0 && floatStack > 0.0
    requires ema > 0.0 && ema' > 0.0 && price > 0.0 && price' > 0.0 && price * ema' < price' * ema
    ensures SellQty(floatStack, Signal(env, price, ema, c)) < SellQty(floatStack, Signal(env, price', ema', c))
  {
    var x, x' := price / ema, price' / ema';
    assert x * ema == price && x' * ema' == price';
    RatioOrder(x, x', ema, ema');
    ShareGrows(floatStack, Signal(env, price, ema, c), Signal(env, price', ema', c));
  }
}
