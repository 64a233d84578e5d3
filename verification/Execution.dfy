/** What the execution of an intent does to cash and stacks, in amounts, prices and fees. */
module Execution {
  import opened Data
  import opened Numeric
  import opened Backtest
  import opened Safety

  /** By how much the cash falls. */
  function Cost(p: PortfolioState, q: PortfolioState): real {
    p.totalUSDT - q.totalUSDT
  }

  lemma NetOfFee(spend: real, price: real, fee: real)
    requires price > 0.0
    ensures NetQty(spend, price, fee) * price == spend * (1.0 - fee)
  {
    var x := spend / price;
    assert x * price == spend;
    assert (x * (1.0 - fee)) * price == (x * price) * (1.0 - fee);
  }

  lemma NetNonNegative(spend: real, m: Terms)
    requires spend > 0.0 && m.price > 0.0 && ValidFee(m.fee)
    ensures NetQty(spend, m.price, m.fee) >= 0.0
  {
    var x := spend / m.price;
    assert x * m.price == spend;
    MulOrder(0.0, x, 1.0 - m.fee);
  }

  /** What the bought quantity is worth, against the amount less the fee. */
  lemma BoughtWorth(spend: real, m: Terms)
    requires spend > 0.0 && m.price > 0.0 && ValidFee(m.fee)
    ensures BuyQty(spend, m) * m.price <= spend * (1.0 - m.fee)
    ensures m.lotStep <= 0.0 ==> BuyQty(spend, m) * m.price == spend * (1.0 - m.fee)
    ensures m.lotStep > 0.0 ==> (BuyQty(spend, m) + m.lotStep) * m.price > spend * (1.0 - m.fee)
  {
    var net, snapped := NetQty(spend, m.price, m.fee), BuyQty(spend, m);
    NetOfFee(spend, m.price, m.fee);
    NetNonNegative(spend, m);
    SnapBounds(net, m.lotStep);
    MulOrder(snapped, net, m.price);
    if m.lotStep > 0.0 {
      MulStrict(net, snapped + m.lotStep, m.price);
    }
    hide NetQty, SnapToStep;
  }

  lemma NothingIsWhole(step: real)
    ensures IsWhole(0.0, step)
  {
    assert Steps(0, step) == 0.0;
  }

  /** Every BUY that fills pays the amount less the fee, down to the last whole lot, and gets
      its payment's worth at the price in the named stack.  So the fee is never paid: it only
      makes the order smaller. */
  lemma BuyPays(t: TradeIntent, p: PortfolioState, m: Terms)
    requires m.price > 0.0 && ValidFee(m.fee) && t.action == BUY && !FillOf(t, p, m).NoFill?
    ensures var q := Execute(t, p, m);
      && Cost(p, q) <= t.amountUSDT * (1.0 - m.fee)
      && (m.lotStep <= 0.0 ==> Cost(p, q) == t.amountUSDT * (1.0 - m.fee))
      && (m.lotStep > 0.0 ==> Cost(p, q) + m.lotStep * m.price > t.amountUSDT * (1.0 - m.fee))
      && (m.lotStep > 0.0 ==>
            IsWhole(q.deadStack - p.deadStack, m.lotStep) && IsWhole(q.floatStack - p.floatStack, m.lotStep))
      && (q.deadStack - p.deadStack) * m.price == (if t.lotType == DEAD_STACK then Cost(p, q) else 0.0)
      && (q.floatStack - p.floatStack) * m.price == (if t.lotType == FLOATING then Cost(p, q) else 0.0)
      && q.coldSealedStack == p.coldSealedStack && q.spendableUSDT == Clamp0(q.totalUSDT - q.reserveFloor)
  {
    BoughtWorth(t.amountUSDT, m);
    var qty := BuyQty(t.amountUSDT, m);
    assert Cost(p, Execute(t, p, m)) == qty * m.price;
    SnapBounds(NetQty(t.amountUSDT, m.price, m.fee), m.lotStep);
    NothingIsWhole(m.lotStep);
    hide BuyQty, IsWhole;
  }

  /** Without a lot step, a BUY within the funds is refused exactly when the net amount is
      under the value of the minimum lot; outside the funds always. */
  lemma BuyRefusedIff(t: TradeIntent, p: PortfolioState, m: Terms)
    requires m.price > 0.0 && ValidFee(m.fee) && t.action == BUY && m.lotStep <= 0.0
    ensures FillOf(t, p, m).NoFill?
       <==> || t.amountUSDT <= 0.0 || t.amountUSDT > p.spendableUSDT
            || (m.lotMin > 0.0 && t.amountUSDT * (1.0 - m.fee) < m.lotMin * m.price)
    ensures FillOf(t, p, m).NoFill? ==> Execute(t, p, m) == p
  {
    if t.amountUSDT > 0.0 {
      BoughtWorth(t.amountUSDT, m);
      MulStrict(BuyQty(t.amountUSDT, m), m.lotMin, m.price);
      MulOrder(m.lotMin, BuyQty(t.amountUSDT, m), m.price);
    }
    hide BuyQty;
  }

  /** Every SELL that fills gives up its quantity down to the last whole lot, and earns its
      worth at the price less the fee. */
  lemma SellEarns(t: TradeIntent, p: PortfolioState, m: Terms)
    requires m.price > 0.0 && t.action == SELL && t.qtyAsset >= 0.0 && !FillOf(t, p, m).NoFill?
    ensures var q := Execute(t, p, m);
      var sold := p.floatStack - q.floatStack;
      && 0.0 <= sold <= t.qtyAsset && sold <= p.floatStack
      && (m.lotStep <= 0.0 ==> sold == t.qtyAsset)
      && (m.lotStep > 0.0 ==> sold + m.lotStep > t.qtyAsset && IsWhole(sold, m.lotStep))
      && q.totalUSDT - p.totalUSDT == sold * m.price * (1.0 - m.fee)
      && q.deadStack == p.deadStack && q.coldSealedStack == p.coldSealedStack
      && q.spendableUSDT == Clamp0(q.totalUSDT - q.reserveFloor)
  {
    SnapBounds(t.qtyAsset, m.lotStep);
    hide SnapToStep, IsWhole;
  }

  lemma SellRefusedIff(t: TradeIntent, p: PortfolioState, m: Terms)
    requires m.price > 0.0 && t.action == SELL && m.lotStep <= 0.0
    ensures FillOf(t, p, m).NoFill? <==> (m.lotMin > 0.0 && t.qtyAsset < m.lotMin) || t.qtyAsset > p.floatStack
    ensures FillOf(t, p, m).NoFill? ==> Execute(t, p, m) == p
  {}
}
