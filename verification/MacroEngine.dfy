/** Macro engine: three price-drop tiers a month, at most one BUY a tick. */
module MacroEngine {
  import opened Data
  import opened Numeric

  const MACRO_MIN_ORDER_USDT: real := 10.1

  datatype Tier = Tier(id: int, trigger: real, spendPct: real)

  /** The price below which a tier fires. */
  function Trigger(monthHigh: real, drop: real, mul: real): real {
    monthHigh * (1.0 - drop * mul)
  }

  function Tiers(monthHigh: real, drop: real): seq<Tier> {
    [Tier(1, Trigger(monthHigh, drop, 1.0), 0.05),
     Tier(2, Trigger(monthHigh, drop, 1.5), 0.10),
     Tier(3, Trigger(monthHigh, drop, 2.0), 0.15)]
  }

  /** The monthly reset, or the running month high. */
  function RollMonth(rt: RuntimeState, price: real, month: MonthKey): RuntimeState {
    if month != rt.month then rt.(month := month, monthHigh := price, triggeredTiers := [])
    else if price > rt.monthHigh then rt.(monthHigh := price)
    else rt
  }

  function Share(cash: real, pct: real): real {
    cash * pct
  }

  function TierAmount(t: Tier, p: PortfolioState): real {
    RoundToUSDT(Share(p.spendableUSDT, t.spendPct))
  }

  /** A tier buys when the price is below its trigger, it has not fired this month, and
      its order is large enough. */
  predicate Fires(t: Tier, price: real, p: PortfolioState, rt: RuntimeState) {
    && price < t.trigger
    && t.id !in rt.triggeredTiers
    && TierAmount(t, p) >= MACRO_MIN_ORDER_USDT
  }

  function OrderAmount(t: Tier, p: PortfolioState): real {
    var amount := TierAmount(t, p);
    if amount > p.spendableUSDT then RoundToUSDT(p.spendableUSDT) else amount
  }

  function Fire(t: Tier, p: PortfolioState, rt: RuntimeState): Decision {
    Decision(Some(TradeIntent(BUY, MACRO, DEAD_STACK, OrderAmount(t, p), 0.0)),
             rt.(triggeredTiers := rt.triggeredTiers + [t.id]))
  }

  function FirstFiring(tiers: seq<Tier>, k: nat, price: real, p: PortfolioState, rt: RuntimeState): Decision
    requires k <= |tiers|
    decreases |tiers| - k
  {
    if k == |tiers| then Decision(None, rt)
    else if Fires(tiers[k], price, p, rt) then Fire(tiers[k], p, rt)
    else FirstFiring(tiers, k + 1, price, p, rt)
  }

  function MacroDecision(price: real, p: PortfolioState, c: Chromosome, rt: RuntimeState, month: MonthKey): Decision {
    var rt' := RollMonth(rt, price, month);
    if p.spendableUSDT <= 0.0 || rt'.monthHigh <= 0.0 then Decision(None, rt')
    else FirstFiring(Tiers(rt'.monthHigh, c.dcaDropPct), 0, price, p, rt')
  }

  method ContainsInt(slice: seq<int>, v: int) returns (found: bool)
    ensures found <==> v in slice
  {
    for i := 0 to |slice|
      invariant v !in slice[..i]
    {
      if slice[i] == v {
        return true;
      }
    }
    return false;
  }

  lemma SkipTier(tiers: seq<Tier>, k: nat, price: real, p: PortfolioState, rt: RuntimeState)
    requires k < |tiers| && !Fires(tiers[k], price, p, rt)
    ensures FirstFiring(tiers, k, price, p, rt) == FirstFiring(tiers, k + 1, price, p, rt)
  {}

  /** The engine's loop over its tier table. */
  method ScanTiers(tiers: seq<Tier>, price: real, p: PortfolioState, rt: RuntimeState) returns (d: Decision)
    ensures d == FirstFiring(tiers, 0, price, p, rt)
  {
    for i := 0 to |tiers|
      invariant FirstFiring(tiers, 0, price, p, rt) == FirstFiring(tiers, i, price, p, rt)
    {
      var t := tiers[i];
      var already := ContainsInt(rt.triggeredTiers, t.id);
      var amount := TierAmount(t, p);
      if price >= t.trigger || already || amount < MACRO_MIN_ORDER_USDT {
        SkipTier(tiers, i, price, p, rt);
        continue;
      }
      if amount > p.spendableUSDT {
        amount := RoundToUSDT(p.spendableUSDT);
      }
      var marked := rt.(triggeredTiers := rt.triggeredTiers + [t.id]);
      return Decision(Some(TradeIntent(BUY, MACRO, DEAD_STACK, amount, 0.0)), marked);
    }
    return Decision(None, rt);
  }

  method ComputeMacroDecision(price: real, p: PortfolioState, c: Chromosome, rt: RuntimeState, month: MonthKey)
    returns (d: Decision)
    ensures d == MacroDecision(price, p, c, rt, month)
  {
    var rt' := rt;
    if month != rt'.month {
      rt' := rt'.(month := month);
      rt' := rt'.(monthHigh := price);
      rt' := rt'.(triggeredTiers := []);
    } else if price > rt'.monthHigh {
      rt' := rt'.(monthHigh := price);
    }
    if p.spendableUSDT <= 0.0 || rt'.monthHigh <= 0.0 {
      return Decision(None, rt');
    }
    d := ScanTiers(Tiers(rt'.monthHigh, c.dcaDropPct), price, p, rt');
  }

  /** Which tier buys: the first one, in table order, that fires; otherwise nothing does. */
  lemma {:induction false} FirstFiringTier(tiers: seq<Tier>, k: nat, price: real, p: PortfolioState, rt: RuntimeState)
    requires k <= |tiers|
    ensures var d := FirstFiring(tiers, k, price, p, rt);
      if d.intent.None? then d.rt == rt && forall j :: k <= j < |tiers| ==> !Fires(tiers[j], price, p, rt)
      else exists i :: && k <= i < |tiers| && Fires(tiers[i], price, p, rt) && d == Fire(tiers[i], p, rt)
                       && forall j :: k <= j < i ==> !Fires(tiers[j], price, p, rt)
    decreases |tiers| - k
  {
    if k < |tiers| && !Fires(tiers[k], price, p, rt) {
      FirstFiringTier(tiers, k + 1, price, p, rt);
    }
  }

  /** The ladder of triggers: the first a full drop under the month high, each further one
      half a drop deeper. */
  lemma TierLadder(monthHigh: real, drop: real)
    ensures var ts := Tiers(monthHigh, drop);
      && ts[0].trigger == monthHigh - monthHigh * drop
      && ts[0].trigger - ts[1].trigger == ts[1].trigger - ts[2].trigger == monthHigh * drop / 2.0
      && (monthHigh > 0.0 && drop > 0.0 ==> monthHigh > ts[0].trigger > ts[1].trigger > ts[2].trigger)
  {
    var d := monthHigh * drop;
    assert Trigger(monthHigh, drop, 1.0) == monthHigh - d;
    assert Trigger(monthHigh, drop, 1.5) == monthHigh - d * 1.5;
    assert Trigger(monthHigh, drop, 2.0) == monthHigh - d * 2.0;
    if monthHigh > 0.0 && drop > 0.0 {
      assert d > 0.0;
    }
    hide Trigger;
  }

  /** Tiers fire out of order only over a tier whose order is too small: when a tier buys,
      every shallower one has fired this month or is under the minimum order. */
  lemma SkippedTierIsTooSmall(price: real, p: PortfolioState, c: Chromosome, rt: RuntimeState, month: MonthKey)
    requires c.dcaDropPct > 0.0 && MacroDecision(price, p, c, rt, month).intent.Some?
    ensures var r := RollMonth(rt, price, month);
      var tiers := Tiers(r.monthHigh, c.dcaDropPct);
      exists j ::
        && 0 <= j < |tiers| && MacroDecision(price, p, c, rt, month) == Fire(tiers[j], p, r)
        && forall i :: 0 <= i < j ==> tiers[i].id in r.triggeredTiers || TierAmount(tiers[i], p) < MACRO_MIN_ORDER_USDT
  {
    var r := RollMonth(rt, price, month);
    var tiers := Tiers(r.monthHigh, c.dcaDropPct);
    FirstFiringTier(tiers, 0, price, p, r);
    TierLadder(r.monthHigh, c.dcaDropPct);
    hide RollMonth, TierAmount, OrderAmount, FirstFiring, Trigger;
  }
}
