/** Portfolio safety of every backtest run. */
module Safety {
  import opened Data
  import opened Numeric
  import Drawdown
  import opened Lot
  import opened Strategy
  import opened MicroEngine
  import opened Backtest
  import opened StepFacts

  /** The portfolio of the evaluation period: cash never under the smaller of the initial
      capital and the reserve, spendable cash is what exceeds the reserve, no negative
      stack, nothing ever sealed. */
  ghost predicate Sound(spawn: SpawnPoint, p: PortfolioState) {
    && p.reserveFloor == spawn.reserveFloor
    && p.navInitial == spawn.initialCapital
    && p.totalUSDT >= Min(spawn.initialCapital, spawn.reserveFloor)
    && p.spendableUSDT == Clamp0(p.totalUSDT - p.reserveFloor)
    && p.deadStack >= 0.0 && p.floatStack >= 0.0 && p.coldSealedStack == 0.0
  }

  ghost predicate Invariant(cfg: Config, s: Sim) {
    if s.inEval then Sound(cfg.spawn, s.portfolio) else s.portfolio == InitialSim(cfg).portfolio
  }

  ghost predicate ValidFee(fee: real) {
    0.0 <= fee <= 1.0
  }

  /** The only reason left to refuse a legal trade: it is smaller than the minimum lot. */
  ghost predicate LotRefused(t: TradeIntent, m: Terms)
    requires m.price > 0.0
  {
    m.lotMin > 0.0 &&
    (if t.action == BUY then BuyQty(t.amountUSDT, m) else SnapToStep(t.qtyAsset, m.lotStep)) < m.lotMin
  }

  /** A fill the portfolio can carry. */
  ghost predicate SafeFill(f: Fill, p: PortfolioState, m: Terms) {
    match f
    case NoFill => true
    case Bought(lot, qty) =>
      lot == DEAD_STACK && qty >= 0.0 && 0.0 <= Notional(qty, m.price) <= p.spendableUSDT && p.spendableUSDT > 0.0
    case Sold(qty) => 0.0 <= qty <= p.floatStack
    case Released(qty) => 0.0 < qty <= p.deadStack
  }

  /** A BUY never costs more than its order amount. */
  lemma BuyCost(spend: real, m: Terms)
    requires spend > 0.0 && m.price > 0.0 && ValidFee(m.fee)
    ensures BuyQty(spend, m) >= 0.0
    ensures 0.0 <= Notional(BuyQty(spend, m), m.price) <= spend
  {}

  lemma LegalTradeFills(t: TradeIntent, spawn: SpawnPoint, p: PortfolioState, m: Terms)
    requires m.price > 0.0 && ValidFee(m.fee) && LegalTrade(Some(t), p)
    ensures SafeFill(FillOf(t, p, m), p, m)
    ensures FillOf(t, p, m).NoFill? <==> LotRefused(t, m)
    ensures FillOf(t, p, m).Bought? ==> Notional(FillOf(t, p, m).qty, m.price) <= t.amountUSDT
    ensures FillOf(t, p, m).Sold? ==> t.action == SELL && FillOf(t, p, m).qty <= t.qtyAsset
    ensures !FillOf(t, p, m).Released?
  {
    if t.action == BUY {
      BuyCost(t.amountUSDT, m);
    } else {
      SnapBounds(t.qtyAsset, m.lotStep);
    }
    hide BuyQty, SnapToStep, Notional;
  }

  lemma LegalReleaseFills(r: TradeIntent, spawn: SpawnPoint, p: PortfolioState, q: PortfolioState, m: Terms)
    requires m.price > 0.0 && LegalRelease(Some(r), p, spawn)
    requires q.deadStack >= p.deadStack
    ensures SafeFill(FillOf(r, q, m), q, m)
    ensures spawn.releaseRatio <= 1.0 ==> FillOf(r, q, m) == Released(r.qtyAsset)
    ensures q.deadStack == p.deadStack ==> (FillOf(r, q, m).NoFill? <==> spawn.releaseRatio > 1.0)
  {
    ReleaseShare(p.deadStack, spawn.releaseRatio);
    hide ReleaseQty;
  }

  lemma ProceedsNonNegative(qty: real, m: Terms)
    requires qty >= 0.0 && m.price > 0.0 && m.fee <= 1.0
    ensures Proceeds(qty, m) >= 0.0
  {
    MulOrder(0.0, qty, m.price);
    MulOrder(0.0, Notional(qty, m.price), 1.0 - m.fee);
  }

  lemma SettleSound(f: Fill, spawn: SpawnPoint, p: PortfolioState, m: Terms)
    requires m.price > 0.0 && ValidFee(m.fee) && Sound(spawn, p) && SafeFill(f, p, m)
    ensures Sound(spawn, Settle(f, p, m))
    ensures !f.Released? ==> Settle(f, p, m).deadStack >= p.deadStack
    ensures f.Bought? ==> Settle(f, p, m).totalUSDT >= p.reserveFloor
  {
    if f.Sold? {
      ProceedsNonNegative(f.qty, m);
    }
    hide Notional, Proceeds;
  }

  /** The two slots of a step's intent list, executed in list order. */
  function ExecuteSlot(t: Option<TradeIntent>, p: PortfolioState, m: Terms): PortfolioState
    requires m.price > 0.0
  {
    match t
    case None => p
    case Some(x) => Execute(x, p, m)
  }

  lemma ExecuteTwo(t: Option<TradeIntent>, r: Option<TradeIntent>, p: PortfolioState, m: Terms)
    requires m.price > 0.0
    ensures ExecuteAll(ToSeq(t) + ToSeq(r), p, m) == ExecuteSlot(r, ExecuteSlot(t, p, m), m)
  {
    hide Execute;
    var all := ToSeq(t) + ToSeq(r);
    if t.Some? && r.Some? {
      assert all[..1] == [t.value] && [t.value][..0] == [];
      assert ExecuteAll([t.value], p, m) == Execute(t.value, p, m);
      assert all[1] == r.value;
    } else if |all| == 1 {
      assert all[..0] == [];
    }
  }

  /** Every legal output of a step leaves the portfolio sound. */
  lemma StepKeepsSound(t: Option<TradeIntent>, r: Option<TradeIntent>, spawn: SpawnPoint, p: PortfolioState, m: Terms)
    requires m.price > 0.0 && ValidFee(m.fee) && Sound(spawn, p)
    requires LegalTrade(t, p) && LegalRelease(r, p, spawn)
    ensures Sound(spawn, ExecuteAll(ToSeq(t) + ToSeq(r), p, m))
    ensures Sound(spawn, ExecuteSlot(t, p, m)) && ExecuteSlot(t, p, m).deadStack >= p.deadStack
  {
    ExecuteTwo(t, r, p, m);
    if t.Some? {
      LegalTradeFills(t.value, spawn, p, m);
      SettleSound(FillOf(t.value, p, m), spawn, p, m);
    }
    var q := ExecuteSlot(t, p, m);
    if r.Some? {
      LegalReleaseFills(r.value, spawn, p, q, m);
      SettleSound(FillOf(r.value, q, m), spawn, q, m);
    }
    hide ExecuteAll, Settle, FillOf, LegalTrade, LegalRelease;
  }

  /** No intent list, legal or not, touches the sealed stack, the reserve or the initial value. */
  lemma {:induction false} SealedUntouched(intents: seq<TradeIntent>, p: PortfolioState, m: Terms)
    requires m.price > 0.0
    ensures var q := ExecuteAll(intents, p, m);
      q.coldSealedStack == p.coldSealedStack && q.reserveFloor == p.reserveFloor && q.navInitial == p.navInitial
  {
    hide FillOf, Notional, Proceeds;
    if |intents| == 0 {
    } else {
      SealedUntouched(intents[..|intents| - 1], p, m);
    }
  }

  /** The release takes more than the dead stack, and the buy before it makes up the
      difference. */
  ghost predicate BuyUnblocksRelease(t: Option<TradeIntent>, r: Option<TradeIntent>, p: PortfolioState, m: Terms)
    requires m.price > 0.0
  {
    && t.Some? && r.Some?
    && FillOf(t.value, p, m).Bought?
    && p.deadStack < r.value.qtyAsset <= p.deadStack + FillOf(t.value, p, m).qty
  }

  /** Exactly when the release of a step is refused after the step's trade. */
  lemma ReleaseRefusedIff(t: Option<TradeIntent>, r: TradeIntent, spawn: SpawnPoint, p: PortfolioState, m: Terms)
    requires m.price > 0.0 && ValidFee(m.fee)
    requires LegalTrade(t, p) && LegalRelease(Some(r), p, spawn)
    ensures FillOf(r, ExecuteSlot(t, p, m), m).NoFill?
       <==> spawn.releaseRatio > 1.0 && !BuyUnblocksRelease(t, Some(r), p, m)
  {
    ReleaseShare(p.deadStack, spawn.releaseRatio);
    if t.Some? {
      LegalTradeFills(t.value, spawn, p, m);
    }
    hide ReleaseQty, BuyQty, SnapToStep, Notional, Proceeds;
  }

  lemma ReadyInvariant(env: Env, cfg: Config, bar: Bar, s: Sim)
    requires Invariant(cfg, s)
    ensures Invariant(cfg, Opened(env, cfg, bar, s))
  {}

  lemma ApplyInvariant(cfg: Config, bar: Bar, out: StrategyOutput, s: Sim)
    requires ValidFee(cfg.takerFee) && Invariant(cfg, s)
    requires out.intents == ToSeq(TradeIn(out.intents)) + ToSeq(ReleaseIn(out.intents))
    requires LegalTrade(TradeIn(out.intents), s.portfolio)
    requires LegalRelease(ReleaseIn(out.intents), s.portfolio, cfg.spawn)
    ensures Invariant(cfg, Apply(cfg, bar, out, s))
  {
    if s.inEval && bar.close > 0.0 {
      StepKeepsSound(TradeIn(out.intents), ReleaseIn(out.intents), cfg.spawn, s.portfolio, TermsAt(cfg, bar));
    }
  }

  /** The portfolio invariant holds after every bar, and whenever the strategy is consulted. */
  lemma {:induction false} RunSafe(env: Env, cfg: Config, n: nat)
    requires Logistic(env) && ValidFee(cfg.takerFee) && n <= |cfg.bars|
    ensures Invariant(cfg, RunTo(env, cfg, n))
    ensures n < |cfg.bars| ==> Invariant(cfg, Ready(env, cfg, n))
  {
    hide Step, Sound, Opened, Apply;
    if n == 0 {
    } else {
      RunSafe(env, cfg, n - 1);
      FoldBar(env, cfg, n - 1);
      StepLegal(env, InputAt(cfg, n - 1, Ready(env, cfg, n - 1)));
      ApplyInvariant(cfg, cfg.bars[n - 1], Output(env, cfg, n - 1), Ready(env, cfg, n - 1));
    }
    if n < |cfg.bars| {
      FoldBar(env, cfg, n);
      ReadyInvariant(env, cfg, cfg.bars[n], RunTo(env, cfg, n));
    }
  }

  lemma FillOfRelease(r: TradeIntent, p: PortfolioState, m: Terms)
    requires m.price > 0.0 && r.action == RELEASE
    ensures FillOf(r, p, m) in {NoFill, Released(r.qtyAsset)}
  {}

  /** Every order a backtest bar emits passes the guards of execution, except exactly a trade
      under the minimum lot, and a release of ratio above one that no buy makes room for. */
  lemma OnlyLotMinRefuses(env: Env, cfg: Config, i: nat)
    requires Logistic(env) && ValidFee(cfg.takerFee) && i < |cfg.bars|
    requires Ready(env, cfg, i).inEval && cfg.bars[i].close > 0.0
    ensures var out, p, m := Output(env, cfg, i), Ready(env, cfg, i).portfolio, TermsAt(cfg, cfg.bars[i]);
      var t, r := TradeIn(out.intents), ReleaseIn(out.intents);
      && out.intents == ToSeq(t) + ToSeq(r)
      && (t.Some? ==> (FillOf(t.value, p, m).NoFill? <==> LotRefused(t.value, m)))
      && (r.Some? ==>
            (FillOf(r.value, ExecuteSlot(t, p, m), m).NoFill?
             <==> cfg.spawn.releaseRatio > 1.0 && !BuyUnblocksRelease(t, r, p, m)))
      && (r.Some? && !FillOf(r.value, ExecuteSlot(t, p, m), m).NoFill? ==>
            FillOf(r.value, ExecuteSlot(t, p, m), m) == Released(r.value.qtyAsset))
  {
    hide Step, FillOf, Settle, LotRefused, BuyUnblocksRelease;
    RunSafe(env, cfg, i);
    FoldBar(env, cfg, i);
    var out, s, m := Output(env, cfg, i), Ready(env, cfg, i), TermsAt(cfg, cfg.bars[i]);
    StepLegal(env, InputAt(cfg, i, s));
    var t, r := TradeIn(out.intents), ReleaseIn(out.intents);
    StepKeepsSound(t, r, cfg.spawn, s.portfolio, m);
    if t.Some? {
      LegalTradeFills(t.value, cfg.spawn, s.portfolio, m);
    }
    if r.Some? {
      ReleaseRefusedIff(t, r.value, cfg.spawn, s.portfolio, m);
      FillOfRelease(r.value, ExecuteSlot(t, s.portfolio, m), m);
    }
  }

  lemma NavNonNegative(spawn: SpawnPoint, p: PortfolioState, price: real)
    requires Sound(spawn, p) && spawn.initialCapital >= 0.0 && spawn.reserveFloor >= 0.0 && price > 0.0
    ensures p.Nav(price) >= 0.0
  {
    MulOrder(0.0, p.Btc(), price);
  }

  lemma {:induction false} CurveNonNegative(env: Env, cfg: Config, n: nat)
    requires Logistic(env) && ValidFee(cfg.takerFee) && n <= |cfg.bars|
    requires cfg.spawn.initialCapital >= 0.0 && cfg.spawn.reserveFloor >= 0.0
    ensures forall v :: v in RunTo(env, cfg, n).nav ==> v >= 0.0
  {
    hide Step, Sound, ExecuteAll, Ready, Output, PortfolioState.Nav;
    if n == 0 {
    } else {
      var i := n - 1;
      CurveNonNegative(env, cfg, i);
      FoldBar(env, cfg, i);
      RunSafe(env, cfg, i + 1);
      var s := RunTo(env, cfg, n);
      if s.inEval && cfg.bars[i].close > 0.0 {
        NavNonNegative(cfg.spawn, s.portfolio, cfg.bars[i].close);
      }
    }
  }

  /** With a non-negative reserve the reported drawdown of a run is the largest fall of its
      value curve over all pairs of bars, and a fraction. */
  lemma RunDrawdownExact(env: Env, cfg: Config)
    requires Logistic(env) && ValidFee(cfg.takerFee) && cfg.spawn.reserveFloor >= 0.0
    ensures 0.0 <= Result(env, cfg).maxDrawdown <= 1.0
    ensures |cfg.bars| > 0 && cfg.spawn.initialCapital > 0.0
        ==> Drawdown.IsLargestDrop(RunTo(env, cfg, |cfg.bars|).nav, Result(env, cfg).maxDrawdown)
  {
    hide RunTo;
    if |cfg.bars| > 0 && cfg.spawn.initialCapital > 0.0 {
      CurveNonNegative(env, cfg, |cfg.bars|);
      var nav := RunTo(env, cfg, |cfg.bars|).nav;
      assert forall i :: 0 <= i < |nav| ==> nav[i] in nav;
      Drawdown.NonNegativeCurveExact(nav);
    }
  }
}
