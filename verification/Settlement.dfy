/** Exactly-once settlement: whatever the order of ticks, releases and (lost, late, repeated)
    reports, the stacks are what the journal says. */
module Settlement {
  import opened Data
  import opened Numeric
  import opened Ledger
  import StepFacts
  import opened Strategy

  /** One transaction of the live system. */
  datatype Event =
    | Ensure(instance: nat)
    | Release(instance: nat, qty: real)
    | Dispatch(order: OrderId, instance: nat, command: Command)
    | Reported(report: Report)
    | SetInstance(instance: nat, row: InstanceRow)

  function Next(db: Db, e: Event): Db {
    match e
    case Ensure(i) => EnsureRow(db, i)
    case Release(i, qty) => ApplyRelease(db, i, qty)
    case Dispatch(o, i, c) => ApplyDispatch(db, o, i, c)
    case Reported(r) => ApplyReport(db, r)
    case SetInstance(i, row) => db.(instances := db.instances[i := row])
  }

  const EMPTY := Db(map[], map[], map[], [], [])

  /** The tables after some transactions. */
  function Applied(db: Db, events: seq<Event>): Db {
    if |events| == 0 then db else Next(Applied(db, events[..|events| - 1]), events[|events| - 1])
  }

  /** The tables that a whole history leads to. */
  function After(events: seq<Event>): Db {
    Applied(EMPTY, events)
  }

  lemma {:induction false} AppliedConcat(db: Db, a: seq<Event>, b: seq<Event>)
    ensures Applied(db, a + b) == Applied(Applied(db, a), b)
  {
    hide Next;
    if |b| == 0 {
      assert a + b == a;
    } else {
      var n := |b| - 1;
      AppliedConcat(db, a, b[..n]);
      assert (a + b)[..|a| + n] == a + b[..n];
    }
  }

  /** The strategy never sells the dead stack. */
  predicate Dispatchable(c: Command) {
    c.lotType == DEAD_STACK ==> c.action == BUY
  }

  /** Exchange fills are not negative, and orders come from the strategy. */
  predicate WellFormed(e: Event) {
    && (e.Reported? && e.report.execution.Some? ==> e.report.execution.value.qty >= 0.0)
    && (e.Dispatch? ==> Dispatchable(e.command))
  }

  /** A step hands the ledger at most one order, and a dispatchable one, which names the side,
      the engine and the stack of its intent: a macro buy for the dead stack, or a micro sell
      of the floating stack.  It says exactly the amount of a buy, and the quantity of a sell
      to eight decimals. */
  lemma StepOrdersAreDispatchable(env: Env, input: StrategyInput)
    ensures forall i, j ::
              0 <= i < j < |Step(env, input).intents|
              ==> Step(env, input).intents[i].action == RELEASE || Step(env, input).intents[j].action == RELEASE
    ensures forall x :: x in Step(env, input).intents && x.action != RELEASE ==>
              var c := IntentToCommand(x);
              && Dispatchable(c)
              && c.action == x.action && c.engine == x.engine && c.lotType == x.lotType
              && (c.action, c.engine, c.lotType) in {(BUY, MACRO, DEAD_STACK), (SELL, MICRO, FLOATING)}
              && (c.amountUSDT.Some? || c.qtyAsset.Some?)
              && (c.amountUSDT.Some? ==> c.action == BUY && c.amountUSDT.value == x.amountUSDT)
              && (c.qtyAsset.Some? ==> && c.action == SELL
                                       && x.qtyAsset - 0.000000005 <= c.qtyAsset.value <= x.qtyAsset + 0.000000005)
  {
    StepFacts.StepShape(env, input);
    var intents := Step(env, input).intents;
    forall x | x in intents && x.action != RELEASE
      ensures (x.action == BUY && Written(x.amountUSDT, 100) == x.amountUSDT) || x.action == SELL
      ensures (x.action, x.engine, x.lotType) in {(BUY, MACRO, DEAD_STACK), (SELL, MICRO, FLOATING)}
    {
      assert StepFacts.TradeIn(intents) == Some(x);
      if x.action == BUY {
        CentsKept(x.amountUSDT);
      }
    }
    forall x | x in intents && x.action == SELL
      ensures x.qtyAsset - 0.000000005 <= Written(x.qtyAsset, 100_000_000) <= x.qtyAsset + 0.000000005
    {
      EightDecimals(x.qtyAsset);
    }
    hide Step, Written;
  }

  // ----- what the journal says

  /** Released from the dead stack of an instance. */
  function ReleasedTotal(audits: seq<AuditLog>, instance: nat): real {
    if |audits| == 0 then 0.0
    else
      var a := audits[|audits| - 1];
      ReleasedTotal(audits[..|audits| - 1], instance) + if a.DeadRelease? && a.instance == instance then a.qty else 0.0
  }

  /** Filled for an instance on one lot type, on the buy side or on the other side. */
  function FilledTotal(audits: seq<AuditLog>, instance: nat, lot: LotType, buy: bool): real {
    if |audits| == 0 then 0.0
    else
      var a := audits[|audits| - 1];
      FilledTotal(audits[..|audits| - 1], instance, lot, buy)
      + if a.DeltaReport? && a.instance == instance && a.lotType == lot && (a.action == BUY) == buy then a.qty else 0.0
  }

  /** The fills of the journal, in order. */
  function Fills(audits: seq<AuditLog>): seq<AuditLog> {
    if |audits| == 0 then []
    else
      var a := audits[|audits| - 1];
      Fills(audits[..|audits| - 1]) + if a.DeltaReport? then [a] else []
  }

  ghost predicate SameFill(t: TradeRecord, a: AuditLog) {
    && a.DeltaReport? && t.order == a.order && t.instance == a.instance && t.action == a.action
    && t.qty == a.qty && t.price == a.price && t.fee == a.fee
  }

  ghost predicate DistinctOrders(trades: seq<TradeRecord>) {
    forall i, j :: 0 <= i < j < |trades| ==> trades[i].order != trades[j].order
  }

  ghost predicate RecordsFilled(t: TradeRecord, executions: map<OrderId, Execution>) {
    && t.order in executions && executions[t.order].status == FILLED
    && executions[t.order].instance == t.instance
    && executions[t.order].command.action == t.action && executions[t.order].command.engine == t.engine
  }

  ghost predicate TradesAreFilled(db: Db) {
    forall i :: 0 <= i < |db.trades| ==> RecordsFilled(db.trades[i], db.executions)
  }

  ghost predicate FilledAreTraded(db: Db) {
    forall o :: o in db.executions && db.executions[o].status == FILLED ==> Traded(db.trades, o)
  }

  ghost predicate FillsMirrorTrades(trades: seq<TradeRecord>, fills: seq<AuditLog>) {
    |fills| == |trades| && forall i :: 0 <= i < |trades| ==> SameFill(trades[i], fills[i])
  }

  /** A journal fill is for the instance, the side and the stack that its order names. */
  ghost predicate FillsOrder(a: AuditLog, executions: map<OrderId, Execution>) {
    && a.DeltaReport? && a.order in executions && executions[a.order].instance == a.instance
    && executions[a.order].command.action == a.action && executions[a.order].command.lotType == a.lotType
  }

  ghost predicate FillsFollowOrders(executions: map<OrderId, Execution>, fills: seq<AuditLog>) {
    forall i :: 0 <= i < |fills| ==> FillsOrder(fills[i], executions)
  }

  /** Trade records, journal fills and filled executions match one to one. */
  ghost predicate OneToOne(db: Db) {
    && DistinctOrders(db.trades) && TradesAreFilled(db) && FilledAreTraded(db)
    && FillsMirrorTrades(db.trades, Fills(db.audits))
    && FillsFollowOrders(db.executions, Fills(db.audits))
  }

  ghost predicate Stacks(db: Db) {
    && (forall o :: o in db.executions ==> Dispatchable(db.executions[o].command))
    && (forall i :: i in db.portfolios ==>
          db.portfolios[i].deadBtc >= 0.0 && db.portfolios[i].floatBtc >= 0.0 && db.portfolios[i].coldSealedBtc == 0.0)
  }

  ghost predicate DeadMatches(db: Db) {
    forall i :: i in db.portfolios ==>
      db.portfolios[i].deadBtc == FilledTotal(db.audits, i, DEAD_STACK, true) - ReleasedTotal(db.audits, i)
  }

  ghost predicate NoJournal(audits: seq<AuditLog>, i: nat) {
    && ReleasedTotal(audits, i) == 0.0
    && forall lot, buy :: FilledTotal(audits, i, lot, buy) == 0.0
  }

  /** An instance without a portfolio row has no journal. */
  ghost predicate NoOrphans(db: Db) {
    forall i: nat :: i !in db.portfolios ==> NoJournal(db.audits, i)
  }

  ghost predicate Consistent(db: Db) {
    OneToOne(db) && Stacks(db) && DeadMatches(db) && NoOrphans(db)
  }

  lemma EmptyConsistent()
    ensures Consistent(EMPTY)
  {}

  // ----- the effect of each transaction

  lemma JournalSnoc(audits: seq<AuditLog>, a: AuditLog, i: nat, lot: LotType, buy: bool)
    ensures ReleasedTotal(audits + [a], i)
         == ReleasedTotal(audits, i) + (if a.DeadRelease? && a.instance == i then a.qty else 0.0)
    ensures FilledTotal(audits + [a], i, lot, buy) == FilledTotal(audits, i, lot, buy)
          + (if a.DeltaReport? && a.instance == i && a.lotType == lot && (a.action == BUY) == buy then a.qty else 0.0)
    ensures Fills(audits + [a]) == Fills(audits) + (if a.DeltaReport? then [a] else [])
  {}

  lemma BalancesKeep(db: Db, user: nat, balances: seq<Balance>)
    requires Consistent(db)
    ensures Consistent(ApplyBalances(db, user, balances))
  {}

  /** The matching of trades looks at executions, trades and journal fills only. */
  lemma SameTables(a: Db, b: Db)
    requires a.executions == b.executions && a.trades == b.trades && Fills(a.audits) == Fills(b.audits)
    ensures OneToOne(a) <==> OneToOne(b)
  {}

  lemma ReleaseJournal(db: Db, a: AuditLog)
    requires a.DeadRelease?
    ensures Fills(db.audits + [a]) == Fills(db.audits)
    ensures forall i: nat, lot, buy :: FilledTotal(db.audits + [a], i, lot, buy) == FilledTotal(db.audits, i, lot, buy)
    ensures forall i: nat :: ReleasedTotal(db.audits + [a], i)
                          == ReleasedTotal(db.audits, i) + if i == a.instance then a.qty else 0.0
  {}

  lemma ReleaseKeeps(db: Db, instance: nat, qty: real)
    requires Consistent(db)
    ensures Consistent(ApplyRelease(db, instance, qty))
  {
    if qty > 0.0 && instance in db.portfolios {
      var q := ApplyRelease(db, instance, qty);
      ReleaseJournal(db, DeadRelease(instance, ReleasedQty(db.portfolios[instance], qty)));
      SameTables(db, q);
      hide FilledTotal, ReleasedTotal, Fills, OneToOne;
      assert Stacks(q);
      assert DeadMatches(q);
      assert NoOrphans(q);
    }
  }

  lemma SettledRecords(db: Db, f: FillReport)
    requires TradesAreFilled(db) && Settles(db, f)
    ensures TradesAreFilled(Settled(db, f))
  {}

  lemma SettledTraded(db: Db, f: FillReport)
    requires FilledAreTraded(db) && Settles(db, f)
    ensures FilledAreTraded(Settled(db, f))
  {
    var q := Settled(db, f);
    forall o | o in q.executions && q.executions[o].status == FILLED
      ensures Traded(q.trades, o)
    {
      if o == f.order {
        assert q.trades[|db.trades|].order == o;
      } else {
        var i :| 0 <= i < |db.trades| && db.trades[i].order == o;
        assert q.trades[i].order == o;
      }
    }
  }

  lemma NewOrderIsDistinct(trades: seq<TradeRecord>, t: TradeRecord)
    requires DistinctOrders(trades) && !Traded(trades, t.order)
    ensures DistinctOrders(trades + [t])
  {}

  lemma MirrorGrows(trades: seq<TradeRecord>, fills: seq<AuditLog>, t: TradeRecord, a: AuditLog)
    requires FillsMirrorTrades(trades, fills) && SameFill(t, a)
    ensures FillsMirrorTrades(trades + [t], fills + [a])
  {}

  lemma FillsStayOrdered(db: Db, f: FillReport, fills: seq<AuditLog>)
    requires Settles(db, f) && FillsFollowOrders(db.executions, fills)
    ensures var q := Settled(db, f);
      FillsFollowOrders(q.executions, fills + [q.audits[|db.audits|]])
  {
    hide Credit, Traded;
  }

  lemma SettledOneToOne(db: Db, f: FillReport)
    requires OneToOne(db) && Settles(db, f)
    ensures OneToOne(Settled(db, f))
  {
    SettledRecords(db, f);
    SettledTraded(db, f);
    var t, a := Settled(db, f).trades[|db.trades|], Settled(db, f).audits[|db.audits|];
    assert Settled(db, f).audits == db.audits + [a] && Settled(db, f).trades == db.trades + [t];
    JournalSnoc(db.audits, a, 0, DEAD_STACK, true);
    NewOrderIsDistinct(db.trades, t);
    MirrorGrows(db.trades, Fills(db.audits), t, a);
    FillsStayOrdered(db, f, Fills(db.audits));
    hide TradesAreFilled, FilledAreTraded, DistinctOrders, FillsMirrorTrades, FillsFollowOrders, Fills;
    hide FilledTotal, ReleasedTotal, Settled, Traded;
  }

  lemma SettledStacks(db: Db, f: FillReport)
    requires Stacks(db) && DeadMatches(db) && NoOrphans(db) && Settles(db, f) && f.qty >= 0.0
    ensures Stacks(Settled(db, f)) && DeadMatches(Settled(db, f)) && NoOrphans(Settled(db, f))
  {
    var q := Settled(db, f);
    var e := db.executions[f.order];
    var a := q.audits[|db.audits|];
    assert q.audits == db.audits + [a];
    forall i: nat, lot, buy
      ensures FilledTotal(q.audits, i, lot, buy) == FilledTotal(db.audits, i, lot, buy)
            + (if i == e.instance && e.command.lotType == lot && (e.command.action == BUY) == buy then f.qty else 0.0)
      ensures ReleasedTotal(q.audits, i) == ReleasedTotal(db.audits, i)
    {
      JournalSnoc(db.audits, a, i, lot, buy);
    }
    hide FilledTotal, ReleasedTotal, Fills, Traded;
  }

  lemma EnsureKeeps(db: Db, i: nat)
    requires Consistent(db)
    ensures Consistent(EnsureRow(db, i))
  {
    if i !in db.portfolios {
      assert NoJournal(db.audits, i);
      hide FilledTotal, ReleasedTotal, OneToOne;
      assert OneToOne(EnsureRow(db, i)) by {
        SameTables(db, EnsureRow(db, i));
      }
    }
  }

  lemma DispatchKeeps(db: Db, o: OrderId, i: nat, c: Command)
    requires Consistent(db) && Dispatchable(c)
    ensures Consistent(ApplyDispatch(db, o, i, c))
  {
    hide FilledTotal, ReleasedTotal, Fills, Traded, SameFill, NoJournal;
  }

  lemma SetInstanceKeeps(db: Db, i: nat, row: InstanceRow)
    requires Consistent(db)
    ensures Consistent(db.(instances := db.instances[i := row]))
  {}

  lemma ReportKeeps(db: Db, r: Report)
    requires Consistent(db) && (r.execution.Some? ==> r.execution.value.qty >= 0.0)
    ensures Consistent(ApplyReport(db, r))
  {
    BalancesKeep(db, r.user, r.balances);
    if r.execution.Some? && Settles(db, r.execution.value) {
      SettledOneToOne(db, r.execution.value);
      SettledStacks(db, r.execution.value);
      hide OneToOne, Stacks, DeadMatches, NoOrphans, Settled, ApplyBalances;
      BalancesKeep(Settled(db, r.execution.value), r.user, r.balances);
    }
    hide Consistent, ApplyBalances;
  }

  /** Every transaction keeps the tables consistent. */
  lemma NextConsistent(db: Db, e: Event)
    requires Consistent(db) && WellFormed(e)
    ensures Consistent(Next(db, e))
  {
    hide Consistent, EnsureRow, ApplyRelease, ApplyDispatch, ApplyReport;
    match e
    case Ensure(i) => EnsureKeeps(db, i);
    case Release(i, qty) => ReleaseKeeps(db, i, qty);
    case Dispatch(o, i, c) => DispatchKeeps(db, o, i, c);
    case SetInstance(i, row) => SetInstanceKeeps(db, i, row);
    case Reported(r) => ReportKeeps(db, r);
  }

  /** Exactly-once settlement, for any order of transactions: trade records match filled
      executions and journal fills one to one, no stack is negative, and the dead stack of
      every instance is its dead-stack buys less its releases. */
  lemma {:induction false} SettlementExactlyOnce(events: seq<Event>)
    requires forall e :: e in events ==> WellFormed(e)
    ensures Consistent(After(events))
  {
    hide Next, Consistent, WellFormed;
    if |events| == 0 {
      EmptyConsistent();
    } else {
      SettlementExactlyOnce(events[..|events| - 1]);
      NextConsistent(After(events[..|events| - 1]), events[|events| - 1]);
    }
  }

  // ----- the floating stack

  /** What a sell fill asks for beyond the floating stack. */
  function Overdraw(db: Db, e: Event, i: nat): real {
    if e.Reported? && e.report.execution.Some? && Settles(db, e.report.execution.value) then
      var f := e.report.execution.value;
      var x := db.executions[f.order];
      if x.instance == i && x.command.lotType == FLOATING && x.command.action != BUY
      then Clamp0(f.qty - db.portfolios[i].floatBtc) else 0.0
    else 0.0
  }

  function OverdrawTotal(events: seq<Event>, i: nat): real {
    if |events| == 0 then 0.0
    else
      var init := events[..|events| - 1];
      OverdrawTotal(init, i) + Overdraw(After(init), events[|events| - 1], i)
  }

  /** What the journal says of the floating stack. */
  function FloatByJournal(db: Db, i: nat): real {
    ReleasedTotal(db.audits, i) + FilledTotal(db.audits, i, FLOATING, true) - FilledTotal(db.audits, i, FLOATING, false)
  }

  function FloatOf(db: Db, i: nat): real {
    if i in db.portfolios then db.portfolios[i].floatBtc else 0.0
  }

  lemma FloatBalances(db: Db, user: nat, balances: seq<Balance>, i: nat)
    ensures FloatOf(ApplyBalances(db, user, balances), i) == FloatOf(db, i)
    ensures FloatByJournal(ApplyBalances(db, user, balances), i) == FloatByJournal(db, i)
  {}

  lemma FloatRelease(db: Db, instance: nat, qty: real, i: nat)
    ensures FloatOf(ApplyRelease(db, instance, qty), i) - FloatOf(db, i)
         == FloatByJournal(ApplyRelease(db, instance, qty), i) - FloatByJournal(db, i)
  {}

  lemma FloatSettled(db: Db, f: FillReport, i: nat)
    requires Settles(db, f) && f.qty >= 0.0
    ensures var x := db.executions[f.order];
      FloatOf(Settled(db, f), i) - FloatOf(db, i)
      == FloatByJournal(Settled(db, f), i) - FloatByJournal(db, i)
       + (if x.instance == i && x.command.lotType == FLOATING && x.command.action != BUY
          then Clamp0(f.qty - db.portfolios[i].floatBtc) else 0.0)
  {}

  lemma FloatStep(db: Db, e: Event, i: nat)
    requires WellFormed(e)
    ensures FloatOf(Next(db, e), i) - FloatOf(db, i)
         == FloatByJournal(Next(db, e), i) - FloatByJournal(db, i) + Overdraw(db, e, i)
  {
    match e
    case Ensure(_) =>
    case Dispatch(_, _, _) =>
    case SetInstance(_, _) =>
    case Release(instance, qty) =>
      FloatRelease(db, instance, qty, i);
      hide FloatOf, FloatByJournal, ApplyRelease;
    case Reported(r) =>
      FloatBalances(db, r.user, r.balances, i);
      if r.execution.Some? && Settles(db, r.execution.value) {
        var f := r.execution.value;
        FloatSettled(db, f, i);
        FloatBalances(Settled(db, f), r.user, r.balances, i);
      }
      hide FloatOf, FloatByJournal, ApplyBalances, Settled;
  }

  lemma OverdrawSign(db: Db, e: Event, i: nat)
    ensures Overdraw(db, e, i) >= 0.0
  {}

  lemma EmptyFloat(i: nat)
    ensures FloatOf(EMPTY, i) == FloatByJournal(EMPTY, i) == 0.0
  {}

  /** The floating stack of every instance is releases plus floating buys less sells, plus
      what sells asked for beyond the stack. */
  lemma {:induction false} FloatAccount(events: seq<Event>, i: nat)
    requires forall e :: e in events ==> WellFormed(e)
    ensures FloatOf(After(events), i) == FloatByJournal(After(events), i) + OverdrawTotal(events, i)
    ensures OverdrawTotal(events, i) >= 0.0
  {
    hide Next, Consistent, WellFormed, FloatByJournal, FloatOf;
    if |events| == 0 {
      EmptyFloat(i);
    } else {
      var init, e := events[..|events| - 1], events[|events| - 1];
      FloatAccount(init, i);
      OverdrawSign(After(init), e, i);
      FloatStep(After(init), e, i);
    }
  }

  lemma NoReportNoOverdraw(db: Db, e: Event, i: nat)
    requires !e.Reported?
    ensures Overdraw(db, e, i) == 0.0
  {}

  /** Only reports overdraw. */
  lemma {:induction false} OverdrawOfReportsOnly(history: seq<Event>, later: seq<Event>, i: nat)
    requires forall e :: e in later ==> !e.Reported?
    ensures OverdrawTotal(history + later, i) == OverdrawTotal(history, i)
  {
    hide After, Overdraw;
    if |later| == 0 {
      assert history + later == history;
    } else {
      var n := |later| - 1;
      OverdrawOfReportsOnly(history, later[..n], i);
      assert (history + later)[..|history| + n] == history + later[..n];
      assert later[n] in later;
      NoReportNoOverdraw(After(history + later[..n]), later[n], i);
    }
  }

  /** No sell fill exceeded the floating stack when it was settled. */
  ghost predicate NeverOverdrawn(events: seq<Event>, i: nat) {
    forall n :: 0 <= n < |events| ==> Overdraw(After(events[..n]), events[n], i) == 0.0
  }

  lemma {:induction false} OverdrawIff(events: seq<Event>, i: nat)
    ensures OverdrawTotal(events, i) >= 0.0
    ensures OverdrawTotal(events, i) == 0.0 <==> NeverOverdrawn(events, i)
  {
    hide After, Overdraw;
    if |events| == 0 {
    } else {
      var n := |events| - 1;
      var init := events[..n];
      OverdrawIff(init, i);
      OverdrawSign(After(init), events[n], i);
      assert forall m :: 0 <= m < n ==> init[..m] == events[..m] && init[m] == events[m];
      assert NeverOverdrawn(events, i) <==> NeverOverdrawn(init, i) && Overdraw(After(init), events[n], i) == 0.0;
    }
  }

  /** The exact condition under which the floating stack is releases plus buys less sells. */
  lemma FloatMatchesIff(events: seq<Event>, i: nat)
    requires forall e :: e in events ==> WellFormed(e)
    ensures FloatOf(After(events), i) == FloatByJournal(After(events), i) <==> NeverOverdrawn(events, i)
  {
    hide After, FloatOf, FloatByJournal, NeverOverdrawn, WellFormed;
    FloatAccount(events, i);
    OverdrawIff(events, i);
  }

  // ----- repeated reports

  /** Nothing differs but reported cash. */
  ghost predicate OnlyCash(db: Db, db': Db) {
    && db'.instances == db.instances && db'.executions == db.executions
    && db'.trades == db.trades && db'.audits == db.audits && db'.portfolios.Keys == db.portfolios.Keys
    && forall i :: i in db.portfolios ==> db'.portfolios[i] == db.portfolios[i].(usdt := db'.portfolios[i].usdt)
  }

  predicate Filled(db: Db, o: OrderId) {
    o in db.executions && db.executions[o].status == FILLED
  }

  /** A filled order stays filled, whatever happens later. */
  lemma {:induction false} FilledStays(db: Db, events: seq<Event>, o: OrderId)
    requires Filled(db, o)
    ensures Filled(Applied(db, events), o)
  {
    if |events| == 0 {
    } else {
      FilledStays(db, events[..|events| - 1], o);
      hide EnsureRow, ApplyRelease, Credit, Traded, UsdtOf, Owns;
    }
  }

  /** A report on a filled order changes nothing but cash. */
  lemma FilledReport(db: Db, r: Report)
    requires r.execution.Some? && Filled(db, r.execution.value.order)
    ensures OnlyCash(db, ApplyReport(db, r))
  {}

  lemma SettledIsFilled(db: Db, r: Report)
    requires r.execution.Some? && Settles(db, r.execution.value)
    ensures Filled(Next(db, Reported(r)), r.execution.value.order)
  {}

  /** A report that has settled its order is harmless whenever it comes again, whatever has
      happened in between. */
  lemma DuplicateReportIsHarmless(events: seq<Event>, r: Report, later: seq<Event>)
    requires r.execution.Some? && Settles(After(events), r.execution.value)
    ensures var db := After(events + [Reported(r)] + later);
      OnlyCash(db, Next(db, Reported(r)))
  {
    var once, o := After(events + [Reported(r)]), r.execution.value.order;
    assert (events + [Reported(r)])[..|events|] == events;
    SettledIsFilled(After(events), r);
    FilledStays(once, later, o);
    AppliedConcat(EMPTY, events + [Reported(r)], later);
    FilledReport(After(events + [Reported(r)] + later), r);
    hide ApplyReport, OnlyCash, Filled, Applied;
  }

  /** Whatever a report did, the same report straight after it changes at most cash. */
  lemma RepeatAtOnceIsHarmless(db: Db, r: Report)
    requires Consistent(db) && r.execution.Some?
    ensures OnlyCash(ApplyReport(db, r), ApplyReport(ApplyReport(db, r), r))
  {
    hide OneToOne, Stacks, DeadMatches, NoOrphans, Credit;
  }

  // ----- an order from the step to the stacks

  /** An order keeps its instance and its command, whatever happens. */
  lemma {:induction false} CommandStays(db: Db, events: seq<Event>, o: OrderId)
    requires o in db.executions
    ensures var q := Applied(db, events);
      && o in q.executions && q.executions[o].instance == db.executions[o].instance
      && q.executions[o].command == db.executions[o].command
  {
    if |events| == 0 {
    } else {
      CommandStays(db, events[..|events| - 1], o);
      hide EnsureRow, ApplyRelease, Credit, Traded, UsdtOf, Owns;
    }
  }

  /** What the settlement of a pending order does: a fill of a dead-stack buy is added to the
      dead stack, a fill of a floating sell is taken from the floating stack and no further
      than zero, and the trade says what was reported. */
  lemma SettledOrder(db: Db, r: Report, i: nat, c: Command)
    requires r.execution.Some? && Settles(db, r.execution.value)
    requires db.executions[r.execution.value.order] == Execution(i, PENDING, c)
    requires (c.action, c.lotType) in {(BUY, DEAD_STACK), (SELL, FLOATING)}
    ensures var f, q := r.execution.value, ApplyReport(db, r);
      var row, row' := db.portfolios[i], q.portfolios[i];
      && q.executions[f.order] == Execution(i, FILLED, c)
      && row'.deadBtc == (if c.action == BUY then row.deadBtc + f.qty else row.deadBtc)
      && row'.floatBtc == (if c.action == BUY then row.floatBtc
                           else if f.qty > row.floatBtc then 0.0 else row.floatBtc - f.qty)
      && row'.coldSealedBtc == row.coldSealedBtc
      && q.trades == db.trades + [TradeRecord(f.order, i, c.action, c.engine, f.qty, f.price, f.fee)]
  {}

  lemma DispatchedOrder(db: Db, o: OrderId, i: nat, c: Command)
    requires o !in db.executions
    ensures var q := Next(db, Dispatch(o, i, c));
      o in q.executions && q.executions[o] == Execution(i, PENDING, c)
  {}

  /** End to end: an intent of a step, dispatched under a new order id and filled any time
      later, moves exactly the stack that the strategy meant. */
  lemma IntentToStack(
    env: Env, input: StrategyInput, x: TradeIntent,
    history: seq<Event>, o: OrderId, i: nat, later: seq<Event>, r: Report)
    requires x in Step(env, input).intents && x.action != RELEASE && o !in After(history).executions
    requires r.execution.Some? && r.execution.value.order == o
    requires Settles(After(history + [Dispatch(o, i, IntentToCommand(x))] + later), r.execution.value)
    ensures var db := After(history + [Dispatch(o, i, IntentToCommand(x))] + later);
      var f, q := r.execution.value, Next(db, Reported(r));
      && i in db.portfolios && i in q.portfolios
      && (x.action == BUY ==>
            && q.portfolios[i].deadBtc == db.portfolios[i].deadBtc + f.qty
            && q.portfolios[i].floatBtc == db.portfolios[i].floatBtc)
      && (x.action == SELL ==>
            && q.portfolios[i].deadBtc == db.portfolios[i].deadBtc
            && q.portfolios[i].floatBtc == Clamp0(db.portfolios[i].floatBtc - f.qty))
      && q.trades == db.trades + [TradeRecord(o, i, x.action, x.engine, f.qty, f.price, f.fee)]
  {
    var c := IntentToCommand(x);
    var sent := history + [Dispatch(o, i, c)];
    StepOrdersAreDispatchable(env, input);
    assert sent[..|history|] == history;
    DispatchedOrder(After(history), o, i, c);
    AppliedConcat(EMPTY, sent, later);
    CommandStays(After(sent), later, o);
    hide Step, Applied, IntentToCommand, ApplyDispatch;
    SettledOrder(After(sent + later), r, i, c);
  }
}
