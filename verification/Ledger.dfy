/** The order ledger of the live system: pending orders, reports that may be lost, late or
    repeated, releases, and the rows they change. */
module Ledger {
  import opened Data
  import opened Numeric

  datatype InstanceStatus = RUNNING | STOPPED | ERROR | DELETED

  datatype InstanceRow = InstanceRow(user: nat, status: InstanceStatus)

  datatype PortfolioRow = PortfolioRow(usdt: real, deadBtc: real, floatBtc: real, coldSealedBtc: real)

  const NEW_PORTFOLIO := PortfolioRow(0.0, 0.0, 0.0, 0.0)

  /** inst{id}-{engine}-{ts}, or any other text a report may carry. */
  datatype OrderId = OrderId(instance: nat, engine: Engine, millis: int) | OtherId(text: int)

  datatype ExecutionStatus = PENDING | FILLED

  /** An order for the agent: a BUY names an amount, a SELL a quantity, as written in text. */
  datatype Command = Command(
    action: Action, engine: Engine, lotType: LotType, amountUSDT: Option<real>, qtyAsset: Option<real>)

  function IntentToCommand(x: TradeIntent): Command {
    Command(x.action, x.engine, x.lotType,
            if x.action == BUY then Some(Written(x.amountUSDT, 100)) else None,
            if x.action == SELL then Some(Written(x.qtyAsset, 100_000_000)) else None)
  }

  datatype Execution = Execution(instance: nat, status: ExecutionStatus, command: Command)

  datatype TradeRecord = TradeRecord(
    order: OrderId, instance: nat, action: Action, engine: Engine, qty: real, price: real, fee: real)

  /** The append-only journal: one row per release, one per settled report. */
  datatype AuditLog =
    | DeadRelease(instance: nat, qty: real)
    | DeltaReport(instance: nat, order: OrderId, qty: real, price: real, fee: real, lotType: LotType, action: Action)

  datatype Db = Db(
    instances: map<nat, InstanceRow>, portfolios: map<nat, PortfolioRow>, executions: map<OrderId, Execution>,
    trades: seq<TradeRecord>, audits: seq<AuditLog>)

  /** The portfolio the strategy sees in a row. */
  function View(row: PortfolioRow, spawn: SpawnPoint): PortfolioState {
    PortfolioState(row.usdt, spawn.reserveFloor, Clamp0(row.usdt - spawn.reserveFloor),
                   row.deadBtc, row.floatBtc, row.coldSealedBtc, spawn.initialCapital)
  }

  datatype Balance = Balance(isUsdt: bool, available: real)

  datatype FillReport = FillReport(order: OrderId, qty: real, price: real, fee: real)

  /** What an agent reports: a fill, or just a balance snapshot on reconnecting. */
  datatype Report = Report(user: nat, execution: Option<FillReport>, balances: seq<Balance>)

  // ----- the transactions, as functions of the database

  /** The first tick of an instance creates its portfolio row. */
  function EnsureRow(db: Db, instance: nat): Db {
    if instance in db.portfolios then db else db.(portfolios := db.portfolios[instance := NEW_PORTFOLIO])
  }

  function ReleasedQty(row: PortfolioRow, qty: real): real {
    if qty > row.deadBtc then row.deadBtc else qty
  }

  /** A ledger-only move from the dead to the floating stack, capped at the dead stack. */
  function ApplyRelease(db: Db, instance: nat, qty: real): Db {
    if qty <= 0.0 || instance !in db.portfolios then db
    else
      var row := db.portfolios[instance];
      var moved := ReleasedQty(row, qty);
      var row' := row.(deadBtc := row.deadBtc - moved, floatBtc := row.floatBtc + moved);
      db.(portfolios := db.portfolios[instance := row'],
          audits := db.audits + [DeadRelease(instance, moved)])
  }

  /** A pending order; order ids are unique. */
  function ApplyDispatch(db: Db, order: OrderId, instance: nat, command: Command): Db {
    if order in db.executions then db
    else db.(executions := db.executions[order := Execution(instance, PENDING, command)])
  }

  function UsdtOf(balances: seq<Balance>): real {
    if |balances| == 0 then 0.0
    else if balances[0].isUsdt then balances[0].available
    else UsdtOf(balances[1..])
  }

  predicate Owns(db: Db, user: nat, instance: nat) {
    instance in db.instances && db.instances[instance].user == user && db.instances[instance].status != DELETED
  }

  /** The reported cash goes to every live instance of the user. */
  function ApplyBalances(db: Db, user: nat, balances: seq<Balance>): Db {
    if |balances| == 0 then db
    else db.(portfolios := map i | i in db.portfolios ::
               if Owns(db, user, i) then db.portfolios[i].(usdt := UsdtOf(balances)) else db.portfolios[i])
  }

  function Credit(row: PortfolioRow, command: Command, qty: real): PortfolioRow {
    match command.lotType
    case DEAD_STACK =>
      if command.action == BUY then row.(deadBtc := row.deadBtc + qty)
      else row.(deadBtc := Clamp0(row.deadBtc - qty))
    case FLOATING =>
      if command.action == BUY then row.(floatBtc := row.floatBtc + qty)
      else row.(floatBtc := Clamp0(row.floatBtc - qty))
    case OtherLot => row
  }

  predicate Traded(trades: seq<TradeRecord>, order: OrderId) {
    exists i :: 0 <= i < |trades| && trades[i].order == order
  }

  /** The report settles a pending order: a pending row, a portfolio to credit, and no trade
      record yet.  Anything else either is only a balance snapshot or rolls back. */
  predicate Settles(db: Db, f: FillReport) {
    && f.order in db.executions && db.executions[f.order].status == PENDING
    && db.executions[f.order].instance in db.portfolios
    && !Traded(db.trades, f.order)
  }

  function Settled(db: Db, f: FillReport): Db
    requires Settles(db, f)
  {
    var e := db.executions[f.order];
    var c := e.command;
    db.(executions := db.executions[f.order := e.(status := FILLED)],
        portfolios := db.portfolios[e.instance := Credit(db.portfolios[e.instance], c, f.qty)],
        trades := db.trades + [TradeRecord(f.order, e.instance, c.action, c.engine, f.qty, f.price, f.fee)],
        audits := db.audits + [DeltaReport(e.instance, f.order, f.qty, f.price, f.fee, c.lotType, c.action)])
  }

  /** One report, as one transaction. */
  function ApplyReport(db: Db, r: Report): Db {
    if r.execution.None? then ApplyBalances(db, r.user, r.balances)
    else
      var f := r.execution.value;
      if f.order !in db.executions || db.executions[f.order].status != PENDING
      then ApplyBalances(db, r.user, r.balances)
      else if Settles(db, f) then ApplyBalances(Settled(db, f), r.user, r.balances)
      else db
  }

  // ----- the tables as the program updates them

  class Store {
    var instances: map<nat, InstanceRow>
    var portfolios: map<nat, PortfolioRow>
    var executions: map<OrderId, Execution>
    var trades: seq<TradeRecord>
    var audits: seq<AuditLog>

    constructor ()
      ensures Tables() == Db(map[], map[], map[], [], [])
    {
      instances, portfolios, executions, trades, audits := map[], map[], map[], [], [];
    }

    function Tables(): Db
      reads this
    {
      Db(instances, portfolios, executions, trades, audits)
    }

    method SetStatus(instance: nat, status: InstanceStatus)
      requires instance in instances
      modifies this`instances
      ensures Tables() == old(Tables()).(
                            instances := old(instances)[instance := old(instances)[instance].(status := status)])
    {
      instances := instances[instance := instances[instance].(status := status)];
    }

    method LoadOrCreatePortfolio(instance: nat) returns (row: PortfolioRow)
      modifies this`portfolios
      ensures Tables() == EnsureRow(old(Tables()), instance)
      ensures instance in portfolios && row == portfolios[instance]
      ensures instance in old(portfolios) ==> portfolios == old(portfolios)
      ensures instance !in old(portfolios) ==> row == NEW_PORTFOLIO
    {
      if instance !in portfolios {
        portfolios := portfolios[instance := NEW_PORTFOLIO];
      }
      row := portfolios[instance];
    }

    method HandleRelease(instance: nat, intentQty: real)
      modifies this`portfolios, this`audits
      ensures Tables() == ApplyRelease(old(Tables()), instance, intentQty)
    {
      var qty := intentQty;
      if qty <= 0.0 || instance !in portfolios {
        return;
      }
      var row := portfolios[instance];
      if qty > row.deadBtc {
        qty := row.deadBtc;
      }
      row := row.(deadBtc := row.deadBtc - qty);
      row := row.(floatBtc := row.floatBtc + qty);
      portfolios := portfolios[instance := row];
      audits := audits + [DeadRelease(instance, qty)];
    }

    method DispatchCommand(order: OrderId, instance: nat, command: Command) returns (ok: bool)
      modifies this`executions
      ensures ok == (order !in old(executions))
      ensures executions
           == if ok then old(executions)[order := Execution(instance, PENDING, command)] else old(executions)
      ensures Tables() == ApplyDispatch(old(Tables()), order, instance, command)
    {
      if order in executions {
        return false;
      }
      executions := executions[order := Execution(instance, PENDING, command)];
      return true;
    }

    method UpdateBalances(user: nat, balances: seq<Balance>)
      modifies this`portfolios
      ensures Tables() == ApplyBalances(old(Tables()), user, balances)
    {
      if |balances| == 0 {
        return;
      }
      var usdtAvailable := UsdtOf(balances);
      ghost var before := Tables();
      var todo := set i | i in portfolios && Owns(Tables(), user, i);
      var all := todo;
      while todo != {}
        invariant todo <= all && all == set i | i in before.portfolios && Owns(before, user, i)
        invariant portfolios.Keys == before.portfolios.Keys
        invariant forall i :: i in portfolios ==>
          portfolios[i]
          == if i in all - todo then before.portfolios[i].(usdt := usdtAvailable) else before.portfolios[i]
        invariant Tables().(portfolios := map[]) == before.(portfolios := map[])
        decreases todo
      {
        var i :| i in todo;
        portfolios := portfolios[i := portfolios[i].(usdt := usdtAvailable)];
        todo := todo - {i};
      }
      assert portfolios == ApplyBalances(before, user, balances).portfolios;
    }

    method ProcessDeltaReport(r: Report) returns (ok: bool)
      modifies this`portfolios, this`executions, this`trades, this`audits
      ensures Tables() == ApplyReport(old(Tables()), r)
      ensures !ok ==> Tables() == old(Tables())
    {
      if r.execution.None? {
        UpdateBalances(r.user, r.balances);
        return true;
      }
      var f := r.execution.value;
      if f.order !in executions || executions[f.order].status != PENDING {
        UpdateBalances(r.user, r.balances);
        return true;
      }
      var exec := executions[f.order];
      if exec.instance !in portfolios || Traded(trades, f.order) {
        return false;
      }
      executions := executions[f.order := exec.(status := FILLED)];
      var row := portfolios[exec.instance];
      match exec.command.lotType {
        case DEAD_STACK =>
          if exec.command.action == BUY {
            row := row.(deadBtc := row.deadBtc + f.qty);
          } else {
            row := row.(deadBtc := Clamp0(row.deadBtc - f.qty));
          }
        case FLOATING =>
          if exec.command.action == BUY {
            row := row.(floatBtc := row.floatBtc + f.qty);
          } else {
            row := row.(floatBtc := Clamp0(row.floatBtc - f.qty));
          }
        case OtherLot =>
      }
      portfolios := portfolios[exec.instance := row];
      trades := trades +
        [TradeRecord(f.order, exec.instance, exec.command.action, exec.command.engine, f.qty, f.price, f.fee)];
      audits := audits +
        [DeltaReport(exec.instance, f.order, f.qty, f.price, f.fee, exec.command.lotType, exec.command.action)];
      assert Tables() == Settled(old(Tables()), f);
      UpdateBalances(r.user, r.balances);
      return true;
    }
  }

  // ----- who gets which cash

  /** The USDT entry of a balance list: the first one counts, and none counts as nothing. */
  lemma {:induction false} FirstUsdt(balances: seq<Balance>, k: nat)
    requires k <= |balances| && forall j :: 0 <= j < k ==> !balances[j].isUsdt
    ensures k == |balances| ==> UsdtOf(balances) == 0.0
    ensures k < |balances| && balances[k].isUsdt ==> UsdtOf(balances) == balances[k].available
  {
    if k == 0 {
    } else {
      FirstUsdt(balances[1..], k - 1);
    }
  }

  /** A non-empty balance list sets the cash of every row of an instance that is the user's
      and not deleted, and changes nothing else. */
  lemma ReportedCash(db: Db, user: nat, balances: seq<Balance>, k: nat)
    requires |balances| > 0 && k <= |balances| && forall j :: 0 <= j < k ==> !balances[j].isUsdt
    requires k < |balances| ==> balances[k].isUsdt
    ensures var q := ApplyBalances(db, user, balances);
      && q.portfolios.Keys == db.portfolios.Keys && q.(portfolios := db.portfolios) == db
      && forall i :: i in db.portfolios ==>
           q.portfolios[i]
           == if && i in db.instances && db.instances[i].user == user
                 && db.instances[i].status in {RUNNING, STOPPED, ERROR}
              then db.portfolios[i].(usdt := if k == |balances| then 0.0 else balances[k].available)
              else db.portfolios[i]
  {
    FirstUsdt(balances, k);
    hide UsdtOf;
  }

  /** A new row is empty. */
  lemma NewRowIsEmpty(db: Db, instance: nat)
    requires instance !in db.portfolios
    ensures EnsureRow(db, instance).portfolios[instance] == PortfolioRow(0.0, 0.0, 0.0, 0.0)
  {}

  /** A report that is not rolled back brings the reported cash, whether it settles, repeats
      or is just a snapshot; a report that is rolled back brings nothing; and an empty
      balance list leaves the cash alone. */
  lemma CashIsSynced(db: Db, r: Report)
    ensures var synced, q := ApplyBalances(db, r.user, r.balances), ApplyReport(db, r);
      if && r.execution.Some? && r.execution.value.order in db.executions
         && db.executions[r.execution.value.order].status == PENDING && !Settles(db, r.execution.value)
      then q == db
      else && q.portfolios.Keys == db.portfolios.Keys && q.instances == db.instances
           && forall i :: i in db.portfolios ==> q.portfolios[i].usdt == synced.portfolios[i].usdt
    ensures ApplyBalances(db, r.user, []) == db
  {
    hide UsdtOf;
  }

  /** A release is journalled with what it moved, and without a positive quantity nothing is. */
  lemma ReleaseIsJournalled(db: Db, instance: nat, qty: real)
    requires instance in db.portfolios && db.portfolios[instance].deadBtc >= 0.0
    ensures var q := ApplyRelease(db, instance, qty);
      if qty <= 0.0 then q == db
      else q.audits == db.audits
                     + [DeadRelease(instance, db.portfolios[instance].deadBtc - q.portfolios[instance].deadBtc)]
  {}
}
