/** The live tick of one instance: the program, as transactions on the ledger and as a run of
    the lifecycle protocol. */
module LiveTick {
  import opened Data
  import opened Numeric
  import opened Strategy
  import opened StepFacts
  import opened Ledger
  import opened Lifecycle
  import Settlement

  /** What the outside does to one tick: which reads and writes succeed, `lands(i)` for the
      ledger write of the i-th intent, and the clock that order ids are made of. */
  datatype World = World(
    fetched: Option<seq<Bar>>, loadOk: bool, championOk: bool, persistOk: bool, lands: nat -> bool, advanceOk: bool,
    errorLands: bool, params: Chromosome, spawn: SpawnPoint, nowMs: int)

  predicate Fetched(w: World) {
    w.fetched.Some? && |w.fetched.value| >= 2
  }

  /** The latest completed bar; the last one fetched is still forming. */
  function LatestBar(w: World): int
    requires Fetched(w)
  {
    w.fetched.value[|w.fetched.value| - 2].openTime
  }

  /** The tick gets as far as persisting the runtime state. */
  predicate Persists(w: World, last: Option<int>) {
    Fetched(w) && w.loadOk && After(LatestBar(w), last) && w.championOk && w.persistOk
  }

  /** Nothing to work on: no bars, too few, or no new one. */
  predicate Transient(w: World, hasRow: bool, last: Option<int>) {
    !Fetched(w) || (w.loadOk && hasRow && !After(LatestBar(w), last))
  }

  /** The tick ends with an error. */
  predicate Fails(w: World, last: Option<int>) {
    Fetched(w) && (!w.loadOk || (After(LatestBar(w), last) && !(w.championOk && w.persistOk && w.advanceOk)))
  }

  /** The strategy input of a tick over the fetched bars. */
  function TickInput(bars: seq<Bar>, row: PortfolioRow, rt: RuntimeState, params: Chromosome, spawn: SpawnPoint)
    : StrategyInput
  {
    StrategyInput(Closes(bars), Highs(bars), Lows(bars), Timestamps(bars), View(row, spawn), rt, params, spawn)
  }

  function RowOf(db: Db, id: nat): PortfolioRow {
    if id in db.portfolios then db.portfolios[id] else NEW_PORTFOLIO
  }

  function TickStep(env: Env, db: Db, id: nat, rt: RuntimeState, w: World): StrategyOutput
    requires Fetched(w)
  {
    Step(env, TickInput(w.fetched.value, RowOf(db, id), rt, w.params, w.spawn))
  }

  // ----- the ledger side

  /** The releases of the first k intents. */
  function Releases(id: nat, intents: seq<TradeIntent>, w: World, k: nat): seq<Settlement.Event>
    requires k <= |intents|
  {
    if k == 0 then []
    else
      Releases(id, intents, w, k - 1) +
      if intents[k - 1].action == RELEASE && w.lands(k - 1)
      then [Settlement.Release(id, intents[k - 1].qtyAsset)]
      else []
  }

  /** The orders of the first k intents. */
  function Orders(id: nat, intents: seq<TradeIntent>, w: World, k: nat): seq<Settlement.Event>
    requires k <= |intents|
  {
    if k == 0 then []
    else
      Orders(id, intents, w, k - 1) +
      if intents[k - 1].action != RELEASE && w.lands(k - 1)
      then [Settlement.Dispatch(OrderId(id, intents[k - 1].engine, w.nowMs), id, IntentToCommand(intents[k - 1]))]
      else []
  }

  /** A failing tick moves a RUNNING instance to ERROR, if the write lands. */
  function Failure(row: InstanceRow, id: nat, w: World): seq<Settlement.Event> {
    if w.errorLands && row.status == RUNNING then [Settlement.SetInstance(id, row.(status := ERROR))] else []
  }

  /** The transactions of one uninterrupted tick, in order. */
  function TickTransactions(env: Env, db: Db, id: nat, last: Option<int>, rt: RuntimeState, w: World)
    : seq<Settlement.Event>
    requires id in db.instances
  {
    var failure := Failure(db.instances[id], id, w);
    if !Fetched(w) then []
    else if !w.loadOk then failure
    else if !After(LatestBar(w), last) then [Settlement.Ensure(id)]
    else if !w.championOk || !w.persistOk then [Settlement.Ensure(id)] + failure
    else
      var x := TickStep(env, db, id, rt, w).intents;
      var all := [Settlement.Ensure(id)] + Releases(id, x, w, |x|) + Orders(id, x, w, |x|);
      if w.advanceOk then all else all + failure
  }

  lemma AppliedOne(db: Db, events: seq<Settlement.Event>, e: Settlement.Event)
    ensures Settlement.Applied(db, events + [e]) == Settlement.Next(Settlement.Applied(db, events), e)
    ensures Settlement.Applied(db, []) == db && Settlement.Applied(db, [e]) == Settlement.Next(db, e)
  {
    hide Settlement.Next;
    assert (events + [e])[..|events|] == events;
    assert [e][..0] == [];
  }

  lemma ReleaseTouchesStacks(db: Db, id: nat, qty: real)
    ensures var q := ApplyRelease(db, id, qty);
      q.executions == db.executions && q.instances == db.instances && q.portfolios.Keys == db.portfolios.Keys
  {}

  lemma {:induction false} ReleasesTouchStacksOnly(db: Db, id: nat, intents: seq<TradeIntent>, w: World, k: nat)
    requires k <= |intents|
    ensures var q := Settlement.Applied(db, Releases(id, intents, w, k));
      q.executions == db.executions && q.instances == db.instances && q.portfolios.Keys == db.portfolios.Keys
  {
    if k == 0 {
    } else {
      ReleasesTouchStacksOnly(db, id, intents, w, k - 1);
      var init := Releases(id, intents, w, k - 1);
      var e := Settlement.Release(id, intents[k - 1].qtyAsset);
      AppliedOne(db, init, e);
      ReleaseTouchesStacks(Settlement.Applied(db, init), id, intents[k - 1].qtyAsset);
      assert init + [] == init;
      assert Releases(id, intents, w, k) == init || Releases(id, intents, w, k) == init + [e];
      hide Settlement.Applied, ApplyRelease, Releases;
    }
  }

  /** A step's intents lead to at most one order. */
  lemma AtMostOneOrder(id: nat, intents: seq<TradeIntent>, w: World)
    requires intents == ToSeq(TradeIn(intents)) + ToSeq(ReleaseIn(intents))
    ensures |Orders(id, intents, w, |intents|)| <= 1
  {
    if |intents| == 1 {
      assert Orders(id, intents, w, 0) == [];
    } else if |intents| == 2 {
      assert intents[1].action == RELEASE;
      assert Orders(id, intents, w, 0) == [];
      assert |Orders(id, intents, w, 1)| <= 1;
    }
  }

  lemma OrdersAreDispatches(id: nat, intents: seq<TradeIntent>, w: World, k: nat)
    requires k <= |intents|
    ensures forall e :: e in Orders(id, intents, w, k) ==>
              && e.Dispatch?
              && exists i :: 0 <= i < k && intents[i].action != RELEASE && e.command == IntentToCommand(intents[i])
    ensures forall e :: e in Releases(id, intents, w, k) ==> e.Release?
  {}

  lemma OrderGrows(db: Db, events: seq<Settlement.Event>)
    requires |events| <= 1 && forall e :: e in events ==> e.Dispatch?
    ensures var q := Settlement.Applied(db, events);
      |q.executions| <= |db.executions| + 1 && q.(executions := db.executions) == db
  {
    if |events| == 0 {
    } else {
      assert events == [events[0]] && events[0] in events;
      AppliedOne(db, [], events[0]);
      hide Settlement.Applied;
    }
  }

  /** The tables after a tick that does not get as far as persisting. */
  lemma EarlyTables(env: Env, db: Db, id: nat, last: Option<int>, rt: RuntimeState, w: World)
    requires id in db.instances && !Persists(w, last)
    ensures var failure := Failure(db.instances[id], id, w);
      Settlement.Applied(db, TickTransactions(env, db, id, last, rt, w))
      == if !Fetched(w) then db
         else if !w.loadOk then Settlement.Applied(db, failure)
         else if !After(LatestBar(w), last) then EnsureRow(db, id)
         else Settlement.Applied(EnsureRow(db, id), failure)
  {
    AppliedOne(db, [], Settlement.Ensure(id));
    Settlement.AppliedConcat(db, [Settlement.Ensure(id)], Failure(db.instances[id], id, w));
    hide Settlement.Applied, EnsureRow, Failure;
  }

  /** The tables after a tick that persists. */
  lemma PersistedTables(env: Env, db: Db, id: nat, last: Option<int>, rt: RuntimeState, w: World)
    requires id in db.instances && Persists(w, last)
    ensures var x := TickStep(env, db, id, rt, w).intents;
      var executed := Settlement.Applied(EnsureRow(db, id), Releases(id, x, w, |x|) + Orders(id, x, w, |x|));
      Settlement.Applied(db, TickTransactions(env, db, id, last, rt, w))
      == if w.advanceOk then executed else Settlement.Applied(executed, Failure(db.instances[id], id, w))
  {
    hide Settlement.Applied, EnsureRow, Failure, TickStep, Releases, Orders;
    var x := TickStep(env, db, id, rt, w).intents;
    var sent := Releases(id, x, w, |x|) + Orders(id, x, w, |x|);
    AppliedOne(db, [], Settlement.Ensure(id));
    Settlement.AppliedConcat(db, [Settlement.Ensure(id)], sent);
    var all := [Settlement.Ensure(id)] + sent;
    assert all == [Settlement.Ensure(id)] + Releases(id, x, w, |x|) + Orders(id, x, w, |x|);
    Settlement.AppliedConcat(db, all, Failure(db.instances[id], id, w));
  }

  /** Every transaction of a tick is one that the ledger's theorems are about, and none is a
      report. */
  lemma TickIsWellFormed(env: Env, db: Db, id: nat, last: Option<int>, rt: RuntimeState, w: World)
    requires id in db.instances
    ensures forall e :: e in TickTransactions(env, db, id, last, rt, w) ==> Settlement.WellFormed(e) && !e.Reported?
  {
    if Persists(w, last) {
      var input := TickInput(w.fetched.value, RowOf(db, id), rt, w.params, w.spawn);
      var x := Step(env, input).intents;
      Settlement.StepOrdersAreDispatchable(env, input);
      OrdersAreDispatches(id, x, w, |x|);
      hide Step, Releases, Orders, IntentToCommand;
    }
  }

  /** So whatever history of ticks and reports led to the tables, a tick leaves the ledger
      settled exactly once, with both stacks accounted for and nothing more overdrawn. */
  lemma TickKeepsLedger(
    env: Env, history: seq<Settlement.Event>, id: nat, last: Option<int>, rt: RuntimeState, w: World)
    requires forall e :: e in history ==> Settlement.WellFormed(e)
    requires id in Settlement.After(history).instances
    ensures var tick := TickTransactions(env, Settlement.After(history), id, last, rt, w);
      && Settlement.Applied(Settlement.After(history), tick) == Settlement.After(history + tick)
      && Settlement.Consistent(Settlement.After(history + tick))
      && forall i: nat ::
           Settlement.FloatOf(Settlement.After(history + tick), i)
           == Settlement.FloatByJournal(Settlement.After(history + tick), i) + Settlement.OverdrawTotal(history, i)
  {
    var tick := TickTransactions(env, Settlement.After(history), id, last, rt, w);
    TickIsWellFormed(env, Settlement.After(history), id, last, rt, w);
    Settlement.AppliedConcat(Settlement.EMPTY, history, tick);
    Settlement.SettlementExactlyOnce(history + tick);
    forall i: nat
      ensures Settlement.FloatOf(Settlement.After(history + tick), i)
           == Settlement.FloatByJournal(Settlement.After(history + tick), i) + Settlement.OverdrawTotal(history, i)
    {
      Settlement.FloatAccount(history + tick, i);
      Settlement.OverdrawOfReportsOnly(history, tick, i);
    }
    hide Settlement.Consistent, Settlement.After, Settlement.Applied, TickTransactions;
  }

  // ----- the protocol side

  function Failed(l: Life, lands: bool): Life {
    l.(status := if lands && l.status == RUNNING then ERROR else l.status)
  }

  /** What follows once the runtime state is persisted. */
  function Completed(l: Life, w: World, bar: int, sent: bool): Life {
    var ordered := l.(folds := l.folds + [bar], orders := l.orders + if sent then [bar] else []);
    if w.advanceOk then ordered.(lastBar := Some(bar)) else Failed(ordered, w.errorLands)
  }

  /** The state after one uninterrupted tick that has or has not written an order. */
  function TickOutcome(l: Life, w: World, sent: bool): Life {
    var idle := l.(phase := Idle);
    if !Fetched(w) then idle
    else if !w.loadOk then Failed(idle, w.errorLands)
    else
      var bar, loaded := LatestBar(w), idle.(hasRow := true);
      if !After(bar, l.lastBar) then loaded
      else if !w.championOk || !w.persistOk then Failed(loaded, w.errorLands)
      else Completed(loaded, w, bar, sent)
  }

  /** The events of one uninterrupted tick. */
  function TickEvents(w: World, last: Option<int>, sent: bool): seq<Event> {
    if !Fetched(w) then [FetchFails]
    else
      var bar := LatestBar(w);
      if !w.loadOk then [LoadFails, MarkError(w.errorLands)]
      else if !After(bar, last) then [Load(bar)]
      else if !w.championOk then [Load(bar), ChampionFails, MarkError(w.errorLands)]
      else if !w.persistOk then [Load(bar), PersistFails, MarkError(w.errorLands)]
      else [Load(bar), Persist] + (if sent then [SendOrder] else [])
           + if w.advanceOk then [Advance] else [AdvanceFails, MarkError(w.errorLands)]
  }

  lemma AfterPersist(l: Life, w: World, sent: bool)
    requires l.phase == Picked && Persists(w, l.lastBar)
    ensures var loaded := Next(Next(l, Load(LatestBar(w))), Persist);
      var ordered := if sent then Next(loaded, SendOrder) else loaded;
      TickOutcome(l, w, sent) == if w.advanceOk then Next(ordered, Advance)
                                 else Next(Next(ordered, AdvanceFails), MarkError(w.errorLands))
  {}

  /** The part of a tick from Persist on. */
  lemma PersistedIsRun(l: Life, w: World, sent: bool)
    requires l.phase == Picked && Persists(w, l.lastBar)
    ensures Run(l, TickEvents(w, l.lastBar, sent)) == TickOutcome(l, w, sent)
  {
    hide Run, Next, TickOutcome;
    var bar, end := LatestBar(w), MarkError(w.errorLands);
    var loaded := Next(Next(l, Load(bar)), Persist);
    RunThree(l, Load(bar), Persist, Persist);
    var ordered := if sent then Next(loaded, SendOrder) else loaded;
    var head := [Load(bar), Persist] + if sent then [SendOrder] else [];
    if sent {
      RunSnoc(l, [Load(bar), Persist], SendOrder);
    } else {
      assert head == [Load(bar), Persist];
    }
    assert Run(l, head) == ordered;
    if w.advanceOk {
      RunSnoc(l, head, Advance);
    } else {
      RunConcat(l, head, [AdvanceFails, end]);
      RunThree(ordered, AdvanceFails, end, end);
    }
    AfterPersist(l, w, sent);
  }

  lemma EarlyIsRun(l: Life, w: World, sent: bool)
    requires l.phase == Picked && Fetched(w) && w.loadOk && !Persists(w, l.lastBar)
    ensures Run(l, TickEvents(w, l.lastBar, sent)) == TickOutcome(l, w, sent)
  {
    hide Run, Completed;
    var bar, end := LatestBar(w), MarkError(w.errorLands);
    if !After(bar, l.lastBar) || !w.championOk {
      RunThree(l, Load(bar), ChampionFails, end);
    } else {
      RunThree(l, Load(bar), PersistFails, end);
    }
  }

  /** The tick of the program is a run of the protocol. */
  lemma TickOutcomeIsRun(l: Life, w: World, sent: bool)
    requires l.phase == Picked
    ensures Run(l, TickEvents(w, l.lastBar, sent)) == TickOutcome(l, w, sent)
  {
    hide Run, Completed;
    var end := MarkError(w.errorLands);
    if Persists(w, l.lastBar) {
      PersistedIsRun(l, w, sent);
      hide TickOutcome, TickEvents, Next;
    } else if !Fetched(w) {
      RunThree(l, FetchFails, end, end);
    } else if !w.loadOk {
      RunThree(l, LoadFails, end, end);
    } else {
      EarlyIsRun(l, w, sent);
      hide TickOutcome, TickEvents, Next;
    }
  }

  // ----- the program

  /** The manager's view of one instance: its rows in the shared store, the last-processed
      time and the runtime state. */
  class Manager {
    const id: nat
    const store: Store
    var lastBar: Option<int>
    var runtime: RuntimeState
    ghost var folds: seq<int>
    ghost var orders: seq<int>
    ghost var phase: Phase

    constructor (id: nat, store: Store)
      requires id in store.instances && store.instances[id].status == STOPPED && id !in store.portfolios
      ensures this.id == id && this.store == store && Snapshot() == CREATED
    {
      this.id, this.store := id, store;
      lastBar, runtime := None, FRESH_RUNTIME;
      folds, orders, phase := [], [], Idle;
    }

    ghost predicate Valid()
      reads this, store
    {
      id in store.instances
    }

    ghost function Snapshot(): Life
      reads this, store
      requires Valid()
    {
      Life(store.instances[id].status, id in store.portfolios, lastBar, folds, orders, phase)
    }

    /** The tables with another status of this instance. */
    ghost function WithStatus(db: Db, status: InstanceStatus): Db
      requires id in db.instances
    {
      db.(instances := db.instances[id := db.instances[id].(status := status)])
    }

    method StartInstance() returns (ok: bool)
      requires Valid()
      modifies store
      ensures Valid() && Snapshot() == Next(old(Snapshot()), Start)
      ensures ok <==> old(store.instances[id].status) == STOPPED
      ensures store.Tables() == if ok then WithStatus(old(store.Tables()), RUNNING) else old(store.Tables())
    {
      ok := store.instances[id].status == STOPPED;
      if ok {
        store.SetStatus(id, RUNNING);
      }
    }

    method StopInstance() returns (ok: bool)
      requires Valid()
      modifies store
      ensures Valid() && Snapshot() == Next(old(Snapshot()), Stop)
      ensures ok <==> old(store.instances[id].status) == RUNNING
      ensures store.Tables() == if ok then WithStatus(old(store.Tables()), STOPPED) else old(store.Tables())
    {
      ok := store.instances[id].status == RUNNING;
      if ok {
        store.SetStatus(id, STOPPED);
      }
    }

    method DeleteInstance()
      requires Valid()
      modifies store
      ensures Valid() && Snapshot() == Next(old(Snapshot()), Delete)
      ensures store.Tables() == WithStatus(old(store.Tables()), DELETED)
    {
      store.SetStatus(id, DELETED);
    }

    /** A failing tick moves a RUNNING instance to ERROR, if the write lands. */
    method MarkFailed(w: World)
      requires Valid()
      modifies store
      ensures Valid() && Snapshot() == Failed(old(Snapshot()), w.errorLands)
      ensures store.Tables() == Settlement.Applied(old(store.Tables()), Failure(old(store.instances[id]), id, w))
      ensures store.executions == old(store.executions) && store.portfolios == old(store.portfolios)
    {
      AppliedOne(store.Tables(), [], Settlement.SetInstance(id, store.instances[id].(status := ERROR)));
      if w.errorLands && store.instances[id].status == RUNNING {
        store.SetStatus(id, ERROR);
      }
    }

    /** The scan launches a tick of a RUNNING instance; it has waited for the ticks before. */
    method Pick() returns (picked: bool)
      requires Valid() && phase == Idle
      modifies this`phase
      ensures Valid() && Snapshot() == Next(old(Snapshot()), Lifecycle.Pick)
      ensures picked <==> phase == Picked
    {
      picked := store.instances[id].status == RUNNING;
      phase := if picked then Picked else Idle;
    }

    method ReleaseAll(intents: seq<TradeIntent>, w: World)
      modifies store
      ensures store.Tables() == Settlement.Applied(old(store.Tables()), Releases(id, intents, w, |intents|))
    {
      ghost var db := store.Tables();
      for i := 0 to |intents|
        invariant store.Tables() == Settlement.Applied(db, Releases(id, intents, w, i))
      {
        ghost var before := Releases(id, intents, w, i);
        assert before + [] == before;
        AppliedOne(db, before, Settlement.Release(id, intents[i].qtyAsset));
        if intents[i].action == RELEASE && w.lands(i) {
          store.HandleRelease(id, intents[i].qtyAsset);
        }
      }
    }

    method DispatchAll(intents: seq<TradeIntent>, w: World)
      modifies store
      ensures store.Tables() == Settlement.Applied(old(store.Tables()), Orders(id, intents, w, |intents|))
    {
      ghost var db := store.Tables();
      for i := 0 to |intents|
        invariant store.Tables() == Settlement.Applied(db, Orders(id, intents, w, i))
      {
        ghost var before := Orders(id, intents, w, i);
        assert before + [] == before;
        var order, command := OrderId(id, intents[i].engine, w.nowMs), IntentToCommand(intents[i]);
        AppliedOne(db, before, Settlement.Dispatch(order, id, command));
        if intents[i].action != RELEASE && w.lands(i) {
          var _ := store.DispatchCommand(order, id, command);
        }
      }
    }

    /** Steps 8 and 9: the intents of a step reach the ledger, with at most one order. */
    method Execute(intents: seq<TradeIntent>, w: World)
      requires Valid() && intents == ToSeq(TradeIn(intents)) + ToSeq(ReleaseIn(intents))
      modifies store
      ensures Valid() && store.instances == old(store.instances) && store.portfolios.Keys == old(store.portfolios.Keys)
      ensures store.Tables() == Settlement.Applied(old(store.Tables()),
                                  Releases(id, intents, w, |intents|) + Orders(id, intents, w, |intents|))
      ensures |store.executions| <= |old(store.executions)| + 1
    {
      ghost var db := store.Tables();
      ReleaseAll(intents, w);
      ghost var released := store.Tables();
      DispatchAll(intents, w);
      ReleasesTouchStacksOnly(db, id, intents, w, |intents|);
      AtMostOneOrder(id, intents, w);
      OrdersAreDispatches(id, intents, w, |intents|);
      OrderGrows(released, Orders(id, intents, w, |intents|));
      Settlement.AppliedConcat(db, Releases(id, intents, w, |intents|), Orders(id, intents, w, |intents|));
    }

    /** Steps 7 to 10: the runtime state is persisted, the intents reach the ledger, and the
        last-processed time advances. */
    method Complete(out: StrategyOutput, w: World, bar: int) returns (failed: bool)
      requires Valid() && out.intents == ToSeq(TradeIn(out.intents)) + ToSeq(ReleaseIn(out.intents))
      modifies this`lastBar, this`runtime, this`folds, this`orders, store
      ensures Valid() && runtime == out.runtime && failed == !w.advanceOk
      ensures Snapshot() == Completed(old(Snapshot()), w, bar, store.executions != old(store.executions))
      ensures var x := out.intents;
        var executed := Settlement.Applied(old(store.Tables()), Releases(id, x, w, |x|) + Orders(id, x, w, |x|));
        store.Tables() == if w.advanceOk then executed
                          else Settlement.Applied(executed, Failure(old(store.instances[id]), id, w))
      ensures |store.executions| <= |old(store.executions)| + 1
    {
      hide Settlement.Applied, Releases, Orders, Failure;
      ghost var executions := store.executions;
      runtime := out.runtime;
      folds := folds + [bar];
      Execute(out.intents, w);
      orders := orders + if store.executions != executions then [bar] else [];
      if !w.advanceOk {
        MarkFailed(w);
        return true;
      }
      lastBar := Some(bar);
      return false;
    }

    /** One tick of a picked instance without interference.  It takes the protocol events and
        the ledger transactions that its outcomes name; it writes at most one order, and only
        in a tick that persists the runtime state of one step on the fetched bars; and with
        nothing to work on it leaves everything as it was. */
    method Tick(env: Env, w: World) returns (failed: bool)
      requires Valid() && phase == Picked
      modifies this`lastBar, this`runtime, this`folds, this`orders, this`phase, store
      ensures Valid()
      ensures var sent := store.executions != old(store.executions);
        && Snapshot() == TickOutcome(old(Snapshot()), w, sent)
        && Snapshot() == Run(old(Snapshot()), TickEvents(w, old(lastBar), sent))
        && (sent ==> Persists(w, old(lastBar)))
      ensures store.Tables() == Settlement.Applied(old(store.Tables()),
                TickTransactions(env, old(store.Tables()), id, old(lastBar), old(runtime), w))
      ensures |store.executions| <= |old(store.executions)| + 1
      ensures runtime == if Persists(w, old(lastBar))
                         then TickStep(env, old(store.Tables()), id, old(runtime), w).runtime else old(runtime)
      ensures failed <==> Fails(w, old(lastBar))
      ensures Transient(w, id in old(store.portfolios), old(lastBar)) ==>
                && store.Tables() == old(store.Tables()) && !failed && runtime == old(runtime)
                && Snapshot() == old(Snapshot()).(phase := Idle)
    {
      hide Step, Run, TickEvents, TickTransactions, Settlement.Applied, Releases, Orders, Failure, Completed;
      ghost var db, l := store.Tables(), Snapshot();
      TickOutcomeIsRun(l, w, false);
      TickOutcomeIsRun(l, w, true);
      if Persists(w, lastBar) {
        PersistedTables(env, db, id, lastBar, runtime, w);
      } else {
        EarlyTables(env, db, id, lastBar, runtime, w);
      }
      phase, failed := Idle, false;
      if w.fetched.None? || |w.fetched.value| < 2 {
        return;
      }
      var bars := w.fetched.value;
      var latestBarTime := bars[|bars| - 2].openTime;
      if !w.loadOk {
        MarkFailed(w);
        return true;
      }
      var row := store.LoadOrCreatePortfolio(id);
      if lastBar.Some? && latestBarTime <= lastBar.value {
        return;
      }
      if !w.championOk {
        MarkFailed(w);
        return true;
      }
      var out := Step(env, TickInput(bars, row, runtime, w.params, w.spawn));
      if !w.persistOk {
        MarkFailed(w);
        return true;
      }
      StepShape(env, TickInput(bars, row, runtime, w.params, w.spawn));
      failed := Complete(out, w, latestBarTime);
    }

    /** What a scan does to one instance: exactly when it is RUNNING, a whole tick. */
    method ScanOne(env: Env, w: World) returns (failed: bool)
      requires Valid() && phase == Idle
      modifies this`lastBar, this`runtime, this`folds, this`orders, this`phase, store
      ensures Valid() && phase == Idle
      ensures var sent := store.executions != old(store.executions);
        if old(store.instances[id].status) == RUNNING
        then Snapshot() == Run(Next(old(Snapshot()), Lifecycle.Pick), TickEvents(w, old(lastBar), sent))
        else !failed && Snapshot() == old(Snapshot())
      ensures store.Tables()
           == if old(store.instances[id].status) == RUNNING
              then Settlement.Applied(old(store.Tables()),
                     TickTransactions(env, old(store.Tables()), id, old(lastBar), old(runtime), w))
              else old(store.Tables())
      ensures runtime
           == if old(store.instances[id].status) == RUNNING && Persists(w, old(lastBar))
              then TickStep(env, old(store.Tables()), id, old(runtime), w).runtime else old(runtime)
      ensures failed <==> old(store.instances[id].status) == RUNNING && Fails(w, old(lastBar))
      ensures |store.executions| <= |old(store.executions)| + 1
    {
      hide Run, Settlement.Applied, TickTransactions, TickEvents;
      failed := false;
      var picked := Pick();
      if picked {
        failed := Tick(env, w);
      }
    }
  }

  /** A tick works on the latest completed candle, but shows the strategy all of them and so
      the price of the forming one. */
  lemma FormingCandle(env: Env, w: World, completed: seq<Bar>, forming: Bar, row: PortfolioRow, rt: RuntimeState)
    requires |completed| > 0 && w.fetched == Some(completed + [forming])
    ensures Fetched(w) && LatestBar(w) == completed[|completed| - 1].openTime
    ensures var bars := completed + [forming];
      var x := TickInput(bars, row, rt, w.params, w.spawn);
      && |x.closes| == |x.highs| == |x.lows| == |x.timestamps| == |bars|
      && (forall i :: 0 <= i < |bars| ==>
            && x.closes[i] == bars[i].close && x.highs[i] == bars[i].high
            && x.lows[i] == bars[i].low && x.timestamps[i] == bars[i].openTime)
      && x.closes[|x.closes| - 1] == forming.close && x.timestamps[|x.timestamps| - 1] == forming.openTime
      && x.portfolio == View(row, w.spawn) && x.runtime == rt && x.params == w.params && x.spawn == w.spawn
  {}

  /** The orders of a tick are named by instance, engine and clock, so ticks at different
      moments never share one. */
  lemma {:induction false} OrderNames(id: nat, intents: seq<TradeIntent>, w: World, k: nat)
    requires k <= |intents|
    ensures forall e :: e in Orders(id, intents, w, k) ==>
              e.Dispatch? && e.order == OrderId(id, e.command.engine, w.nowMs) && e.instance == id
  {
    if k == 0 {
    } else {
      OrderNames(id, intents, w, k - 1);
      hide Written;
    }
  }

  /** How many of the first k intents reach the ledger. */
  function Landed(w: World, k: nat): nat {
    if k == 0 then 0 else Landed(w, k - 1) + if w.lands(k - 1) then 1 else 0
  }

  /** The transactions of the first k intents: one for each that lands, a release of its
      quantity or an order with its command. */
  lemma {:induction false} LandedIntents(id: nat, intents: seq<TradeIntent>, w: World, k: nat)
    requires k <= |intents|
    ensures var rs, os := Releases(id, intents, w, k), Orders(id, intents, w, k);
      && |rs| + |os| == Landed(w, k)
      && (forall e :: e in rs ==> e.Release?) && (forall e :: e in os ==> e.Dispatch?)
      && forall i :: 0 <= i < k && w.lands(i) ==>
           if intents[i].action == RELEASE then Settlement.Release(id, intents[i].qtyAsset) in rs
           else Settlement.Dispatch(OrderId(id, intents[i].engine, w.nowMs), id, IntentToCommand(intents[i])) in os
  {
    if k == 0 {
    } else {
      LandedIntents(id, intents, w, k - 1);
      hide IntentToCommand;
    }
  }

  /** A tick that persists makes sure of its row, then releases, then orders, and then, when
      it could not record the bar, fails. */
  lemma TickOrder(env: Env, db: Db, id: nat, last: Option<int>, rt: RuntimeState, w: World)
    requires id in db.instances && Persists(w, last)
    ensures var x := TickStep(env, db, id, rt, w).intents;
      var tick := TickTransactions(env, db, id, last, rt, w);
      var rs, os := Releases(id, x, w, |x|), Orders(id, x, w, |x|);
      && [Settlement.Ensure(id)] + rs + os <= tick
      && |rs| + |os| == Landed(w, |x|)
      && tick[1 + |rs| + |os|..]
         == if !w.advanceOk && w.errorLands && db.instances[id].status == RUNNING
            then [Settlement.SetInstance(id, db.instances[id].(status := ERROR))] else []
  {
    var x := TickStep(env, db, id, rt, w).intents;
    LandedIntents(id, x, w, |x|);
    hide TickStep, Releases, Orders, Landed;
  }
}
