/** Instance lifecycle and the tick protocol: which completed bars are folded into the
    persisted runtime state, under faults at every step. */
module Lifecycle {
  import opened Data
  import opened Ledger

  /** Where the tick of an instance is.  Its bar is the latest completed bar it works on. */
  datatype Phase =
    | Idle
    | Picked
    | Loaded(bar: int)
    | Persisted(bar: int, ordered: bool)
    | Failing(persisted: bool)

  /** One instance: its status row, its portfolio row, the time of the last processed bar,
      the bars folded into the persisted runtime state and the bars for which an order was
      dispatched, both in order. */
  datatype Life = Life(
    status: InstanceStatus, hasRow: bool, lastBar: Option<int>, folds: seq<int>, orders: seq<int>, phase: Phase)

  const CREATED := Life(STOPPED, false, None, [], [], Idle)

  datatype Event =
    | Start
    | Stop
    | Delete
    | Pick                          // the scan query sees the instance RUNNING and launches its tick
    | FetchFails                    // transient: no bars, or too few
    | Load(bar: int)                // portfolio row loaded or created; bar compared with the last one
    | LoadFails
    | ChampionFails
    | Persist                       // the runtime state after the bar is written
    | PersistFails
    | SendOrder                     // the one order of the step is written as pending
    | Advance                       // the last-processed time is written: the tick completes
    | AdvanceFails
    | MarkError(lands: bool)        // a failing tick ends; its ERROR write may be lost
    | Crash                         // the process dies inside a tick

  predicate After(bar: int, last: Option<int>) {
    last.None? || bar > last.value
  }

  /** Events that are not possible in a state change nothing. */
  function Next(l: Life, e: Event): Life {
    match e
    case Start => if l.status == STOPPED then l.(status := RUNNING) else l
    case Stop => if l.status == RUNNING then l.(status := STOPPED) else l
    case Delete => l.(status := DELETED)
    case Pick => if l.status == RUNNING && l.phase == Idle then l.(phase := Picked) else l
    case FetchFails => if l.phase == Picked then l.(phase := Idle) else l
    case Load(bar) =>
      if l.phase != Picked then l
      else l.(hasRow := true, phase := if After(bar, l.lastBar) then Loaded(bar) else Idle)
    case LoadFails => if l.phase == Picked then l.(phase := Failing(false)) else l
    case ChampionFails => if l.phase.Loaded? then l.(phase := Failing(false)) else l
    case Persist =>
      if l.phase.Loaded? then l.(folds := l.folds + [l.phase.bar], phase := Persisted(l.phase.bar, false)) else l
    case SendOrder =>
      if l.phase.Persisted? && !l.phase.ordered
      then l.(orders := l.orders + [l.phase.bar], phase := Persisted(l.phase.bar, true))
      else l
    case PersistFails => if l.phase.Loaded? then l.(phase := Failing(false)) else l
    case Advance => if l.phase.Persisted? then l.(lastBar := Some(l.phase.bar), phase := Idle) else l
    case AdvanceFails => if l.phase.Persisted? then l.(phase := Failing(true)) else l
    case MarkError(lands) =>
      if !l.phase.Failing? then l
      else l.(status := if lands && l.status == RUNNING then ERROR else l.status, phase := Idle)
    case Crash => l.(phase := Idle)
  }

  function Run(l: Life, events: seq<Event>): Life {
    if |events| == 0 then l else Next(Run(l, events[..|events| - 1]), events[|events| - 1])
  }

  // ----- status

  /** DELETED is absorbing and ERROR leads only to DELETED. */
  lemma {:induction false} StatusRules(l: Life, events: seq<Event>)
    ensures l.status == DELETED ==> Run(l, events).status == DELETED
    ensures l.status == ERROR ==> Run(l, events).status in {ERROR, DELETED}
  {
    if |events| == 0 {
    } else {
      StatusRules(l, events[..|events| - 1]);
    }
  }

  // ----- bars

  predicate Increasing(s: seq<int>) {
    forall i, j :: 0 <= i < j < |s| ==> s[i] < s[j]
  }

  function LastFold(l: Life): Option<int> {
    if |l.folds| == 0 then None else Some(l.folds[|l.folds| - 1])
  }

  /** The bar of a tick in flight is after the last processed one. */
  ghost predicate TickIsNew(l: Life) {
    (l.phase.Loaded? || l.phase.Persisted?) ==> After(l.phase.bar, l.lastBar)
  }

  lemma {:induction false} TicksAreNew(events: seq<Event>)
    ensures TickIsNew(Run(CREATED, events))
  {
    if |events| == 0 {
    } else {
      TicksAreNew(events[..|events| - 1]);
    }
  }

  /** In every run a completed tick moves the last-processed time strictly forward, and
      nothing else moves it. */
  lemma CompletedTicksAdvance(events: seq<Event>, e: Event)
    ensures var l := Run(CREATED, events);
      var l' := Next(l, e);
      l'.lastBar != l.lastBar ==> e == Advance && l'.lastBar.Some? && After(l'.lastBar.value, l.lastBar)
  {
    TicksAreNew(events);
  }

  /** A tick that has persisted a bar ends without recording it, and the instance can tick
      again: the process crashed there, or the tick failed while the instance was stopped,
      or its ERROR write was lost. */
  ghost predicate Hazard(l: Life, e: Event) {
    && l.status in {RUNNING, STOPPED}
    && ((e == Crash && (l.phase.Persisted? || l.phase == Failing(true)))
        || (e.MarkError? && l.phase == Failing(true) && (l.status == STOPPED || !e.lands)))
  }

  ghost predicate HazardFree(events: seq<Event>) {
    forall n :: 0 <= n < |events| ==> !Hazard(Run(CREATED, events[..n]), events[n])
  }

  /** At most one order a fold: orders are for folded bars, in time order, and the bar of a
      tick that has not ordered yet is after the last order. */
  ghost predicate OrdersFollowFolds(l: Life) {
    && Increasing(l.orders)
    && (|l.orders| > 0 ==> |l.folds| > 0 && l.orders[|l.orders| - 1] <= l.folds[|l.folds| - 1])
    && (|l.orders| > 0 && l.phase.Persisted? && !l.phase.ordered ==> l.orders[|l.orders| - 1] < l.phase.bar)
  }

  /** In step: outside a tick that has persisted, a live instance has recorded its last fold. */
  ghost predicate InStep(l: Life) {
    && Increasing(l.folds)
    && TickIsNew(l)
    && (l.phase == Picked || l.phase.Loaded? ==> l.lastBar == LastFold(l))
    && (l.phase == Idle && l.status in {RUNNING, STOPPED} ==> l.lastBar == LastFold(l))
    && (l.phase == Failing(false) && l.status in {RUNNING, STOPPED} ==> l.lastBar == LastFold(l))
    && (l.phase.Persisted? ==> LastFold(l) == Some(l.phase.bar))
    && OrdersFollowFolds(l)
  }

  lemma NextInStep(l: Life, e: Event)
    requires InStep(l) && !Hazard(l, e)
    ensures InStep(Next(l, e))
  {}

  lemma {:induction false} RunInStep(events: seq<Event>)
    requires HazardFree(events)
    ensures InStep(Run(CREATED, events))
  {
    if |events| == 0 {
    } else {
      var n := |events| - 1;
      var init := events[..n];
      assert forall m :: 0 <= m < n ==> init[..m] == events[..m] && init[m] == events[m];
      assert HazardFree(init);
      RunInStep(init);
      assert !Hazard(Run(CREATED, events[..n]), events[n]);
      hide Hazard, InStep, Next;
      NextInStep(Run(CREATED, init), events[n]);
    }
  }

  /** Without a hazard every completed bar is folded into the runtime state at most once,
      and at most one order is dispatched for it, both in time order. */
  lemma FoldedAtMostOnce(events: seq<Event>)
    requires HazardFree(events)
    ensures Increasing(Run(CREATED, events).folds)
    ensures Increasing(Run(CREATED, events).orders)
  {
    RunInStep(events);
  }

  function Replay(l: Life, bar: int): seq<Event> {
    (if l.status == STOPPED then [Start] else []) + [Pick, Load(bar), Persist]
  }

  lemma RunConcat(l: Life, a: seq<Event>, b: seq<Event>)
    ensures Run(l, a + b) == Run(Run(l, a), b)
  {
    if |b| == 0 {
      assert a + b == a;
    } else {
      assert (a + b)[..|a + b| - 1] == a + b[..|b| - 1];
      RunConcat(l, a, b[..|b| - 1]);
    }
  }

  /** A tick that fails after persisting has folded a bar that is not recorded. */
  ghost predicate Gap(l: Life) {
    (l.phase == Failing(true) || l.phase.Persisted?) ==> |l.folds| > 0 && After(l.folds[|l.folds| - 1], l.lastBar)
  }

  lemma {:induction false} FailingHasGap(events: seq<Event>)
    ensures Gap(Run(CREATED, events))
  {
    if |events| == 0 {
    } else {
      FailingHasGap(events[..|events| - 1]);
      TicksAreNew(events[..|events| - 1]);
    }
  }

  lemma {:induction false} GapAfterHazard(events: seq<Event>, e: Event)
    requires HazardFree(events) && Hazard(Run(CREATED, events), e)
    ensures var l := Next(Run(CREATED, events), e);
      l.phase == Idle && l.status in {RUNNING, STOPPED} && |l.folds| > 0 && After(l.folds[|l.folds| - 1], l.lastBar)
  {
    RunInStep(events);
    FailingHasGap(events);
  }

  lemma OneEvent(l: Life, e: Event)
    ensures Run(l, [e]) == Next(l, e)
  {}

  lemma ReplayFolds(l: Life, bar: int)
    requires l.phase == Idle && l.status in {RUNNING, STOPPED} && After(bar, l.lastBar)
    ensures Run(l, Replay(l, bar)).folds == l.folds + [bar]
    ensures Next(Run(l, Replay(l, bar)), SendOrder).orders == l.orders + [bar]
  {
    var start := if l.status == STOPPED then [Start] else [];
    var l1 := l.(status := RUNNING);
    RunConcat(l, start, [Pick, Load(bar), Persist]);
    OneEvent(l, Start);
    assert [Pick, Load(bar), Persist] == [Pick] + ([Load(bar)] + [Persist]);
    RunConcat(l1, [Pick], [Load(bar)] + [Persist]);
    OneEvent(l1, Pick);
    var l2 := Next(l1, Pick);
    RunConcat(l2, [Load(bar)], [Persist]);
    OneEvent(l2, Load(bar));
    OneEvent(Next(l2, Load(bar)), Persist);
  }

  /** The condition is exact: after the first hazard of a run, the next tick on the same bar
      folds it a second time; and if that bar has been ordered for, an order of that tick is
      a second order for it. */
  lemma HazardReplays(events: seq<Event>, e: Event)
    requires HazardFree(events) && Hazard(Run(CREATED, events), e)
    ensures var l := Next(Run(CREATED, events), e);
      && |l.folds| > 0
      && var bar := l.folds[|l.folds| - 1];
         var again := Run(CREATED, events + [e] + Replay(l, bar));
         && again.folds == l.folds + [bar] && !Increasing(again.folds)
         && Next(again, SendOrder).orders == l.orders + [bar]
         && (bar in l.orders ==> !Increasing(Next(again, SendOrder).orders))
  {
    GapAfterHazard(events, e);
    var l := Next(Run(CREATED, events), e);
    var bar := l.folds[|l.folds| - 1];
    RunConcat(CREATED, events, [e]);
    RunConcat(CREATED, events + [e], Replay(l, bar));
    OneEvent(Run(CREATED, events), e);
    hide Next, Hazard;
    ReplayFolds(l, bar);
    var again := Run(l, Replay(l, bar));
    assert again.folds[|l.folds| - 1] == again.folds[|l.folds|] == bar;
    if bar in l.orders {
      var k :| 0 <= k < |l.orders| && l.orders[k] == bar;
      var orders := Next(again, SendOrder).orders;
      assert orders[k] == orders[|l.orders|] == bar;
    }
  }

  // ----- short runs

  lemma RunSnoc(l: Life, events: seq<Event>, e: Event)
    ensures Run(l, events + [e]) == Next(Run(l, events), e)
  {
    assert (events + [e])[..|events|] == events;
    hide Next;
  }

  lemma RunThree(l: Life, a: Event, b: Event, c: Event)
    ensures Run(l, [a]) == Next(l, a)
    ensures Run(l, [a, b]) == Next(Next(l, a), b)
    ensures Run(l, [a, b, c]) == Next(Next(Next(l, a), b), c)
  {
    OneEvent(l, a);
    RunSnoc(l, [a], b);
    RunSnoc(l, [a, b], c);
    assert [a] + [b] == [a, b] && [a, b] + [c] == [a, b, c];
    hide Next, Run;
  }

  /** Exactly which events change the status, and to what. */
  lemma StatusTable(l: Life, e: Event)
    ensures Next(l, e).status
         == if e == Delete then DELETED
            else if e == Start && l.status == STOPPED then RUNNING
            else if e == Stop && l.status == RUNNING then STOPPED
            else if e == MarkError(true) && l.phase.Failing? && l.status == RUNNING then ERROR
            else l.status
  {}
}
