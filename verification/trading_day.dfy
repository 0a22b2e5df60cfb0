/** A trading day as one list of events, and what follows from that. */
module TradingDay {
  import opened CerebroStruct
  import opened BrokerSpec
  import opened BrokerCore
  import opened Progress
  import opened Backtest

  // ---- Runs in pieces ----------------------------------------------------------------------

  lemma RunSnoc(s: State, events: seq<Event>, e: Event)
    ensures Run(s, events + [e]) == Step(Run(s, events), e)
  {
    hide Step;
    assert (events + [e])[..|events|] == events;
  }

  lemma {:induction false} RunConcat(s: State, a: seq<Event>, b: seq<Event>)
    ensures Run(s, a + b) == Run(Run(s, a), b)
    decreases |b|
  {
    hide Step;
    if b == [] {
      assert a + b == a;
    } else {
      var n := |b| - 1;
      RunConcat(s, a, b[..n]);
      assert a + b == (a + b[..n]) + [b[n]];
      RunSnoc(s, a + b[..n], b[n]);
    }
  }

  function Commits(orders: seq<Request>): (events: seq<Event>)
    ensures |events| == |orders| && forall i :: 0 <= i < |orders| ==> events[i] == Commit(orders[i])
  {
    seq(|orders|, i requires 0 <= i < |orders| => Commit(orders[i]))
  }

  lemma {:induction false} SubmittedIsRun(s: State, orders: seq<Request>)
    ensures Submitted(s, orders) == Run(s, Commits(orders))
    decreases |orders|
  {
    hide Step;
    if orders == [] {
      assert Commits(orders) == [];
    } else {
      var n := |orders| - 1;
      SubmittedIsRun(s, orders[..n]);
      assert Commits(orders) == Commits(orders[..n]) + [Commit(orders[n])];
      RunSnoc(s, Commits(orders[..n]), Commit(orders[n]));
    }
  }

  /** Before each tick its orders are committed. */
  function MomentEvents(moments: seq<Moment>): (events: seq<Event>)
    decreases |moments|
  {
    if moments == [] then []
    else
      var n := |moments| - 1;
      MomentEvents(moments[..n]) + Commits(moments[n].orders) + [OnTick(moments[n].tick)]
  }

  lemma {:induction false} ReplayedIsRun(s: State, moments: seq<Moment>)
    ensures Replayed(s, moments) == Run(s, MomentEvents(moments))
    decreases |moments|
  {
    hide Step, Submitted;
    if moments != [] {
      var n := |moments| - 1;
      ReplayedIsRun(s, moments[..n]);
      var before := MomentEvents(moments[..n]);
      SubmittedIsRun(Run(s, before), moments[n].orders);
      RunConcat(s, before, Commits(moments[n].orders));
      RunSnoc(s, before + Commits(moments[n].orders), OnTick(moments[n].tick));
    }
  }

  // ---- Dividends ---------------------------------------------------------------------------

  /** The dividend of one tracker: for the whole lots that it held before the day. */
  function DividendOf(s: State, dividends: map<Symbol, DividendRecord>, y: Symbol): (q: Request)
    requires y in dividends && y in s.positions && dividends[y].roundLot > 0
  {
    DividendRequest(y, dividends[y], Lots(s.positions[y].quantity, dividends[y].roundLot))
  }

  predicate GetsDividend(s: State, dividends: map<Symbol, DividendRecord>, y: Symbol)
  {
    y in dividends && y in s.positions && dividends[y].roundLot > 0
  }

  function DividendEvents(s: State, dividends: map<Symbol, DividendRecord>, ys: seq<Symbol>): (events: seq<Event>)
    decreases |ys|
  {
    if ys == [] then []
    else
      var n := |ys| - 1;
      DividendEvents(s, dividends, ys[..n])
      + if GetsDividend(s, dividends, ys[n]) then [Commit(DividendOf(s, dividends, ys[n]))] else []
  }

  lemma {:induction false} DividendsAreRun(s: State, dividends: map<Symbol, DividendRecord>, ys: seq<Symbol>)
    requires Core(s) && Distinct(ys) && forall y <- ys :: y in s.positions
    requires forall x <- dividends :: ValidDividend(dividends[x])
    ensures AfterDividends(s, dividends, ys) == Run(s, DividendEvents(s, dividends, ys))
    decreases |ys|
  {
    hide Step, Core, Lots, ValidDividend, DividendRequest, NewShares;
    if ys != [] {
      var n := |ys| - 1;
      assert forall y <- ys[..n] :: y in ys;
      DividendsAreRun(s, dividends, ys[..n]);
      DividendsPaidOnce(s, dividends, ys[..n]);
      var t := AfterDividends(s, dividends, ys[..n]);
      assert ys[n] !in ys[..n] && ys[n] in ys;
      assert t.positions[ys[n]].quantity == s.positions[ys[n]].quantity;
      if GetsDividend(s, dividends, ys[n]) {
        RunSnoc(s, DividendEvents(s, dividends, ys[..n]), Commit(DividendOf(s, dividends, ys[n])));
      } else {
        assert DividendEvents(s, dividends, ys) == DividendEvents(s, dividends, ys[..n]);
      }
    }
  }

  /** The event is the dividend of this tracker. */
  predicate IsDividendOf(e: Event, s: State, dividends: map<Symbol, DividendRecord>, y: Symbol)
  {
    GetsDividend(s, dividends, y) && e == Commit(DividendOf(s, dividends, y))
  }

  lemma DividendSymbol(e: Event, s: State, dividends: map<Symbol, DividendRecord>, y: Symbol)
    requires IsDividendOf(e, s, dividends, y)
    ensures e.Commit? && e.request.action.Dividend? && e.request.symbol == y
  {
  }

  /** The dividends of a day: exactly those of the visited trackers that have a record. */
  lemma {:induction false} DividendEventsAre(s: State, dividends: map<Symbol, DividendRecord>, ys: seq<Symbol>)
    ensures forall e <- DividendEvents(s, dividends, ys) :: exists y <- ys :: IsDividendOf(e, s, dividends, y)
    ensures forall y <- ys :: GetsDividend(s, dividends, y) ==>
              exists e <- DividendEvents(s, dividends, ys) :: IsDividendOf(e, s, dividends, y)
    decreases |ys|
  {
    hide Lots, GetsDividend, IsDividendOf;
    if ys != [] {
      var n := |ys| - 1;
      var y := ys[n];
      DividendEventsAre(s, dividends, ys[..n]);
      assert ys == ys[..n] + [y];
      assert DividendEvents(s, dividends, ys[..n]) <= DividendEvents(s, dividends, ys);
      if GetsDividend(s, dividends, y) {
        LastDividend(s, dividends, y);
        assert Commit(DividendOf(s, dividends, y)) in DividendEvents(s, dividends, ys);
      }
    }
  }

  lemma LastDividend(s: State, dividends: map<Symbol, DividendRecord>, y: Symbol)
    requires GetsDividend(s, dividends, y)
    ensures y in dividends && y in s.positions && dividends[y].roundLot > 0
    ensures IsDividendOf(Commit(DividendOf(s, dividends, y)), s, dividends, y)
  {
  }

  /** No tracker gets two. */
  lemma {:induction false} DividendsOnce(s: State, dividends: map<Symbol, DividendRecord>, ys: seq<Symbol>, i: nat, j: nat,
                                         y: Symbol)
    requires Distinct(ys) && i < j < |DividendEvents(s, dividends, ys)|
    ensures var events := DividendEvents(s, dividends, ys);
            !(IsDividendOf(events[i], s, dividends, y) && IsDividendOf(events[j], s, dividends, y))
    decreases |ys|
  {
    hide Lots, DividendRequest;
    var n := |ys| - 1;
    var before := DividendEvents(s, dividends, ys[..n]);
    if j < |before| {
      DividendsOnce(s, dividends, ys[..n], i, j, y);
    } else {
      DividendEventsAre(s, dividends, ys[..n]);
      assert before[i] in before;
      var x :| x in ys[..n] && IsDividendOf(before[i], s, dividends, x);
      DividendSymbol(before[i], s, dividends, x);
      assert x != ys[n];
      DividendSymbol(DividendEvents(s, dividends, ys)[j], s, dividends, ys[n]);
      if IsDividendOf(before[i], s, dividends, y) {
        DividendSymbol(before[i], s, dividends, y);
      }
      if IsDividendOf(DividendEvents(s, dividends, ys)[j], s, dividends, y) {
        DividendSymbol(DividendEvents(s, dividends, ys)[j], s, dividends, y);
      }
    }
  }

  // ---- A day -------------------------------------------------------------------------------

  /** Everything after the dividends. */
  function OpenEvents(day: Day): (events: seq<Event>)
  {
    Commits(day.opening) + MomentEvents(day.moments) + Commits(day.closing)
    + if day.klines.Some? then [Settle(day.klines.value)] else []
  }

  /** The events of a day, in their order: orders before the opening, the dividends, orders at the
      opening, before every tick its orders, orders at the close, the settlement. */
  ghost function DayEvents(s: State, day: Day, ys: seq<Symbol>): (events: seq<Event>)
  {
    Commits(day.preMarket) + DividendEvents(Submitted(s, day.preMarket), day.dividends, ys) + OpenEvents(day)
  }

  lemma OpenIsRun(s: State, day: Day)
    ensures var closed := Submitted(Replayed(Submitted(s, day.opening), day.moments), day.closing);
            Run(s, OpenEvents(day)) == if day.klines.Some? then Step(closed, Settle(day.klines.value)) else closed
  {
    hide Step, Submitted, Replayed, Run;
    var a, b, c := Commits(day.opening), MomentEvents(day.moments), Commits(day.closing);
    SubmittedIsRun(s, day.opening);
    ReplayedIsRun(Run(s, a), day.moments);
    RunConcat(s, a, b);
    SubmittedIsRun(Run(s, a + b), day.closing);
    RunConcat(s, a + b, c);
    if day.klines.Some? {
      RunSnoc(s, a + b + c, Settle(day.klines.value));
    } else {
      assert a + b + c + [] == a + b + c;
    }
  }

  lemma {:induction false} SubmittedCore(s: State, orders: seq<Request>)
    requires Core(s) && ValidOrders(orders)
    ensures Core(Submitted(s, orders))
    decreases |orders|
  {
    hide Step, Core, ValidRequest;
    if orders != [] {
      var n := |orders| - 1;
      assert orders[n] in orders && forall q <- orders[..n] :: q in orders;
      SubmittedCore(s, orders[..n]);
      StepCore(Submitted(s, orders[..n]), Commit(orders[n]));
    }
  }

  /** A trading day is the run of its events. */
  lemma DayIsRun(s: State, day: Day, ys: seq<Symbol>)
    requires Core(s) && ValidDay(day) && EveryTracker(s, day, ys)
    ensures AfterDay(s, day, ys) == Run(s, DayEvents(s, day, ys))
  {
    hide Step, Core, Submitted, Replayed, Run, AfterDividends, DividendEvents, OpenEvents, ValidOrders, ValidDividend,
      ValidTick;
    var a := Commits(day.preMarket);
    var early := Submitted(s, day.preMarket);
    var b := DividendEvents(early, day.dividends, ys);
    SubmittedIsRun(s, day.preMarket);
    SubmittedCore(s, day.preMarket);
    DividendsAreRun(early, day.dividends, ys);
    RunConcat(s, a, b);
    OpenIsRun(Run(s, a + b), day);
    RunConcat(s, a + b, OpenEvents(day));
  }

  // ---- An order at the opening -------------------------------------------------------------

  lemma CommitsValid(orders: seq<Request>)
    requires ValidOrders(orders)
    ensures ValidEvents(Commits(orders))
  {
    hide ValidRequest;
    forall e | e in Commits(orders) ensures ValidEvent(e) {
      var i :| 0 <= i < |orders| && Commits(orders)[i] == e;
      assert orders[i] in orders;
    }
  }

  lemma {:induction false} MomentsValid(moments: seq<Moment>)
    requires forall m <- moments :: ValidOrders(m.orders) && ValidTick(m.tick)
    ensures ValidEvents(MomentEvents(moments))
    decreases |moments|
  {
    hide ValidOrders, ValidTick;
    if moments != [] {
      var n := |moments| - 1;
      assert moments[n] in moments && forall m <- moments[..n] :: m in moments;
      MomentsValid(moments[..n]);
      CommitsValid(moments[n].orders);
    }
  }

  lemma OpenValid(day: Day)
    requires ValidDay(day)
    ensures ValidEvents(OpenEvents(day))
  {
    hide ValidOrders, ValidTick, ValidDividend, MomentEvents;
    CommitsValid(day.opening);
    MomentsValid(day.moments);
    CommitsValid(day.closing);
  }

  /** The day's events after its one order at the opening. */
  function RestOfDay(day: Day): (events: seq<Event>)
  {
    MomentEvents(day.moments) + Commits(day.closing) + if day.klines.Some? then [Settle(day.klines.value)] else []
  }

  /** The state when the market opens. */
  ghost function Opening(s: State, day: Day, ys: seq<Symbol>): (r: State)
  {
    AfterDividends(Submitted(s, day.preMarket), day.dividends, ys)
  }

  lemma EarlyIsRun(s: State, day: Day, ys: seq<Symbol>)
    requires Core(s) && ValidDay(day) && EveryTracker(s, day, ys)
    ensures var a := Commits(day.preMarket) + DividendEvents(Submitted(s, day.preMarket), day.dividends, ys);
            Opening(s, day, ys) == Run(s, a)
  {
    hide Step, Core, Submitted, Run, AfterDividends, DividendEvents, ValidOrders, ValidDividend, ValidTick;
    SubmittedIsRun(s, day.preMarket);
    SubmittedCore(s, day.preMarket);
    DividendsAreRun(Submitted(s, day.preMarket), day.dividends, ys);
    RunConcat(s, Commits(day.preMarket), DividendEvents(Submitted(s, day.preMarket), day.dividends, ys));
  }

  lemma {:induction false} SubmittedReachable(s: State, orders: seq<Request>)
    requires Reachable(s) && ValidOrders(orders)
    ensures Reachable(Submitted(s, orders))
    decreases |orders|
  {
    hide Step, Reachable, ValidRequest;
    if orders != [] {
      var n := |orders| - 1;
      assert orders[n] in orders && forall q <- orders[..n] :: q in orders;
      SubmittedReachable(s, orders[..n]);
      ReachableStep(Submitted(s, orders[..n]), Commit(orders[n]));
    }
  }

  lemma {:induction false} DividendsReachable(s: State, dividends: map<Symbol, DividendRecord>, ys: seq<Symbol>)
    requires Reachable(s) && forall x <- dividends :: ValidDividend(dividends[x])
    ensures Reachable(AfterDividends(s, dividends, ys))
    decreases |ys|
  {
    hide Step, Reachable, ValidRequest, Lots, Core, DividendRequest;
    if ys != [] {
      var n := |ys| - 1;
      DividendsReachable(s, dividends, ys[..n]);
      var t := AfterDividends(s, dividends, ys[..n]);
      ReachableCore(t);
      if GetsDividend(t, dividends, ys[n]) {
        var d := dividends[ys[n]];
        SoundAt(t, ys[n]);
        LotsHeld(t.positions[ys[n]].quantity, d.roundLot);
        DividendIsValid(ys[n], d, Lots(t.positions[ys[n]].quantity, d.roundLot));
        ReachableStep(t, Commit(DividendRequest(ys[n], d, Lots(t.positions[ys[n]].quantity, d.roundLot))));
      }
    }
  }

  lemma OpeningReachable(s: State, day: Day, ys: seq<Symbol>)
    requires Reachable(s) && ValidDay(day)
    ensures Reachable(Opening(s, day, ys))
  {
    hide Submitted, AfterDividends, Reachable, ValidOrders, ValidDividend, ValidTick;
    SubmittedReachable(s, day.preMarket);
    DividendsReachable(Submitted(s, day.preMarket), day.dividends, ys);
  }

  lemma DayAfterOpening(s: State, day: Day, ys: seq<Symbol>, q: Request)
    requires Core(s) && ValidDay(day) && EveryTracker(s, day, ys) && day.opening == [q]
    ensures AfterDay(s, day, ys) == Run(Step(Opening(s, day, ys), Commit(q)), RestOfDay(day))
  {
    hide Step, Core, Run, Opening, DividendEvents, RestOfDay, OpenEvents, AfterDay, ValidDay, EveryTracker;
    DayIsRun(s, day, ys);
    EarlyIsRun(s, day, ys);
    OpeningFirst(day, q);
    var a := Commits(day.preMarket) + DividendEvents(Submitted(s, day.preMarket), day.dividends, ys);
    RunConcat(s, a, OpenEvents(day));
    RunConcat(Opening(s, day, ys), [Commit(q)], RestOfDay(day));
    OneStep(Opening(s, day, ys), Commit(q));
  }

  lemma OneStep(s: State, e: Event)
    ensures Run(s, [e]) == Step(s, e)
  {
    hide Step;
    RunSnoc(s, [], e);
    assert [] + [e] == [e];
  }

  lemma OpeningFirst(day: Day, q: Request)
    requires day.opening == [q]
    ensures OpenEvents(day) == [Commit(q)] + RestOfDay(day)
  {
    assert Commits(day.opening) == [Commit(q)];
  }

  lemma RestValid(day: Day)
    requires ValidDay(day)
    ensures ValidEvents(RestOfDay(day))
  {
    hide ValidOrders, ValidTick, ValidDividend, MomentEvents;
    MomentsValid(day.moments);
    CommitsValid(day.closing);
  }

  /** A market order at the opening that is alone in its queue is finished by the end of the day when
      the day's ticks of its symbol offer its quantity; then all of it is filled, but for what a
      rejected member of its chain ordered. */
  lemma OpeningOrderFinishes(s: State, day: Day, ys: seq<Symbol>, q: Request, v: real)
    requires Reachable(s) && ValidDay(day) && EveryTracker(s, day, ys)
    requires day.opening == [q] && (q.action.Buy? || q.action.Sell?) && q.kind.Market? && HasMatcher(q.symbol)
    requires QueueOf(Opening(s, day, ys), q.symbol) == []
    requires forall e <- RestOfDay(day) :: LeavesAlone(e, q.symbol)
    requires v > 0.0 && Liquid(RestOfDay(day), q.symbol, q.action, v)
    requires TicksOf(RestOfDay(day), q.symbol) as real * v >= q.quantity
    ensures var start, t := Opening(s, day, ys), AfterDay(s, day, ys);
            && QueueOf(t, q.symbol) == [] && |start.log| <= |t.log|
            && var news := t.log[|start.log|..];
               FilledOf(start.nextId, news) + UnfilledOf(start.nextId, news) == q.quantity
  {
    hide Core, Run, Opening, ValidOrders, ValidDividend, ValidTick, Reachable, HasMatcher, RestOfDay, Liquid, TicksOf,
      LeavesAlone, FilledOf, UnfilledOf, AfterDay, EveryTracker, Step;
    var start := Opening(s, day, ys);
    ReachableCore(s);
    OpeningReachable(s, day, ys);
    DayAfterOpening(s, day, ys, q);
    assert ValidRequest(q) by { assert q in day.opening; OpeningValid(day, q); }
    ReachableStep(start, Commit(q));
    Queued(start, q);
    RestValid(day);
    MarketOrderFinishes(Step(start, Commit(q)), NewOrder(start, q), RestOfDay(day), v);
  }

  lemma OpeningValid(day: Day, q: Request)
    requires ValidDay(day) && q in day.opening
    ensures ValidRequest(q)
  {
  }

  lemma Queued(s: State, q: Request)
    requires Reachable(s) && ValidRequest(q) && (q.action.Buy? || q.action.Sell?) && QueueOf(s, q.symbol) == []
    ensures var t, o := Step(s, Commit(q)), NewOrder(s, q);
            && QueueOf(t, q.symbol) == [o] && t.log == s.log && o.root == s.nextId && o.symbol == q.symbol
            && o.kind == q.kind && o.action == q.action && o.quantity == q.quantity
  {
    hide Reachable, Core;
    ReachableCore(s);
    NotHalted(s);
  }

  // ---- All days ----------------------------------------------------------------------------

  ghost function AllEvents(s: State, days: seq<Day>, visits: seq<seq<Symbol>>): (events: seq<Event>)
    requires |visits| == |days|
    decreases |days|
  {
    if days == [] then []
    else
      var n := |days| - 1;
      AllEvents(s, days[..n], visits[..n]) + DayEvents(AfterDays(s, days[..n], visits[..n]), days[n], visits[n])
  }

  /** A whole backtest is the run of the events of its days. */
  lemma {:induction false} BacktestIsRun(s: State, days: seq<Day>, visits: seq<seq<Symbol>>)
    requires Reachable(s) && |visits| == |days| && (forall d <- days :: ValidDay(d)) && EveryDay(s, days, visits)
    ensures AfterDays(s, days, visits) == Run(s, AllEvents(s, days, visits))
    ensures Reachable(AfterDays(s, days, visits))
    decreases |days|
  {
    hide Run, AfterDay, DayEvents, ValidDay, EveryTracker, Reachable, Core;
    if days == [] {
      assert Run(s, []) == s by { NoEvents(s); }
    } else {
      var n := |days| - 1;
      assert days[n] in days && forall d <- days[..n] :: d in days;
      BacktestIsRun(s, days[..n], visits[..n]);
      var t := AfterDays(s, days[..n], visits[..n]);
      ReachableCore(t);
      DayIsRun(t, days[n], visits[n]);
      RunConcat(s, AllEvents(s, days[..n], visits[..n]), DayEvents(t, days[n], visits[n]));
      DayReachable(t, days[n], visits[n]);
    }
  }

  lemma NoEvents(s: State)
    ensures Run(s, []) == s
  {
  }

  lemma {:induction false} ReplayedReachable(s: State, moments: seq<Moment>)
    requires Reachable(s) && forall m <- moments :: ValidOrders(m.orders) && ValidTick(m.tick)
    ensures Reachable(Replayed(s, moments))
    decreases |moments|
  {
    hide Step, Reachable, ValidOrders, ValidTick, Submitted;
    if moments != [] {
      var n := |moments| - 1;
      assert moments[n] in moments && forall m <- moments[..n] :: m in moments;
      ReplayedReachable(s, moments[..n]);
      SubmittedReachable(Replayed(s, moments[..n]), moments[n].orders);
      ReachableStep(Submitted(Replayed(s, moments[..n]), moments[n].orders), OnTick(moments[n].tick));
    }
  }

  lemma DayReachable(s: State, day: Day, ys: seq<Symbol>)
    requires Reachable(s) && ValidDay(day)
    ensures Reachable(AfterDay(s, day, ys))
  {
    hide Step, Submitted, AfterDividends, Replayed, Reachable, ValidOrders, ValidDividend, ValidTick;
    OpeningReachable(s, day, ys);
    var start := Opening(s, day, ys);
    SubmittedReachable(start, day.opening);
    ReplayedReachable(Submitted(start, day.opening), day.moments);
    var late := Submitted(Replayed(Submitted(start, day.opening), day.moments), day.closing);
    SubmittedReachable(Replayed(Submitted(start, day.opening), day.moments), day.closing);
    if day.klines.Some? {
      ReachableStep(late, Settle(day.klines.value));
    }
  }
}
