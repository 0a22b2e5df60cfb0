/** Progress of a chain of partial fills that is alone in its queue. */
module Progress {
  import opened Approx
  import opened CerebroStruct
  import opened PositionTracker
  import opened BrokerSpec
  import opened BrokerCore
  import opened OrderBook
  import opened OrderSums
  import opened TPlusOne

  /** The volume that an order is matched against. */
  function SideVolume(o: Order, tick: Tick): (v: real)
  {
    if o.action.Buy? then tick.askVolume else tick.bidVolume
  }

  /** Nothing new is queued for `y`. */
  predicate LeavesAlone(e: Event, y: Symbol)
  {
    e.Commit? && e.request.symbol == y ==>
      e.request.done || NewOrder(Initial(0, 0.0), e.request).Special()
  }

  /** The queue of `y` holds at most one order, of the given kind, with at most `left` open. */
  predicate Lone(s: State, y: Symbol, action: Action, kind: OrderType, left: real)
  {
    var q := QueueOf(s, y);
    || q == []
    || (|q| == 1 && q[0].action == action && q[0].kind == kind && q[0].quantity <= left)
  }

  lemma SweepOne(s: State, o: Order, tick: Tick)
    requires !s.halted
    ensures var w, p := Sweep(s, [o], tick), ProcessOrder(s, o, tick);
            w == Swept(p.state, [p.order], p.children)
    ensures Unfinished([o]) == if o.Finished() then [] else [o]
  {
    hide ProcessOrder;
    var none: seq<Order> := [];
    assert [o][..0] == none;
    assert Sweep(s, none, tick) == Swept(s, [], []);
    assert Unfinished(none) == [];
  }

  /** A market order is finished by a tick, or cut down by the volume of its side. */
  lemma MarketOrderShrinks(s: State, o: Order, tick: Tick)
    requires Running(s) && Pending(o, o.symbol, s.nextId) && ValidTick(tick)
    requires o.kind.Market? && HasMatcher(o.symbol)
    ensures var p := ProcessOrder(s, o, tick);
            && p.order.Finished()
            && (p.children == []
                || (|p.children| == 1 && p.children[0].quantity == o.quantity - SideVolume(o, tick)
                    && p.children[0].action == o.action && p.children[0].kind == o.kind
                    && (o.action.Sell? ==> o.quantity <= PositionOf(s, o.symbol).closable)))
  {
    if Judge(s, o, tick).Execute? {
      hide ProcessOrder;
      Executed(s, o, tick);
      ExecutedOnce(s, o, tick);
    } else {
      hide FilledOrder, Deliver;
    }
  }

  lemma ExecutedOnce(s: State, o: Order, tick: Tick)
    requires Running(s) && Pending(o, o.symbol, s.nextId) && ValidTick(tick)
    requires Judge(s, o, tick).Execute?
    ensures ProcessOrder(s, o, tick).order == FillOf(s, o, tick)
  {
    hide FilledOrder, Deliver, JudgeLimit, JudgeMarket;
    Executed(s, o, tick);
  }

  /** The state in which the orders of a tick are matched. */
  function Marking(s: State, tick: Tick): (a: State)
  {
    if Empty(PositionOf(s, tick.symbol)) then s else MarkPosition(s, tick.symbol, tick.last)
  }

  lemma MarkingFacts(s: State, tick: Tick)
    requires Core(s)
    ensures var a := Marking(s, tick);
            && Core(a) && a.queues == s.queues && a.nextId == s.nextId && a.log == s.log
            && PositionOf(a, tick.symbol).closable == PositionOf(s, tick.symbol).closable
            && AfterOrders(s, tick) == ProcessNormalOrder(a, tick)
  {
    hide Core, Marked, ProcessNormalOrder, Empty;
    MarkCore(s, tick.symbol, tick.last);
    assert Running(s) by { CoreRuns(s); }
    MarkClosable(s, tick.symbol, tick.last);
  }

  lemma CoreRuns(s: State)
    requires Core(s)
    ensures Running(s)
  {
  }

  lemma NormalOne(a: State, o: Order, tick: Tick)
    requires Core(a) && ValidTick(tick) && QueueOf(a, tick.symbol) == [o]
    ensures Pending(o, tick.symbol, a.nextId)
    ensures var b, p := ProcessNormalOrder(a, tick), ProcessOrder(a, o, tick);
            && QueueOf(b, tick.symbol) == (if p.order.Finished() then [] else [p.order]) + p.children
            && b.log == p.state.log && b.positions == p.state.positions && !p.state.halted
  {
    hide ProcessOrder;
    assert [o][0] in a.queues[tick.symbol];
    ProcessOrderCore(a, o, tick);
    SweepOne(a, o, tick);
    SweepOne(a, ProcessOrder(a, o, tick).order, tick);
  }

  lemma TickQueue(s: State, tick: Tick, o: Order)
    requires Core(s) && ValidTick(tick) && QueueOf(s, tick.symbol) == [o]
    ensures var a := Marking(s, tick);
            var p := ProcessOrder(a, o, tick);
            && QueueOf(TickStep(s, tick), tick.symbol) == (if p.order.Finished() then [] else [p.order]) + p.children
            && TickStep(s, tick).log == p.state.log
            && PositionOf(TickStep(s, tick), tick.symbol).closable == PositionOf(p.state, tick.symbol).closable
  {
    hide ProcessOrder, Marked, AfterOrders, Core, Marking;
    MarkingFacts(s, tick);
    NormalOne(Marking(s, tick), o, tick);
    AfterOrdersCore(s, tick);
    CoreRuns(AfterOrders(s, tick));
    MarkClosable(AfterOrders(s, tick), tick.symbol, tick.last);
  }

  lemma MarkClosable(s: State, y: Symbol, last: real)
    requires Running(s)
    ensures PositionOf(MarkPosition(s, y, last), y).closable == PositionOf(s, y).closable
  {
    hide Marked;
    if y in s.positions {
      MarkedKeeps(s.positions[y], last);
    }
  }

  /** One tick of the symbol. */
  lemma TickShrinks(s: State, tick: Tick, action: Action, left: real)
    requires Core(s) && ValidTick(tick) && HasMatcher(tick.symbol)
    requires Lone(s, tick.symbol, action, Market, left)
    ensures var v := if action.Buy? then tick.askVolume else tick.bidVolume;
            Lone(TickStep(s, tick), tick.symbol, action, Market, left - v)
  {
    var q := QueueOf(s, tick.symbol);
    if q == [] {
      EmptyTick(s, tick);
    } else {
      hide TickStep, ProcessOrder;
      var o := q[0];
      assert q == [o];
      TickQueue(s, tick, o);
      MarkingFacts(s, tick);
      NormalOne(Marking(s, tick), o, tick);
      MarketOrderShrinks(Marking(s, tick), o, tick);
    }
  }

  lemma EmptyTick(s: State, tick: Tick)
    requires Core(s) && ValidTick(tick) && QueueOf(s, tick.symbol) == []
    ensures QueueOf(TickStep(s, tick), tick.symbol) == []
    ensures TickStep(s, tick).log == s.log
    ensures PositionOf(TickStep(s, tick), tick.symbol).closable == PositionOf(s, tick.symbol).closable
  {
    hide ProcessOrder, Marked;
    MarkCore(s, tick.symbol, tick.last);
    MarkClosable(s, tick.symbol, tick.last);
    var a := if Empty(PositionOf(s, tick.symbol)) then s else MarkPosition(s, tick.symbol, tick.last);
    NormalCore(a, tick);
    MarkClosable(ProcessNormalOrder(a, tick), tick.symbol, tick.last);
  }

  /** Any other step leaves the queue of `y` as it is. */
  lemma OtherStepQueue(s: State, e: Event, y: Symbol)
    requires Core(s) && ValidEvent(e) && LeavesAlone(e, y)
    requires e.OnTick? ==> e.tick.symbol != y
    ensures QueueOf(Step(s, e), y) == QueueOf(s, y)
  {
    match e
    case Commit(q) =>
      hide SpecialStep;
      CommitShape(s, q);
      CommitOrderShape(Issued(s, q.symbol), NewOrder(s, q));
    case OnTick(tick) => OtherTick(s, tick, y);
    case Settle(klines) => SettleCore(s, klines);
  }

  lemma OtherTick(s: State, tick: Tick, y: Symbol)
    requires Core(s) && ValidTick(tick) && tick.symbol != y
    ensures QueueOf(TickStep(s, tick), y) == QueueOf(s, y)
  {
    hide ProcessOrder, Marked;
    MarkCore(s, tick.symbol, tick.last);
    var a := if Empty(PositionOf(s, tick.symbol)) then s else MarkPosition(s, tick.symbol, tick.last);
    if tick.symbol in a.queues {
      SweepCore(a, a.queues[tick.symbol], tick, tick.symbol);
    }
  }

  /** How many ticks of `y` a run contains. */
  function TicksOf(events: seq<Event>, y: Symbol): (n: nat)
    decreases |events|
  {
    if events == [] then 0
    else
      var e := events[|events| - 1];
      TicksOf(events[..|events| - 1], y) + if e.OnTick? && e.tick.symbol == y then 1 else 0
  }

  /** Every tick of `y` offers at least `v` on the given side. */
  predicate Liquid(events: seq<Event>, y: Symbol, action: Action, v: real)
  {
    forall e <- events :: e.OnTick? && e.tick.symbol == y ==>
      v <= if action.Buy? then e.tick.askVolume else e.tick.bidVolume
  }

  /** Each tick takes at least `v` off a lone market order, or finishes it. */
  lemma {:induction false} RunShrinks(s: State, events: seq<Event>, y: Symbol, action: Action, left: real, v: real)
    requires Core(s) && ValidEvents(events) && HasMatcher(y)
    requires Lone(s, y, action, Market, left) && v > 0.0
    requires forall e <- events :: LeavesAlone(e, y)
    requires Liquid(events, y, action, v)
    ensures Lone(Run(s, events), y, action, Market, left - Taken(events, y, v))
    decreases |events|
  {
    hide Step, Core, HasMatcher, LeavesAlone, Lone;
    if events != [] {
      var n := |events| - 1;
      assert events[n] in events && forall e <- events[..n] :: e in events;
      RunShrinks(s, events[..n], y, action, left, v);
      RunCore(s, events[..n]);
      StepShrinks(Run(s, events[..n]), events[n], y, action, left - Taken(events[..n], y, v), v);
    }
  }

  /** What ticks that offer `v` each take off an order. */
  function Taken(events: seq<Event>, y: Symbol, v: real): (r: real)
    decreases |events|
  {
    if events == [] then 0.0
    else
      var e := events[|events| - 1];
      Taken(events[..|events| - 1], y, v) + if e.OnTick? && e.tick.symbol == y then v else 0.0
  }

  lemma {:induction false} TakenIs(events: seq<Event>, y: Symbol, v: real)
    ensures Taken(events, y, v) == TicksOf(events, y) as real * v
    decreases |events|
  {
    if events != [] {
      var n := |events| - 1;
      TakenIs(events[..n], y, v);
      OneMore(TicksOf(events[..n], y), v);
    }
  }

  lemma OneMore(n: nat, v: real)
    ensures (n + 1) as real * v == n as real * v + v
  {
  }

  lemma StepShrinks(s: State, e: Event, y: Symbol, action: Action, left: real, v: real)
    requires Core(s) && ValidEvent(e) && HasMatcher(y) && LeavesAlone(e, y)
    requires Lone(s, y, action, Market, left) && v > 0.0
    requires e.OnTick? && e.tick.symbol == y ==> v <= if action.Buy? then e.tick.askVolume else e.tick.bidVolume
    ensures Lone(Step(s, e), y, action, Market, if e.OnTick? && e.tick.symbol == y then left - v else left)
  {
    if e.OnTick? && e.tick.symbol == y {
      hide TickStep;
      TickShrinks(s, e.tick, action, left);
    } else {
      hide Step, LeavesAlone;
      OtherStepQueue(s, e, y);
    }
  }

  lemma QueuedPositive(s: State, y: Symbol)
    requires Core(s)
    ensures forall o <- QueueOf(s, y) :: o.quantity > 0.0
  {
  }

  // ---- What becomes of the quantity --------------------------------------------------------

  /** What the filled orders of a chain filled, and what its other orders ordered. */
  function FilledOf(root: int, orders: seq<Order>): (q: real)
    decreases |orders|
  {
    if orders == [] then 0.0
    else
      var o := orders[|orders| - 1];
      FilledOf(root, orders[..|orders| - 1]) + if o.root == root && o.status.Filled? then o.filledQuantity else 0.0
  }

  function UnfilledOf(root: int, orders: seq<Order>): (q: real)
    decreases |orders|
  {
    if orders == [] then 0.0
    else
      var o := orders[|orders| - 1];
      UnfilledOf(root, orders[..|orders| - 1]) + if o.root == root && !o.status.Filled? then o.quantity else 0.0
  }

  lemma {:induction false} FilledAndUnfilled(root: int, orders: seq<Order>)
    ensures Sum(ChainQuantity(root), orders) == FilledOf(root, orders) + UnfilledOf(root, orders)
    ensures (forall o <- orders :: o.root == root ==> o.status.Filled?) ==> UnfilledOf(root, orders) == 0.0
    decreases |orders|
  {
    if orders != [] {
      var n := |orders| - 1;
      FilledAndUnfilled(root, orders[..n]);
      assert orders[n] in orders && forall o <- orders[..n] :: o in orders;
    }
  }

  lemma StepRoots(s: State, e: Event, r: int)
    requires Core(s) && Book(s) && ValidEvent(e) && s.nextId >= FIRST_ID && r in s.history.roots
    ensures var h := Step(s, e).history; r in h.roots && h.roots[r] == s.history.roots[r]
  {
    hide CommitStep, ProcessNormalOrder, QueuesHomed, LogHomed, OncePerId, ChainsConserved, Core, Marked, Total;
    NotHaltedNow(s);
    match e
    case Commit(q) =>
      CommitShape(s, q);
    case OnTick(tick) =>
      var a := Marking(s, tick);
      MarkingBook(s, tick);
      MarkingFacts(s, tick);
      NormalRoots(a, tick);
    case Settle(klines) =>
      SettleCore(s, klines);
  }

  lemma NotHaltedNow(s: State)
    requires Core(s)
    ensures !s.halted
  {
  }

  lemma MarkingBook(s: State, tick: Tick)
    requires Core(s) && Book(s)
    ensures Book(Marking(s, tick)) && Marking(s, tick).history == s.history
  {
    hide Book, Core, Marked;
    SameBook(s, Marking(s, tick));
  }

  lemma NormalRoots(a: State, tick: Tick)
    requires Core(a) && Book(a) && ValidTick(tick) && a.nextId >= FIRST_ID
    ensures ProcessNormalOrder(a, tick).history.roots == a.history.roots
  {
    if tick.symbol in a.queues {
      NormalKeepsRoots(a, tick);
    }
  }

  ghost predicate LogExtends(s: State, t: State)
  {
    |s.log| <= |t.log| && t.log[..|s.log|] == s.log
  }

  lemma {:induction false} RunExtends(s: State, events: seq<Event>, r: int)
    requires Core(s) && Book(s) && ValidEvents(events) && s.nextId >= FIRST_ID && r in s.history.roots
    ensures LogExtends(s, Run(s, events))
    ensures var h := Run(s, events).history; r in h.roots && h.roots[r] == s.history.roots[r]
    decreases |events|
  {
    hide Step, Core, Book;
    if events != [] {
      var n := |events| - 1;
      var t := Run(s, events[..n]);
      RunExtends(s, events[..n], r);
      RunCore(s, events[..n]);
      RunBook(s, events[..n]);
      StepLogGrows(t, events[n]);
      StepRoots(t, events[n], r);
      assert Step(t, events[n]).log[..|s.log|] == t.log[..|s.log|];
    }
  }

  /** A lone order's chain in a later state in which its queue is empty: what it ordered was filled
      since, but for what its one rejected member ordered. */
  lemma QuantityAccounted(s: State, o: Order, events: seq<Event>)
    requires Core(s) && Book(s) && ValidEvents(events) && s.nextId >= FIRST_ID
    requires QueueOf(s, o.symbol) == [o] && QueueOf(Run(s, events), o.symbol) == []
    ensures var t := Run(s, events);
            && LogExtends(s, t)
            && var news := t.log[|s.log|..];
               && FilledOf(o.root, news) + UnfilledOf(o.root, news) == o.quantity
               && ((forall x <- news :: x.root == o.root ==> x.status.Filled?) ==> FilledOf(o.root, news) == o.quantity)
  {
    hide Run, Core, OncePerId, LogHomed, Registered, Sum;
    var t, r := Run(s, events), o.root;
    LoneRoot(s, o);
    RunExtends(s, events, r);
    RunBook(s, events);
    assert s.history.roots[r].symbol == o.symbol;
    assert TotalOf(ChainQuantity(r), t, o.symbol) == TotalOf(ChainQuantity(r), s, o.symbol);
    var news := t.log[|s.log|..];
    assert t.log == s.log + news;
    SumConcat(ChainQuantity(r), s.log, news);
    SumOne(ChainQuantity(r), o);
    SumNone(ChainQuantity(r));
    FilledAndUnfilled(r, news);
  }

  lemma LoneRoot(s: State, o: Order)
    requires Core(s) && Book(s) && QueueOf(s, o.symbol) == [o]
    ensures o.root in s.history.roots && s.history.roots[o.root].symbol == o.symbol
    ensures Weight(ChainQuantity(o.root), o) == o.quantity
  {
    assert [o][0] in s.queues[o.symbol];
    assert Homed(o, o.symbol, s.history);
  }

  /** A lone market order of quantity Q is finished after ceil(Q / v) ticks of its symbol that
      offer v each, whatever else happens in between; and by then all of Q is filled, but for what
      the one member ordered that was rejected, if there is one. */
  lemma MarketOrderFinishes(s: State, o: Order, events: seq<Event>, v: real)
    requires Reachable(s) && ValidEvents(events) && HasMatcher(o.symbol)
    requires QueueOf(s, o.symbol) == [o] && o.kind.Market?
    requires forall e <- events :: LeavesAlone(e, o.symbol)
    requires v > 0.0 && Liquid(events, o.symbol, o.action, v)
    requires TicksOf(events, o.symbol) as real * v >= o.quantity
    ensures QueueOf(Run(s, events), o.symbol) == []
    ensures LogExtends(s, Run(s, events))
    ensures var news := Run(s, events).log[|s.log|..];
            && FilledOf(o.root, news) + UnfilledOf(o.root, news) == o.quantity
            && ((forall x <- news :: x.root == o.root ==> x.status.Filled?) ==> FilledOf(o.root, news) == o.quantity)
  {
    hide Run, HasMatcher, Book, LogExtends, FilledOf, UnfilledOf, Core, Liquid, LeavesAlone, TicksOf, Taken, Reachable,
      ValidEvents;
    ReachableCore(s);
    ReachableBook(s);
    RunShrinks(s, events, o.symbol, o.action, o.quantity, v);
    TakenIs(events, o.symbol, v);
    RunCore(s, events);
    QueuedPositive(Run(s, events), o.symbol);
    QuantityAccounted(s, o, events);
  }

  // ---- A sell that was once covered stays covered ------------------------------------------

  /** The one queued order of `y`, if it is a sell, can be filled from the closable shares. */
  predicate Covered(s: State, y: Symbol)
  {
    var q := QueueOf(s, y);
    q == [] || (|q| == 1 && q[0].action.Sell? && q[0].quantity <= PositionOf(s, y).closable)
  }

  /** Since `s` no order of `y` was rejected for lack of closable shares. */
  predicate NeverShort(s: State, t: State, y: Symbol)
  {
    && |s.log| <= |t.log|
    && forall i :: |s.log| <= i < |t.log| && t.log[i].symbol == y ==> t.log[i].reason != InsufficientClosable
  }

  lemma SellStaysCovered(s: State, o: Order, tick: Tick)
    requires Running(s) && Pending(o, o.symbol, s.nextId) && ValidTick(tick)
    requires o.action.Sell? && o.quantity <= PositionOf(s, o.symbol).closable
    ensures var p := ProcessOrder(s, o, tick);
            && p.order.reason != InsufficientClosable
            && (forall c <- p.children :: c.action.Sell? && c.quantity <= PositionOf(p.state, o.symbol).closable)
            && (!p.order.Finished() ==>
                  p.order == o && PositionOf(p.state, o.symbol).closable == PositionOf(s, o.symbol).closable)
  {
    if Judge(s, o, tick).Execute? {
      hide ProcessOrder;
      var f := FillOf(s, o, tick);
      Executed(s, o, tick);
      ExecutedOnce(s, o, tick);
      BeforeDeliveryFacts(s, o, tick);
      DeliverClosable(BeforeDelivery(s, o, tick), f, o.symbol);
      assert PositionOf(ProcessOrder(s, o, tick).state, o.symbol) == PositionOf(AfterDelivery(s, o, tick), o.symbol);
    } else {
      hide FilledOrder, Deliver;
      PositionSound(s, o.symbol);
      GridIsExact(o.quantity, PositionOf(s, o.symbol).closable);
    }
  }

  lemma TickCovered(s: State, tick: Tick)
    requires Core(s) && ValidTick(tick) && Covered(s, tick.symbol)
    ensures Covered(TickStep(s, tick), tick.symbol)
    ensures NeverShort(s, TickStep(s, tick), tick.symbol)
  {
    var q := QueueOf(s, tick.symbol);
    if q == [] {
      EmptyTick(s, tick);
    } else {
      hide TickStep, ProcessOrder;
      var o := q[0];
      assert q == [o];
      TickQueue(s, tick, o);
      MarkingFacts(s, tick);
      NormalOne(Marking(s, tick), o, tick);
      SellStaysCovered(Marking(s, tick), o, tick);
      ProcessOrderCore(Marking(s, tick), o, tick);
    }
  }

  /** What a tick of another symbol logs is of that symbol. */
  ghost predicate LogsOnly(before: seq<Order>, log: seq<Order>, x: Symbol)
  {
    && |before| <= |log| && log[..|before|] == before
    && forall i :: |before| <= i < |log| ==> log[i].symbol == x
  }

  lemma {:induction false} SweepLogs(s: State, orders: seq<Order>, tick: Tick, x: Symbol)
    requires Running(s) && QueueOk(orders, x, s.nextId) && ValidTick(tick)
    ensures LogsOnly(s.log, Sweep(s, orders, tick).state.log, x)
    decreases |orders|
  {
    hide ProcessOrder, Running;
    if orders != [] {
      var n := |orders| - 1;
      QueuePrefix(orders, x, s.nextId);
      SweepCore(s, orders[..n], tick, x);
      SweepLogs(s, orders[..n], tick, x);
      var w := Sweep(s, orders[..n], tick).state;
      ProcessOrderCore(w, orders[n], tick);
      SameSymbol(w, orders[n], tick);
    }
  }

  lemma SameSymbol(s: State, o: Order, tick: Tick)
    requires Running(s) && Pending(o, o.symbol, s.nextId) && ValidTick(tick)
    ensures ProcessOrder(s, o, tick).order.symbol == o.symbol
  {
    if Judge(s, o, tick).Execute? {
      hide ProcessOrder;
      Executed(s, o, tick);
      ExecutedOnce(s, o, tick);
    } else {
      hide FilledOrder, Deliver;
    }
  }

  /** Steps that log nothing sold of `y` and do not settle it keep its closable shares. */
  lemma ClosableKept(s: State, t: State, y: Symbol)
    requires Stock(t, y) == Stock(s, y)
    requires |s.log| <= |t.log| && t.log[..|s.log|] == s.log
    requires forall o <- t.log[|s.log|..] :: Weight(SoldOf(y), o) == 0.0
    ensures PositionOf(t, y).closable == PositionOf(s, y).closable
  {
    assert t.log == s.log + t.log[|s.log|..];
    SumConcat(SoldOf(y), s.log, t.log[|s.log|..]);
    SumZero(SoldOf(y), t.log[|s.log|..]);
  }

  lemma OtherTickCovered(s: State, tick: Tick, y: Symbol)
    requires Core(s) && ValidTick(tick) && Covered(s, y) && tick.symbol != y
    ensures Covered(TickStep(s, tick), y) && NeverShort(s, TickStep(s, tick), y)
  {
    var t := TickStep(s, tick);
    OtherTick(s, tick, y);
    TickStock(s, tick, y);
    OtherTickLogs(s, tick);
    ClosableKept(s, t, y);
  }

  lemma OtherTickLogs(s: State, tick: Tick)
    requires Core(s) && ValidTick(tick)
    ensures LogsOnly(s.log, TickStep(s, tick).log, tick.symbol)
  {
    hide ProcessOrder, Marked;
    MarkingFacts(s, tick);
    var a := Marking(s, tick);
    if tick.symbol in a.queues {
      SweepLogs(a, a.queues[tick.symbol], tick, tick.symbol);
    }
  }

  lemma CommitCovered(s: State, q: Request, y: Symbol)
    requires Core(s) && ValidRequest(q) && Covered(s, y) && LeavesAlone(Commit(q), y)
    ensures Covered(CommitStep(s, q), y) && NeverShort(s, CommitStep(s, q), y)
  {
    hide SpecialStep, Sum, Stock, QueueOk, Running;
    var t, o := CommitStep(s, q), NewOrder(s, q);
    CommitShape(s, q);
    CommitOrderShape(Issued(s, q.symbol), o);
    CommitStock(s, q, y);
    ClosableKept(s, t, y);
  }

  lemma SettleCovered(s: State, klines: seq<Kline>, y: Symbol)
    requires Core(s) && Covered(s, y)
    ensures Covered(Step(s, Settle(klines)), y) && NeverShort(s, Step(s, Settle(klines)), y)
  {
    SettleCore(s, klines);
    if exists k <- klines :: k.symbol == y {
      SettleFrees(s, klines, y);
      PositionSound(s, y);
    } else {
      SettleOthers(s, klines, y);
    }
  }

  lemma StepCovered(s: State, e: Event, y: Symbol)
    requires Core(s) && ValidEvent(e) && Covered(s, y) && LeavesAlone(e, y)
    ensures Covered(Step(s, e), y) && NeverShort(s, Step(s, e), y)
  {
    match e
    case Commit(q) => CommitCovered(s, q, y);
    case OnTick(tick) =>
      hide TickStep;
      if tick.symbol == y {
        TickCovered(s, tick);
      } else {
        OtherTickCovered(s, tick, y);
      }
    case Settle(klines) => SettleCovered(s, klines, y);
  }

  lemma {:induction false} RunCovered(s: State, events: seq<Event>, y: Symbol)
    requires Core(s) && ValidEvents(events) && Covered(s, y)
    requires forall e <- events :: LeavesAlone(e, y)
    ensures Covered(Run(s, events), y) && NeverShort(s, Run(s, events), y)
    decreases |events|
  {
    hide Step, Core, Covered, LeavesAlone;
    if events != [] {
      var n := |events| - 1;
      assert events[n] in events && forall e <- events[..n] :: e in events;
      RunCovered(s, events[..n], y);
      RunCore(s, events[..n]);
      StepCovered(Run(s, events[..n]), events[n], y);
      StepLogGrows(Run(s, events[..n]), events[n]);
    }
  }

  lemma StepLogGrows(s: State, e: Event)
    requires Core(s) && ValidEvent(e)
    ensures |s.log| <= |Step(s, e).log| && Step(s, e).log[..|s.log|] == s.log
  {
    match e
    case Commit(q) =>
      hide SpecialStep;
      CommitShape(s, q);
    case OnTick(tick) =>
      hide TickStep;
      OtherTickLogs(s, tick);
    case Settle(klines) => SettleCore(s, klines);
  }

  /** A lone sell order whose whole quantity is closable once is never rejected for lack of
      closable shares later, however it is split and whatever happens to other symbols. */
  lemma LoneSellNeverShort(s: State, o: Order, events: seq<Event>)
    requires Reachable(s) && ValidEvents(events)
    requires QueueOf(s, o.symbol) == [o] && o.action.Sell? && o.quantity <= PositionOf(s, o.symbol).closable
    requires forall e <- events :: LeavesAlone(e, o.symbol)
    ensures var t := Run(s, events);
            forall i :: |s.log| <= i < |t.log| && t.log[i].symbol == o.symbol ==> t.log[i].reason != InsufficientClosable
  {
    hide Run, LeavesAlone;
    ReachableCore(s);
    RunCovered(s, events, o.symbol);
  }
}
