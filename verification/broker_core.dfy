/** The invariant that every reachable broker state keeps: positions are sound, queued orders are
    untouched pending orders in order of age, and no exception was ever thrown. */
module BrokerCore {
  import opened Arithmetic
  import opened Approx
  import opened CerebroStruct
  import opened PositionTracker
  import opened BrokerSpec

  /** An order waiting in the queue of symbol `y`. */
  ghost predicate Pending(o: Order, y: Symbol, nextId: int)
  {
    && o.symbol == y && o.status.PendingNew? && o.reason.NoReason? && !o.Special()
    && o.filledPrice == 0.0 && o.filledQuantity == 0.0 && o.unfilledQuantity == 0.0
    && OnGrid(o.quantity) && o.quantity > 0.0 && o.price >= 0.0 && o.transactionCost >= 0.0
    && o.root <= o.id < nextId
    && (o.parent.None? <==> o.root == o.id)
    && (o.parent.None? ==> o.transactionCost == 0.0)
  }

  /** Oldest order first; ids are handed out in increasing order. */
  predicate ByAge(q: seq<Order>)
  {
    forall i, j :: 0 <= i < j < |q| ==> q[i].id < q[j].id
  }

  ghost predicate QueueOk(q: seq<Order>, y: Symbol, nextId: int)
  {
    && (forall o <- q :: Pending(o, y, nextId))
    && ByAge(q)
  }

  ghost predicate Running(s: State)
  {
    && !s.halted && s.rate >= 0.0 && s.slippage >= 0
    && (forall y <- s.positions :: Sound(s.positions[y]))
  }

  ghost predicate Core(s: State)
  {
    && Running(s)
    && (forall y <- s.queues :: QueueOk(s.queues[y], y, s.nextId))
  }

  lemma PositionSound(s: State, y: Symbol)
    requires Running(s)
    ensures Sound(PositionOf(s, y))
  {
    ZeroOnGrid();
  }

  /** What an execution may rely on: a positive volume and price, and for a sell the shares. */
  lemma ExecuteFacts(s: State, o: Order, tick: Tick)
    requires Running(s) && Pending(o, o.symbol, s.nextId) && ValidTick(tick)
    requires Judge(s, o, tick).Execute?
    ensures o.action.Buy? || o.action.Sell?
    ensures var v := Judge(s, o, tick);
            && v.price >= 0.0 && OnGrid(v.volume) && v.volume > 0.0
            && OnGrid(Min(v.volume, o.quantity)) && 0.0 < Min(v.volume, o.quantity) <= o.quantity
    ensures o.action.Sell? ==> o.quantity <= PositionOf(s, o.symbol).closable
  {
    var v := Judge(s, o, tick);
    PositionSound(s, o.symbol);
    GridIsExact(o.quantity, PositionOf(s, o.symbol).closable);
    GridIsExact(v.volume, o.quantity);
  }

  lemma PartOfWhole(x: real, whole: real)
    requires 0.0 <= x <= whole && whole > 0.0
    ensures 0.0 <= Ratio(x, whole) <= 1.0
    ensures x > 0.0 ==> Ratio(x, whole) > 0.0
    ensures x == whole ==> Ratio(x, whole) == 1.0
    ensures 1.0 - Ratio(x, whole) == Ratio(whole - x, whole)
  {
    var part := x / whole;
    QuotientTimes(x, whole);
    Distribute(whole, part);
    QuotientIs(1.0 - part, whole, whole - x);
    QuotientIs(1.0, whole, whole);
    if part < 0.0 {
      Scaling(-part, whole);
      assert false;
    }
    if part > 1.0 {
      Scaling(part - 1.0, whole);
      assert false;
    }
  }

  /** Splitting a fee in the proportion of the filled quantity, and getting it back. */
  lemma SplitFee(fee: real, fq: real, q: real)
    requires fee >= 0.0 && 0.0 < fq <= q
    ensures var part := Ratio(fq, q);
            && 0.0 <= fee * part <= fee
            && (fq == q ==> fee * part == fee)
            && Ratio(fee * part, part) * (1.0 - part) == fee - fee * part == fee * Ratio(q - fq, q)
  {
    var part := Ratio(fq, q);
    PartOfWhole(fq, q);
    PartOfWhole(q - fq, q);
    Scaling(fee, part);
    Scaling(fee, 1.0 - part);
    Distribute(fee, part);
    TimesOver(fee, part);
  }

  lemma BaseFeeSign(o: Order, rate: real, price: real, volume: real)
    requires o.transactionCost >= 0.0 && o.quantity > 0.0 && rate >= 0.0 && price >= 0.0 && volume > 0.0
    ensures BaseFee(o, rate, price, volume) >= 0.0
  {
    Scaling(price, Min(volume, o.quantity));
    Scaling(price * Min(volume, o.quantity), rate);
  }

  /** What a fill does not change. */
  predicate SameIdentity(o: Order, f: Order)
  {
    && f.id == o.id && f.symbol == o.symbol && f.action == o.action && f.kind == o.kind
    && f.price == o.price && f.quantity == o.quantity && f.parent == o.parent && f.root == o.root
  }

  /** A fill, in full or in part; `f` is the order afterwards. */
  lemma FilledFacts(o: Order, rate: real, price: real, volume: real, avg: Double)
    requires Pending(o, o.symbol, o.id + 1) && rate >= 0.0 && price >= 0.0
    requires OnGrid(volume) && volume > 0.0
    ensures var f := FilledOrder(o, rate, price, volume, avg);
            var fee := BaseFee(o, rate, price, volume);
            && SameIdentity(o, f)
            && f.status.Filled? && f.filledPrice == price
            && f.filledQuantity == Min(volume, o.quantity)
            && f.unfilledQuantity == o.quantity - f.filledQuantity
            && f.transactionCost == fee * Ratio(f.filledQuantity, o.quantity) >= 0.0
  {
    hide BaseFee, Ratio;
    var fq := Min(volume, o.quantity);
    GridIsExact(volume, o.quantity);
    GridIsExact(o.quantity, fq);
    BaseFeeSign(o, rate, price, volume);
    SplitFee(BaseFee(o, rate, price, volume), fq, o.quantity);
  }

  /** The child of a partial fill carries the rest of the quantity and the rest of the fee. */
  lemma ChildFacts(o: Order, f: Order, fee: real, id: int)
    requires Pending(o, o.symbol, id) && SameIdentity(o, f) && fee >= 0.0
    requires 0.0 < f.filledQuantity < o.quantity && f.unfilledQuantity == o.quantity - f.filledQuantity
    requires OnGrid(f.unfilledQuantity)
    requires f.transactionCost == fee * Ratio(f.filledQuantity, o.quantity)
    ensures var c := ChildOf(f, id);
            && Pending(c, o.symbol, id + 1) && c.id == id
            && c.quantity == o.quantity - f.filledQuantity
            && c.transactionCost == fee - f.transactionCost
            && c.transactionCost == fee * Ratio(c.quantity, o.quantity)
            && c.action == o.action && c.kind == o.kind && c.root == o.root && c.parent == Some(o.id)
  {
    hide Ratio;
    SplitFee(fee, f.filledQuantity, o.quantity);
    PartOfWhole(f.unfilledQuantity, o.quantity);
    Scaling(fee, Ratio(f.unfilledQuantity, o.quantity));
  }

  /** The position and account effects of a fill never throw. */
  lemma DeliverFacts(s: State, f: Order)
    requires Running(s) && f.status.Filled? && (f.action.Buy? || f.action.Sell?)
    requires OnGrid(f.filledQuantity) && f.filledQuantity > 0.0
    requires f.action.Sell? ==> f.filledQuantity <= PositionOf(s, f.symbol).closable
    ensures var d := Deliver(s, f);
            && Running(d)
            && d.account == s.account && d.queues == s.queues && d.log == s.log && d.nextId == s.nextId
            && d.slippage == s.slippage && d.rate == s.rate
            && (forall y :: y != f.symbol ==> PositionOf(d, y) == PositionOf(s, y))
            && (PositionOf(d, f.symbol) ==
                if f.action.Buy? then
                  Bought(PositionOf(s, f.symbol), 1, f.filledQuantity, f.filledPrice, f.transactionCost)
                else
                  Sold(PositionOf(s, f.symbol), f.filledQuantity, f.filledPrice, f.transactionCost).value)
  {
    var p := PositionOf(s, f.symbol);
    PositionSound(s, f.symbol);
    if f.action.Buy? {
      BoughtBasis(p, f.filledQuantity, f.filledPrice, f.transactionCost);
    } else {
      SoldBasis(p, f.filledQuantity, f.filledPrice, f.transactionCost);
    }
  }

  /** The filled order and the state it leaves, when the matcher executes `o`. */
  function FillOf(s: State, o: Order, tick: Tick): (f: Order)
    requires Judge(s, o, tick).Execute?
  {
    var v := Judge(s, o, tick);
    FilledOrder(o, s.rate, v.price, v.volume, PositionOf(s, o.symbol).avgPrice)
  }

  function BeforeDelivery(s: State, o: Order, tick: Tick): (r: State)
    requires Judge(s, o, tick).Execute?
  {
    var v := Judge(s, o, tick);
    var t := Looked(s, o, v);
    Paid(t.(history := FeeHistory(t.history, o, s.rate, v.price, v.volume)), FillOf(s, o, tick))
  }

  /** What an execution produces: the order filled in part or in full, and the rest. */
  ghost predicate ExecutedOrder(s: State, o: Order, price: real, volume: real, f: Order)
  {
    && f.status.Filled? && OnGrid(f.filledQuantity) && 0.0 < f.filledQuantity <= o.quantity
    && SameIdentity(o, f)
    && (f.action.Buy? || f.action.Sell?)
    && (f.action.Sell? ==> o.quantity <= PositionOf(s, o.symbol).closable)
    && f.filledQuantity == Min(volume, o.quantity)
    && f.unfilledQuantity == o.quantity - f.filledQuantity && OnGrid(f.unfilledQuantity)
    && 0.0 <= f.transactionCost
    && f.filledPrice == price >= 0.0
  }

  /** The children of an execution: none when it filled the order, else one with the rest of
      the quantity and the rest of the fee. */
  ghost predicate ExecutedChildren(o: Order, fee: real, f: Order, children: seq<Order>, id: int)
  {
    if f.unfilledQuantity == 0.0 then children == [] && f.transactionCost == fee
    else
      && children == [ChildOf(f, id)]
      && var c := children[0];
      && Pending(c, o.symbol, id + 1) && c.id == id
      && c.quantity == o.quantity - f.filledQuantity
      && c.transactionCost == fee - f.transactionCost
      && c.transactionCost == fee * Ratio(c.quantity, o.quantity)
      && c.action == o.action && c.root == o.root && c.kind == o.kind
  }

  lemma ExecutedFill(s: State, o: Order, tick: Tick)
    requires Running(s) && Pending(o, o.symbol, s.nextId) && ValidTick(tick)
    requires Judge(s, o, tick).Execute?
    ensures var v := Judge(s, o, tick);
            var f := FillOf(s, o, tick);
            && ExecutedOrder(s, o, v.price, v.volume, f)
            && ExecutedChildren(o, BaseFee(o, s.rate, v.price, v.volume), f,
                                if f.unfilledQuantity == 0.0 then [] else [ChildOf(f, s.nextId)], s.nextId)
  {
    hide FilledOrder, BaseFee, Ratio, ChildOf, Judge, Min, OnGrid;
    var v := Judge(s, o, tick);
    var f := FillOf(s, o, tick);
    var fee := BaseFee(o, s.rate, v.price, v.volume);
    ExecuteFacts(s, o, tick);
    FilledFacts(o, s.rate, v.price, v.volume, PositionOf(s, o.symbol).avgPrice);
    BaseFeeSign(o, s.rate, v.price, v.volume);
    GridIsExact(o.quantity, f.filledQuantity);
    PartOfWhole(f.filledQuantity, o.quantity);
    if f.unfilledQuantity != 0.0 {
      ChildFacts(o, f, fee, s.nextId);
    }
  }

  lemma BeforeDeliveryFacts(s: State, o: Order, tick: Tick)
    requires Running(s) && Judge(s, o, tick).Execute?
    ensures var u := BeforeDelivery(s, o, tick);
            && Running(u) && u.queues == s.queues && u.log == s.log && u.nextId == s.nextId
            && u.slippage == s.slippage && u.rate == s.rate
            && (forall y :: PositionOf(u, y) == PositionOf(s, y))
            && u.account == Paid(s, FillOf(s, o, tick)).account
  {
    ZeroOnGrid();
  }

  /** The state after an execution, before the child is made. */
  function AfterDelivery(s: State, o: Order, tick: Tick): (r: State)
    requires Judge(s, o, tick).Execute?
  {
    Deliver(BeforeDelivery(s, o, tick), FillOf(s, o, tick))
  }

  /** An execution: pay, deliver without an exception, log, and spawn the rest. */
  lemma Executed(s: State, o: Order, tick: Tick)
    requires Running(s) && Pending(o, o.symbol, s.nextId) && ValidTick(tick)
    requires Judge(s, o, tick).Execute?
    ensures var v := Judge(s, o, tick);
            var f := FillOf(s, o, tick);
            var d := AfterDelivery(s, o, tick);
            && ExecutedOrder(s, o, v.price, v.volume, f)
            && ExecutedChildren(o, BaseFee(o, s.rate, v.price, v.volume), f,
                                ProcessOrder(s, o, tick).children, s.nextId)
            && Running(d) && d.queues == s.queues && d.log == s.log && d.nextId == s.nextId
            && d.slippage == s.slippage && d.rate == s.rate
            && d.account == Paid(s, f).account
            && ProcessOrder(s, o, tick) == Spawned(d.(log := s.log + [f]), f)
  {
    hide FilledOrder, JudgeLimit, JudgeMarket;
    var f := FillOf(s, o, tick);
    ExecutedFill(s, o, tick);
    BeforeDeliveryFacts(s, o, tick);
    DeliverFacts(BeforeDelivery(s, o, tick), f);
    GridIsExact(f.unfilledQuantity, f.unfilledQuantity);
  }

  /** An order changes positions by its delivery alone. */
  lemma PositionsAfterOrder(s: State, o: Order, tick: Tick, y: Symbol)
    requires Running(s) && Pending(o, o.symbol, s.nextId) && ValidTick(tick)
    ensures PositionOf(ProcessOrder(s, o, tick).state, y)
         == if Judge(s, o, tick).Execute? then PositionOf(AfterDelivery(s, o, tick), y) else PositionOf(s, y)
  {
    if Judge(s, o, tick).Execute? {
      hide ProcessOrder, AfterDelivery, FillOf, Judge, Running, Pending, ValidTick;
      Executed(s, o, tick);
    } else {
      hide Judge, FilledOrder, ChildOf;
    }
  }

  /** What one order may become on one tick: it stays as it was, or it is finished and logged,
      and at most one child with a fresh id is born. */
  ghost predicate OrderOutcome(s: State, o: Order, p: Processed)
  {
    && Running(p.state) && p.state.queues == s.queues && p.order.id == o.id
    && p.state.slippage == s.slippage && p.state.rate == s.rate
    && p.state.nextId == s.nextId + |p.children| && |p.children| <= 1
    && (forall c <- p.children :: c.id == s.nextId && Pending(c, o.symbol, s.nextId + 1))
    && (if p.order.Finished() then p.state.log == s.log + [p.order]
        else p.order == o && p.state.log == s.log && p.children == [])
  }

  lemma UnexecutedCore(s: State, o: Order, tick: Tick)
    requires Running(s) && Pending(o, o.symbol, s.nextId)
    requires !Judge(s, o, tick).Execute?
    ensures OrderOutcome(s, o, ProcessOrder(s, o, tick))
  {
    hide FilledOrder, Deliver, JudgeLimit, JudgeMarket;
    ZeroOnGrid();
  }

  lemma ProcessOrderCore(s: State, o: Order, tick: Tick)
    requires Running(s) && Pending(o, o.symbol, s.nextId) && ValidTick(tick)
    ensures OrderOutcome(s, o, ProcessOrder(s, o, tick))
  {
    hide ProcessOrder, FilledOrder, ChildOf, Deliver, Judge;
    if Judge(s, o, tick).Execute? {
      Executed(s, o, tick);
      var f := FillOf(s, o, tick);
      GridIsExact(f.unfilledQuantity, f.unfilledQuantity);
    } else {
      UnexecutedCore(s, o, tick);
    }
  }

  lemma UnfinishedMember(orders: seq<Order>, o: Order)
    requires o in Unfinished(orders)
    ensures o in orders && !o.Finished()
    decreases |orders|
  {
    var n := |orders| - 1;
    if o in Unfinished(orders[..n]) {
      UnfinishedMember(orders[..n], o);
    }
  }

  /** Survivors keep their relative order. */
  lemma UnfinishedByAge(orders: seq<Order>)
    requires ByAge(orders)
    ensures ByAge(Unfinished(orders))
    decreases |orders|
  {
    if orders != [] {
      var n := |orders| - 1;
      UnfinishedByAge(orders[..n]);
      forall o | o in Unfinished(orders[..n]) ensures o.id < orders[n].id {
        UnfinishedMember(orders[..n], o);
      }
    }
  }

  /** What a queue pass may do: every order is visited once and left either untouched or
      finished; the children get the next ids, and none of them is visited. */
  ghost predicate SweepOutcome(s: State, orders: seq<Order>, y: Symbol, w: Swept)
  {
    && Running(w.state) && w.state.queues == s.queues
    && w.state.slippage == s.slippage && w.state.rate == s.rate
    && w.state.nextId == s.nextId + |w.children|
    && |w.visited| == |orders|
    && (forall i :: 0 <= i < |orders| ==>
          w.visited[i].id == orders[i].id && (w.visited[i].Finished() || w.visited[i] == orders[i]))
    && (forall i :: 0 <= i < |w.children| ==>
          w.children[i].id == s.nextId + i && Pending(w.children[i], y, w.state.nextId))
  }

  lemma SweepExtend(s: State, orders: seq<Order>, y: Symbol, w: Swept, p: Processed)
    requires orders != [] && Pending(orders[|orders| - 1], y, s.nextId)
    requires SweepOutcome(s, orders[..|orders| - 1], y, w)
    requires OrderOutcome(w.state, orders[|orders| - 1], p)
    ensures SweepOutcome(s, orders, y, Swept(p.state, w.visited + [p.order], w.children + p.children))
  {
  }

  lemma QueuePrefix(orders: seq<Order>, y: Symbol, nextId: int)
    requires QueueOk(orders, y, nextId) && orders != []
    ensures QueueOk(orders[..|orders| - 1], y, nextId)
    ensures Pending(orders[|orders| - 1], y, nextId)
  {
    assert forall o <- orders[..|orders| - 1] :: o in orders;
    assert orders[|orders| - 1] in orders;
  }

  lemma {:induction false} SweepCore(s: State, orders: seq<Order>, tick: Tick, y: Symbol)
    requires Running(s) && QueueOk(orders, y, s.nextId) && ValidTick(tick)
    ensures SweepOutcome(s, orders, y, Sweep(s, orders, tick))
    decreases |orders|
  {
    hide ProcessOrder;
    if orders != [] {
      var n := |orders| - 1;
      QueuePrefix(orders, y, s.nextId);
      SweepCore(s, orders[..n], tick, y);
      var w := Sweep(s, orders[..n], tick);
      ProcessOrderCore(w.state, orders[n], tick);
      SweepExtend(s, orders, y, w, ProcessOrder(w.state, orders[n], tick));
    }
  }

  /** One tick leaves a well-formed queue: the survivors in their old order, then the children. */
  lemma QueueAfterTick(s: State, orders: seq<Order>, tick: Tick, y: Symbol)
    requires Running(s) && QueueOk(orders, y, s.nextId) && ValidTick(tick)
    ensures var w := Sweep(s, orders, tick);
            QueueOk(Unfinished(w.visited) + w.children, y, w.state.nextId)
  {
    hide ProcessOrder, Sweep;
    SweepCore(s, orders, tick, y);
    var w := Sweep(s, orders, tick);
    UnfinishedByAge(w.visited);
    var q := Unfinished(w.visited) + w.children;
    forall o | o in Unfinished(w.visited) ensures o in orders && o.id < s.nextId {
      UnfinishedMember(w.visited, o);
      var i :| 0 <= i < |orders| && w.visited[i] == o;
    }
  }

  lemma MarkCore(s: State, y: Symbol, last: real)
    requires Core(s)
    ensures Core(MarkPosition(s, y, last))
  {
    if y in s.positions {
      MarkedKeeps(s.positions[y], last);
    }
  }

  lemma NormalCore(s: State, tick: Tick)
    requires Core(s) && ValidTick(tick)
    ensures Core(ProcessNormalOrder(s, tick))
    ensures s.nextId <= ProcessNormalOrder(s, tick).nextId
  {
    hide ProcessOrder;
    if tick.symbol in s.queues {
      SweepCore(s, s.queues[tick.symbol], tick, tick.symbol);
      QueueAfterTick(s, s.queues[tick.symbol], tick, tick.symbol);
    }
  }

  lemma AfterOrdersCore(s: State, tick: Tick)
    requires Core(s) && ValidTick(tick)
    ensures Core(AfterOrders(s, tick))
  {
    hide ProcessNormalOrder, Marked;
    MarkCore(s, tick.symbol, tick.last);
    NormalCore(if Empty(PositionOf(s, tick.symbol)) then s else MarkPosition(s, tick.symbol, tick.last), tick);
  }

  lemma TickCore(s: State, tick: Tick)
    requires Core(s) && ValidTick(tick)
    ensures Core(TickStep(s, tick))
  {
    hide AfterOrders, Marked;
    AfterOrdersCore(s, tick);
    MarkCore(AfterOrders(s, tick), tick.symbol, tick.last);
  }

  lemma CommitCore(s: State, q: Request)
    requires Core(s) && ValidRequest(q)
    ensures Core(CommitStep(s, q))
  {
    PositionSound(s, q.symbol);
    BoughtBasis(PositionOf(s, q.symbol), q.quantity, 0.0, 0.0);
    ZeroOnGrid();
    var o, t := NewOrder(s, q), CommitStep(s, q);
    forall y | y in t.queues ensures QueueOk(t.queues[y], y, t.nextId) {
      if t.queues != s.queues && y == q.symbol {
        Enqueued(QueueOf(s, y), y, s.nextId, o);
      } else {
        Enqueued(s.queues[y], y, s.nextId, o);
      }
    }
  }

  lemma Enqueued(q: seq<Order>, y: Symbol, nextId: int, o: Order)
    requires QueueOk(q, y, nextId)
    ensures QueueOk(q, y, nextId + 1)
    ensures Pending(o, y, nextId + 1) && o.id == nextId ==> QueueOk(q + [o], y, nextId + 1)
  {
    assert forall i :: 0 <= i < |q| ==> q[i] in q;
  }

  lemma {:induction false} SettleCore(s: State, klines: seq<Kline>)
    requires Core(s)
    ensures Core(SettlePositions(s, klines))
    ensures SettlePositions(s, klines) == s.(positions := SettlePositions(s, klines).positions)
    ensures SettlePositions(s, klines).positions.Keys == s.positions.Keys
    decreases |klines|
  {
    if klines != [] {
      var n := |klines| - 1;
      SettleCore(s, klines[..n]);
      var t := SettlePositions(s, klines[..n]);
      var y := klines[n].symbol;
      if y in t.positions {
        MarkedKeeps(t.positions[y], klines[n].close);
      }
    }
  }

  lemma StepCore(s: State, e: Event)
    requires Core(s) && ValidEvent(e)
    ensures Core(Step(s, e))
  {
    match e
    case Commit(q) => CommitCore(s, q);
    case OnTick(tick) => TickCore(s, tick);
    case Settle(klines) => SettleCore(s, klines);
  }

  /** The "There is no position" exception is never thrown and no tracker ever offers more
      shares than it holds, whatever is submitted, ticked and settled. */
  lemma {:induction false} RunCore(s: State, events: seq<Event>)
    requires Core(s) && ValidEvents(events)
    ensures Core(Run(s, events))
    decreases |events|
  {
    hide Step;
    if events != [] {
      var n := |events| - 1;
      RunCore(s, events[..n]);
      StepCore(Run(s, events[..n]), events[n]);
    }
  }

  lemma InitialCore(slippage: int, rate: real)
    requires slippage >= 0 && rate >= 0.0
    ensures Core(Initial(slippage, rate))
  {
  }

  /** No tracker of a reachable state throws "There is no position" or offers more shares than it
      holds, and every queued order is an untouched pending order, oldest first. */
  lemma ReachableCore(s: State)
    requires Reachable(s)
    ensures Core(s)
  {
    var slippage: int, rate: real, events: seq<Event> :|
      slippage >= 0 && rate >= 0.0 && ValidEvents(events) && s == Run(Initial(slippage, rate), events);
    InitialCore(slippage, rate);
    RunCore(Initial(slippage, rate), events);
  }
}
