/** T+1: shares bought today cannot be sold before the next settlement. */
module TPlusOne {
  import opened Approx
  import opened CerebroStruct
  import opened PositionTracker
  import opened BrokerSpec
  import opened BrokerCore
  import opened OrderSums
  import opened OrderBook

  /** The closable shares of a symbol and all it ever sold; nothing but a settlement changes it. */
  function Stock(s: State, y: Symbol): (r: real)
  {
    PositionOf(s, y).closable + Sum(SoldOf(y), s.log)
  }

  lemma DeliverClosable(s: State, f: Order, y: Symbol)
    requires Running(s) && f.status.Filled? && (f.action.Buy? || f.action.Sell?)
    requires OnGrid(f.filledQuantity) && f.filledQuantity > 0.0
    requires f.action.Sell? ==> f.filledQuantity <= PositionOf(s, f.symbol).closable
    ensures PositionOf(Deliver(s, f), y).closable == PositionOf(s, y).closable - Weight(SoldOf(y), f)
  {
    PositionSound(s, f.symbol);
    DeliverFacts(s, f);
    if f.action.Buy? {
      BoughtBasis(PositionOf(s, f.symbol), f.filledQuantity, f.filledPrice, f.transactionCost);
    } else {
      SoldBasis(PositionOf(s, f.symbol), f.filledQuantity, f.filledPrice, f.transactionCost);
    }
  }

  lemma OrderStock(s: State, o: Order, tick: Tick, y: Symbol)
    requires Running(s) && Pending(o, o.symbol, s.nextId) && ValidTick(tick)
    ensures Stock(ProcessOrder(s, o, tick).state, y) == Stock(s, y)
  {
    hide ProcessOrder, Judge, FilledOrder, Sum, Weight, PositionOf, Running, Pending, ValidTick;
    var p := ProcessOrder(s, o, tick);
    PositionsAfterOrder(s, o, tick, y);
    if Judge(s, o, tick).Execute? {
      ExecutedLists(s, o, tick);
      ExecutedClosable(s, o, tick, y);
      SumSnoc(SoldOf(y), s.log, p.order);
    } else {
      UnexecutedLists(s, o, tick);
      if p.order.Finished() {
        SumSnoc(SoldOf(y), s.log, p.order);
        UnfilledNotSold(p.order, y, o, s.nextId);
      }
    }
  }

  lemma UnfilledNotSold(f: Order, y: Symbol, o: Order, nextId: int)
    requires Pending(o, o.symbol, nextId) && (f == o || f == o.(status := Rejected, reason := f.reason))
    ensures Weight(SoldOf(y), f) == 0.0
  {
  }

  lemma ExecutedClosable(s: State, o: Order, tick: Tick, y: Symbol)
    requires Running(s) && Pending(o, o.symbol, s.nextId) && ValidTick(tick) && Judge(s, o, tick).Execute?
    ensures PositionOf(AfterDelivery(s, o, tick), y).closable
         == PositionOf(s, y).closable - Weight(SoldOf(y), FillOf(s, o, tick))
  {
    hide FillOf, BeforeDelivery, Judge, Weight, Deliver, Pending, ValidTick;
    ExecutedFill(s, o, tick);
    BeforeDeliveryFacts(s, o, tick);
    DeliverClosable(BeforeDelivery(s, o, tick), FillOf(s, o, tick), y);
  }

  lemma {:induction false} SweepStock(s: State, orders: seq<Order>, tick: Tick, x: Symbol, y: Symbol)
    requires Running(s) && QueueOk(orders, x, s.nextId) && ValidTick(tick)
    ensures Stock(Sweep(s, orders, tick).state, y) == Stock(s, y)
    decreases |orders|
  {
    hide ProcessOrder;
    if orders != [] {
      var n := |orders| - 1;
      QueuePrefix(orders, x, s.nextId);
      SweepCore(s, orders[..n], tick, x);
      SweepStock(s, orders[..n], tick, x, y);
      OrderStock(Sweep(s, orders[..n], tick).state, orders[n], tick, y);
    }
  }

  lemma MarkStock(s: State, x: Symbol, last: real, y: Symbol)
    requires Running(s)
    ensures Stock(MarkPosition(s, x, last), y) == Stock(s, y)
  {
    if x in s.positions {
      MarkedKeeps(s.positions[x], last);
    }
  }

  lemma TickStock(s: State, tick: Tick, y: Symbol)
    requires Core(s) && ValidTick(tick)
    ensures Stock(TickStep(s, tick), y) == Stock(s, y)
  {
    hide ProcessOrder, Marked;
    var x := tick.symbol;
    MarkStock(s, x, tick.last, y);
    MarkCore(s, x, tick.last);
    var a := if Empty(PositionOf(s, x)) then s else MarkPosition(s, x, tick.last);
    NormalCore(a, tick);
    if x in a.queues {
      SweepStock(a, a.queues[x], tick, x, y);
    }
    MarkStock(ProcessNormalOrder(a, tick), x, tick.last, y);
  }

  /** Dividend shares arrive, but are not closable before the next settlement either. */
  lemma SpecialClosable(s: State, o: Order, y: Symbol)
    requires Running(s) && OnGrid(o.quantity) && o.quantity >= 0.0
    ensures PositionOf(SpecialStep(s, o), y).closable == PositionOf(s, y).closable
  {
    PositionSound(s, o.symbol);
    BoughtBasis(PositionOf(s, o.symbol), o.quantity, 0.0, o.transactionCost);
  }

  lemma CommitOrderStock(s: State, o: Order, y: Symbol)
    requires Running(s) && OnGrid(o.quantity) && o.quantity >= 0.0 && o.filledQuantity == 0.0
    requires o.status.PendingNew? || o.status.Filled?
    ensures Stock(CommitOrder(s, o), y) == Stock(s, y)
  {
    hide SpecialStep;
    var t := CommitOrder(s, o);
    SpecialClosable(s, o, y);
    CommitOrderShape(s, o);
    assert PositionOf(t, y).closable == PositionOf(s, y).closable;
    SumSnoc(SoldOf(y), s.log, o.(status := Filled));
    SumSnoc(SoldOf(y), s.log, o.(status := Rejected));
  }

  lemma CommitStock(s: State, q: Request, y: Symbol)
    requires Core(s) && ValidRequest(q)
    ensures Stock(CommitStep(s, q), y) == Stock(s, y)
  {
    CommitOrderStock(Issued(s, q.symbol), NewOrder(s, q), y);
    assert Stock(Issued(s, q.symbol), y) == Stock(s, y);
  }

  /** Whether a step settles `y`. */
  predicate Settles(e: Event, y: Symbol)
  {
    e.Settle? && exists k <- e.klines :: k.symbol == y
  }

  lemma {:induction false} SettleOthers(s: State, klines: seq<Kline>, y: Symbol)
    requires forall k <- klines :: k.symbol != y
    ensures PositionOf(SettlePositions(s, klines), y) == PositionOf(s, y)
    decreases |klines|
  {
    if klines != [] {
      var n := |klines| - 1;
      assert klines[n] in klines && forall k <- klines[..n] :: k in klines;
      SettleOthers(s, klines[..n], y);
    }
  }

  lemma StepStock(s: State, e: Event, y: Symbol)
    requires Core(s) && ValidEvent(e) && !Settles(e, y)
    ensures Stock(Step(s, e), y) == Stock(s, y)
  {
    hide CommitStep;
    match e
    case Commit(q) => CommitStock(s, q, y);
    case OnTick(tick) => TickStock(s, tick, y);
    case Settle(klines) =>
      SettleCore(s, klines);
      SettleOthers(s, klines, y);
  }

  lemma {:induction false} RunStock(s: State, events: seq<Event>, y: Symbol)
    requires Core(s) && ValidEvents(events)
    requires forall e <- events :: !Settles(e, y)
    ensures Stock(Run(s, events), y) == Stock(s, y)
    decreases |events|
  {
    hide Step;
    if events != [] {
      var n := |events| - 1;
      assert events[n] in events && forall e <- events[..n] :: e in events;
      RunStock(s, events[..n], y);
      RunCore(s, events[..n]);
      StepStock(Run(s, events[..n]), events[n], y);
    }
  }

  /** A settlement makes everything held closable. */
  lemma {:induction false} SettleFrees(s: State, klines: seq<Kline>, y: Symbol)
    requires Core(s) && exists k <- klines :: k.symbol == y
    ensures PositionOf(SettlePositions(s, klines), y).closable == PositionOf(SettlePositions(s, klines), y).quantity
    ensures PositionOf(SettlePositions(s, klines), y).quantity == PositionOf(s, y).quantity
    decreases |klines|
  {
    hide Marked, Sound;
    var n := |klines| - 1;
    SettleCore(s, klines[..n]);
    var t := SettlePositions(s, klines[..n]);
    if exists k <- klines[..n] :: k.symbol == y {
      SettleFrees(s, klines[..n], y);
    } else {
      assert forall k <- klines[..n] :: k.symbol != y;
      SettleOthers(s, klines[..n], y);
      assert klines == klines[..n] + [klines[n]];
    }
    if klines[n].symbol in t.positions {
      assert Sound(t.positions[klines[n].symbol]);
      MarkedKeeps(t.positions[klines[n].symbol], klines[n].close);
    }
  }

  /** Between two settlements of a symbol the shares sold never exceed the shares held at the
      first, whatever is bought, sold and received as dividend in between; what is left of them
      is what may still be sold. */
  lemma SoldWithinHolding(s: State, klines: seq<Kline>, events: seq<Event>, y: Symbol)
    requires Reachable(s) && ValidEvents(events)
    requires Settles(Settle(klines), y) && forall e <- events :: !Settles(e, y)
    ensures var first := Step(s, Settle(klines));
            var now := Run(first, events);
            var sold := Sum(SoldOf(y), now.log) - Sum(SoldOf(y), first.log);
            && sold == PositionOf(first, y).quantity - PositionOf(now, y).closable
            && sold <= PositionOf(first, y).quantity == PositionOf(s, y).quantity
            && 0.0 <= PositionOf(now, y).closable <= PositionOf(now, y).quantity
  {
    ReachableCore(s);
    var first := Step(s, Settle(klines));
    StepCore(s, Settle(klines));
    SettleFrees(s, klines, y);
    assert ValidEvent(Settle(klines));
    RunStock(first, events, y);
    RunCore(first, events);
    PositionSound(Run(first, events), y);
  }
}
