/** The mark-to-market identity: the profit shown for a held symbol is what the shares are worth,
    less the net money put in and the fees paid since the position was opened. */
module PositionPnl {
  import opened Arithmetic
  import opened Approx
  import opened CerebroStruct
  import opened PositionTracker
  import opened BrokerSpec
  import opened BrokerCore

  // ---- A position as the fold of its trades ------------------------------------------------

  /** Shares that came in less shares that went out. */
  function NetShares(trades: seq<Trade>): (q: real)
    decreases |trades|
  {
    if trades == [] then 0.0
    else
      var n := |trades| - 1;
      NetShares(trades[..n]) + match trades[n] case Got(q, _, _) => q case Gave(q, _, _) => -q
  }

  /** What was paid for shares less what was got for shares. */
  function NetNotional(trades: seq<Trade>): (v: real)
    decreases |trades|
  {
    if trades == [] then 0.0
    else
      var n := |trades| - 1;
      NetNotional(trades[..n]) + match trades[n] case Got(q, price, _) => q * price case Gave(q, price, _) => -(q * price)
  }

  function FeesPaid(trades: seq<Trade>): (v: real)
    decreases |trades|
  {
    if trades == [] then 0.0
    else
      var n := |trades| - 1;
      FeesPaid(trades[..n]) + match trades[n] case Got(_, _, fee) => fee case Gave(_, _, fee) => fee
  }

  lemma TradesSnoc(trades: seq<Trade>, t: Trade)
    ensures var more := trades + [t];
            match t
            case Got(q, price, fee) =>
              && NetShares(more) == NetShares(trades) + q
              && NetNotional(more) == NetNotional(trades) + q * price
              && FeesPaid(more) == FeesPaid(trades) + fee
            case Gave(q, price, fee) =>
              && NetShares(more) == NetShares(trades) - q
              && NetNotional(more) == NetNotional(trades) - q * price
              && FeesPaid(more) == FeesPaid(trades) + fee
  {
    assert (trades + [t])[..|trades|] == trades;
  }

  /** A held position carries exactly the totals of its trades. */
  predicate Traced(p: Position, trades: seq<Trade>)
  {
    if Empty(p) then true
    else
      && p.quantity == NetShares(trades)
      && Basis(p) == NetNotional(trades)
      && p.commissions == FeesPaid(trades)
  }

  predicate AllTraced(s: State)
  {
    forall y <- s.positions :: Traced(s.positions[y], TradesOf(s.history, y))
  }

  lemma BoughtTraced(p: Position, trades: seq<Trade>, q: real, price: real, fee: real)
    requires Sound(p) && Traced(p, trades) && OnGrid(q) && q > 0.0
    ensures Traced(Bought(p, 1, q, price, fee), (if Empty(p) then [] else trades) + [Got(q, price, fee)])
  {
    hide Bought, Basis;
    EmptyMeans(p);
    BoughtBasis(p, q, price, fee);
    TradesSnoc(if Empty(p) then [] else trades, Got(q, price, fee));
  }

  lemma EmptyMeans(p: Position)
    requires Sound(p)
    ensures Empty(p) <==> p.quantity == 0.0
    ensures Empty(p) ==> Basis(p) == 0.0
  {
    GridIsExact(p.quantity, p.quantity);
  }

  lemma SoldTraced(p: Position, trades: seq<Trade>, q: real, price: real, fee: real)
    requires Sound(p) && Traced(p, trades) && OnGrid(q) && 0.0 < q <= p.closable
    ensures Sold(p, q, price, fee).Ok?
    ensures !Empty(Sold(p, q, price, fee).value) ==>
              Traced(Sold(p, q, price, fee).value, trades + [Gave(q, price, fee)])
  {
    hide Sold, Basis;
    EmptyMeans(p);
    SoldBasis(p, q, price, fee);
    EmptyMeans(Sold(p, q, price, fee).value);
    TradesSnoc(trades, Gave(q, price, fee));
  }

  lemma ReceiveTraced(s: State, y: Symbol, q: real, price: real, fee: real)
    requires Running(s) && AllTraced(s) && OnGrid(q) && q > 0.0
    ensures AllTraced(Receive(s, y, q, price, fee))
  {
    PositionSound(s, y);
    ZeroOnGrid();
    GridIsExact(q, 0.0);
    BoughtTraced(PositionOf(s, y), TradesOf(s.history, y), q, price, fee);
  }

  lemma ReleaseTraced(s: State, y: Symbol, q: real, price: real, fee: real)
    requires Running(s) && AllTraced(s) && OnGrid(q) && 0.0 < q <= PositionOf(s, y).closable
    ensures AllTraced(Release(s, y, q, price, fee))
  {
    PositionSound(s, y);
    GridIsExact(q, q);
    SoldTraced(PositionOf(s, y), TradesOf(s.history, y), q, price, fee);
  }

  lemma DeliverTraced(s: State, f: Order)
    requires Running(s) && AllTraced(s) && f.status.Filled? && (f.action.Buy? || f.action.Sell?)
    requires OnGrid(f.filledQuantity) && f.filledQuantity > 0.0
    requires f.action.Sell? ==> f.filledQuantity <= PositionOf(s, f.symbol).closable
    ensures AllTraced(Deliver(s, f))
  {
    if f.action.Buy? {
      ReceiveTraced(s, f.symbol, f.filledQuantity, f.filledPrice, f.transactionCost);
    } else {
      ReleaseTraced(s, f.symbol, f.filledQuantity, f.filledPrice, f.transactionCost);
    }
  }

  /** States with the same positions and trades. */
  lemma TracedElsewhere(s: State, t: State)
    requires AllTraced(s) && t.history.trades == s.history.trades
    requires forall y <- t.positions :: t.positions[y] == PositionOf(s, y)
    ensures AllTraced(t)
  {
    ZeroOnGrid();
  }

  lemma OrderTraced(s: State, o: Order, tick: Tick)
    requires Running(s) && AllTraced(s) && Pending(o, o.symbol, s.nextId) && ValidTick(tick)
    ensures AllTraced(ProcessOrder(s, o, tick).state)
  {
    hide FilledOrder, Deliver, JudgeLimit, JudgeMarket;
    if Judge(s, o, tick).Execute? {
      var u := BeforeDelivery(s, o, tick);
      Executed(s, o, tick);
      BeforeDeliveryFacts(s, o, tick);
      TracedElsewhere(s, u);
      DeliverTraced(u, FillOf(s, o, tick));
      TracedElsewhere(AfterDelivery(s, o, tick), ProcessOrder(s, o, tick).state);
    } else {
      ZeroOnGrid();
      TracedElsewhere(s, ProcessOrder(s, o, tick).state);
    }
  }

  lemma {:induction false} SweepTraced(s: State, orders: seq<Order>, tick: Tick, y: Symbol)
    requires Running(s) && AllTraced(s) && QueueOk(orders, y, s.nextId) && ValidTick(tick)
    ensures AllTraced(Sweep(s, orders, tick).state)
    decreases |orders|
  {
    hide ProcessOrder;
    if orders != [] {
      var n := |orders| - 1;
      QueuePrefix(orders, y, s.nextId);
      SweepCore(s, orders[..n], tick, y);
      SweepTraced(s, orders[..n], tick, y);
      OrderTraced(Sweep(s, orders[..n], tick).state, orders[n], tick);
    }
  }

  lemma MarkTraced(s: State, y: Symbol, last: real)
    requires Running(s) && AllTraced(s)
    ensures AllTraced(MarkPosition(s, y, last))
  {
    if y in s.positions {
      MarkedKeeps(s.positions[y], last);
    }
  }

  lemma NormalTraced(s: State, tick: Tick)
    requires Core(s) && AllTraced(s) && ValidTick(tick)
    ensures AllTraced(ProcessNormalOrder(s, tick))
  {
    hide ProcessOrder;
    if tick.symbol in s.queues {
      SweepTraced(s, s.queues[tick.symbol], tick, tick.symbol);
    }
  }

  lemma TickTraced(s: State, tick: Tick)
    requires Core(s) && AllTraced(s) && ValidTick(tick)
    ensures AllTraced(TickStep(s, tick))
  {
    hide ProcessOrder, Marked;
    var y := tick.symbol;
    MarkTraced(s, y, tick.last);
    MarkCore(s, y, tick.last);
    var a := if Empty(PositionOf(s, y)) then s else MarkPosition(s, y, tick.last);
    NormalCore(a, tick);
    NormalTraced(a, tick);
    MarkTraced(ProcessNormalOrder(a, tick), y, tick.last);
  }

  lemma DividendTraced(s: State, o: Order)
    requires Running(s) && AllTraced(s) && OnGrid(o.quantity) && o.quantity >= 0.0 && o.action.Dividend?
    ensures AllTraced(SpecialStep(s, o))
  {
    ZeroOnGrid();
    GridIsExact(o.quantity, 0.0);
    if o.quantity > 0.0 {
      ReceiveTraced(s, o.symbol, o.quantity, 0.0, o.transactionCost);
    } else {
      TracedElsewhere(s, WithTracker(s, o.symbol));
    }
  }

  lemma SpecialTraced(s: State, o: Order)
    requires Running(s) && AllTraced(s) && OnGrid(o.quantity) && o.quantity >= 0.0
    ensures AllTraced(SpecialStep(s, o))
  {
    if o.action.Dividend? {
      DividendTraced(s, o);
    } else {
      assert SpecialStep(s, o).positions == s.positions;
      assert SpecialStep(s, o).history.trades == s.history.trades;
    }
  }

  lemma CommitOrderTraced(s: State, o: Order)
    requires Running(s) && AllTraced(s) && OnGrid(o.quantity) && o.quantity >= 0.0
    ensures AllTraced(CommitOrder(s, o))
  {
    hide SpecialStep;
    SpecialTraced(s, o);
  }

  lemma CommitTraced(s: State, q: Request)
    requires Core(s) && AllTraced(s) && ValidRequest(q)
    ensures AllTraced(CommitStep(s, q))
  {
    CommitOrderTraced(Issued(s, q.symbol), NewOrder(s, q));
  }

  lemma SettleOneTraced(t: State, y: Symbol, close: real)
    requires Running(t) && AllTraced(t) && y in t.positions
    ensures AllTraced(t.(positions := t.positions[y := Settled(t.positions[y], close)]))
  {
    hide Marked;
    MarkedKeeps(t.positions[y], close);
  }

  lemma {:induction false} SettleTraced(s: State, klines: seq<Kline>)
    requires Core(s) && AllTraced(s)
    ensures AllTraced(SettlePositions(s, klines))
    decreases |klines|
  {
    hide Settled, AllTraced;
    if klines != [] {
      var n := |klines| - 1;
      SettleCore(s, klines[..n]);
      SettleTraced(s, klines[..n]);
      var t := SettlePositions(s, klines[..n]);
      if klines[n].symbol in t.positions {
        SettleOneTraced(t, klines[n].symbol, klines[n].close);
      }
    }
  }

  lemma StepTraced(s: State, e: Event)
    requires Core(s) && AllTraced(s) && ValidEvent(e)
    ensures AllTraced(Step(s, e))
  {
    hide CommitStep;
    match e
    case Commit(q) => CommitTraced(s, q);
    case OnTick(tick) => TickTraced(s, tick);
    case Settle(klines) => SettleTraced(s, klines);
  }

  /** In every reachable state every held position is the fold of its trades. */
  lemma {:induction false} RunTraced(s: State, events: seq<Event>)
    requires Core(s) && AllTraced(s) && ValidEvents(events)
    ensures AllTraced(Run(s, events))
    decreases |events|
  {
    hide Step;
    if events != [] {
      var n := |events| - 1;
      RunTraced(s, events[..n]);
      RunCore(s, events[..n]);
      StepTraced(Run(s, events[..n]), events[n]);
    }
  }

  lemma MarkedPnl(p: Position, last: real)
    requires Sound(p) && p.quantity != 0.0
    ensures Marked(p, last).positionPnl == last * p.quantity - Basis(p) - p.commissions
  {
    GridIsExact(p.quantity, p.quantity);
    var a, c := p.avgPrice.value, p.commissions / p.quantity;
    QuotientTimes(p.commissions, p.quantity);
    assert (last - a - c) * p.quantity == last * p.quantity - a * p.quantity - c * p.quantity;
  }

  predicate Marks(t: State, y: Symbol, last: real)
  {
    var p := PositionOf(t, y);
    p.quantity != 0.0 ==> p.positionPnl == last * p.quantity - Basis(p) - p.commissions
  }

  lemma Revisited(b: State, y: Symbol, last: real)
    requires Running(b)
    ensures Marks(Valued(MarkPosition(b, y, last)), y, last)
  {
    PositionSound(b, y);
    MarkedKeeps(PositionOf(b, y), last);
    if PositionOf(b, y).quantity != 0.0 {
      MarkedPnl(PositionOf(b, y), last);
    }
  }

  lemma TickMarks(s: State, tick: Tick)
    requires Core(s) && ValidTick(tick)
    ensures Marks(TickStep(s, tick), tick.symbol, tick.last)
  {
    AfterOrdersCore(s, tick);
    Revisited(AfterOrders(s, tick), tick.symbol, tick.last);
  }

  lemma HeldIsTraced(s: State, y: Symbol)
    requires Running(s) && AllTraced(s)
    ensures var p, trades := PositionOf(s, y), TradesOf(s.history, y);
            p.quantity != 0.0 ==> p.quantity == NetShares(trades) && Basis(p) == NetNotional(trades)
                                  && p.commissions == FeesPaid(trades)
  {
    PositionSound(s, y);
    ZeroOnGrid();
    GridIsExact(PositionOf(s, y).quantity, 0.0);
  }

  /** The identity, for a held symbol. */
  ghost predicate ShowsPnl(t: State, y: Symbol, last: real)
  {
    var p, trades := PositionOf(t, y), TradesOf(t.history, y);
    p.quantity != 0.0 ==>
      && p.quantity == NetShares(trades)
      && p.positionPnl == last * p.quantity - NetNotional(trades) - FeesPaid(trades)
  }

  lemma HeldPnl(t: State, y: Symbol, last: real)
    requires Running(t) && AllTraced(t)
    requires Marks(t, y, last)
    ensures ShowsPnl(t, y, last)
  {
    HeldIsTraced(t, y);
  }

  lemma TickShowsPnl(s: State, tick: Tick)
    requires Core(s) && AllTraced(s) && ValidTick(tick)
    ensures ShowsPnl(TickStep(s, tick), tick.symbol, tick.last)
  {
    var t := TickStep(s, tick);
    assert Marks(t, tick.symbol, tick.last) by { TickMarks(s, tick); }
    assert Core(t) by { TickCore(s, tick); }
    assert AllTraced(t) by { TickTraced(s, tick); }
    HeldPnl(t, tick.symbol, tick.last);
  }

  lemma StepIsTick(s: State, tick: Tick)
    requires Core(s)
    ensures Step(s, OnTick(tick)) == TickStep(s, tick)
  {
  }

  lemma InitialTraced(slippage: int, rate: real)
    ensures AllTraced(Initial(slippage, rate))
  {
  }

  lemma ReachableTraced(s: State)
    requires Reachable(s)
    ensures AllTraced(s)
  {
    var slippage: int, rate: real, events: seq<Event> :|
      slippage >= 0 && rate >= 0.0 && ValidEvents(events) && s == Run(Initial(slippage, rate), events);
    InitialCore(slippage, rate);
    InitialTraced(slippage, rate);
    RunTraced(Initial(slippage, rate), events);
  }

  /** After a tick of a held symbol, for every run of purchases, partial sales and share
      dividends before it: the profit shown is the value of the shares at the last price, less
      the net amount paid for them and the fees since the position was opened. */
  lemma MarkToMarket(s: State, tick: Tick)
    requires Reachable(s) && ValidTick(tick)
    ensures ShowsPnl(Step(s, OnTick(tick)), tick.symbol, tick.last)
  {
    ReachableCore(s);
    ReachableTraced(s);
    StepIsTick(s, tick);
    TickShowsPnl(s, tick);
  }
}
