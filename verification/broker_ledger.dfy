/** Conservation of money: over any run, cash, the cost of the open positions and the fees paid
    add up to what came in from outside plus what closed positions earned. */
module BrokerLedger {
  import opened Approx
  import opened CerebroStruct
  import opened PositionTracker
  import opened BrokerSpec
  import opened BrokerCore

  // ---- Sums over trackers ----------------------------------------------------------------

  lemma {:induction false} TotalSplit(m: map<Symbol, Position>, y: Symbol, f: Position -> real)
    requires y in m
    ensures Total(m, f) == f(m[y]) + Total(m - {y}, f)
    decreases |m|
  {
    var x :| x in m && Total(m, f) == f(m[x]) + Total(m - {x}, f);
    if x != y {
      TotalSplit(m - {x}, y, f);
      TotalSplit(m - {y}, x, f);
      assert m - {x} - {y} == m - {y} - {x};
    }
  }

  /** Replacing or adding one tracker changes the sum by the difference of that tracker. */
  lemma TotalSet(m: map<Symbol, Position>, y: Symbol, p: Position, f: Position -> real)
    ensures Total(m[y := p], f) == Total(m, f) - (if y in m then f(m[y]) else 0.0) + f(p)
  {
    TotalSplit(m[y := p], y, f);
    assert m[y := p] - {y} == m - {y};
    if y in m {
      TotalSplit(m, y, f);
    } else {
      assert m - {y} == m;
    }
  }

  lemma TrackerSet(s: State, y: Symbol, p: Position)
    ensures Total(s.positions[y := p], Basis) == Total(s.positions, Basis) - Basis(PositionOf(s, y)) + Basis(p)
  {
    TotalSet(s.positions, y, p, Basis);
  }

  // ---- The ledger -------------------------------------------------------------------------

  /** Money held or spent on fees. */
  ghost function Assets(s: State): (r: real)
  {
    s.account.cash + s.account.frozenCash + Total(s.positions, Basis) + s.account.transactionCost
  }

  /** Money that came in from outside, and gains of positions that were closed. */
  function Sources(s: State): (r: real)
  {
    s.history.deposits - s.history.withdrawals + s.history.dividends + s.history.closedGains
  }

  /** The position side of the balance. */
  ghost function Books(s: State): (r: real)
  {
    Total(s.positions, Basis) - Sources(s)
  }

  ghost predicate Balanced(s: State, t: State)
  {
    Assets(t) - Sources(t) == Assets(s) - Sources(s)
  }

  lemma LookedBalanced(s: State, o: Order, v: Verdict)
    ensures Balanced(s, Looked(s, o, v))
  {
    TrackerSet(s, o.symbol, FRESH);
  }

  lemma Commute(x: real, y: real)
    ensures x * y == y * x
  {
  }

  /** Shares that arrive put exactly their price into the cost basis. */
  lemma ReceiveLedger(s: State, y: Symbol, q: real, price: real, fee: real)
    requires Running(s) && OnGrid(q) && q >= 0.0
    ensures Receive(s, y, q, price, fee).account == s.account
    ensures Books(Receive(s, y, q, price, fee)) == Books(s) + price * q
  {
    PositionSound(s, y);
    BoughtBasis(PositionOf(s, y), q, price, fee);
    Commute(price, q);
    TrackerSet(s, y, Bought(PositionOf(s, y), 1, q, price, fee));
  }

  lemma SoldGain(p: Position, q: real, price: real, fee: real)
    requires Sound(p) && OnGrid(q) && 0.0 < q <= p.closable
    ensures Sold(p, q, price, fee).Ok?
    ensures var p' := Sold(p, q, price, fee).value;
            Basis(p') - ClosingGain(p, p', q, price) == Basis(p) - q * price
  {
    SoldBasis(p, q, price, fee);
    GridIsExact(p.quantity, p.quantity - q);
    Spread(price, p.avgPrice.value, q);
  }

  lemma Spread(x: real, y: real, q: real)
    ensures (x - y) * q == q * x - y * q
  {
  }

  /** Shares that leave take exactly their proceeds out of the cost basis, up to the gain that
      is booked when they were the last ones. */
  lemma ReleaseLedger(s: State, y: Symbol, q: real, price: real, fee: real)
    requires Running(s) && OnGrid(q) && 0.0 < q <= PositionOf(s, y).closable
    ensures Release(s, y, q, price, fee).account == s.account
    ensures Books(Release(s, y, q, price, fee)) == Books(s) - price * q
  {
    PositionSound(s, y);
    SoldGain(PositionOf(s, y), q, price, fee);
    Commute(price, q);
    TrackerSet(s, y, Sold(PositionOf(s, y), q, price, fee).value);
  }

  lemma DeliverBuy(s: State, f: Order)
    requires Running(s) && f.status.Filled? && f.action.Buy?
    requires OnGrid(f.filledQuantity) && f.filledQuantity > 0.0
    ensures Deliver(s, f).account == s.account
    ensures Books(Deliver(s, f)) == Books(s) + Notional(f)
  {
    hide Receive, Books, Basis, OnGrid;
    ReceiveLedger(s, f.symbol, f.filledQuantity, f.filledPrice, f.transactionCost);
  }

  lemma DeliverSell(s: State, f: Order)
    requires Running(s) && f.status.Filled? && f.action.Sell?
    requires OnGrid(f.filledQuantity) && 0.0 < f.filledQuantity <= PositionOf(s, f.symbol).closable
    ensures Deliver(s, f).account == s.account
    ensures Books(Deliver(s, f)) == Books(s) - Notional(f)
  {
    hide Release, Books, Basis, PositionOf, OnGrid;
    ReleaseLedger(s, f.symbol, f.filledQuantity, f.filledPrice, f.transactionCost);
  }

  lemma BeforeDeliveryLedger(s: State, o: Order, tick: Tick)
    requires Judge(s, o, tick).Execute?
    ensures var u, f := BeforeDelivery(s, o, tick), FillOf(s, o, tick);
            && Books(u) == Books(s)
            && u.account.cash + u.account.frozenCash + u.account.transactionCost
               == s.account.cash + s.account.frozenCash + s.account.transactionCost
                  - if f.action.Buy? then Notional(f) else -Notional(f)
  {
    TrackerSet(s, o.symbol, FRESH);
  }

  /** The cash side is paid inside the matcher and the position side is booked later; together
      they balance. */
  lemma ExecutedBalanced(s: State, o: Order, tick: Tick)
    requires Running(s) && Pending(o, o.symbol, s.nextId) && ValidTick(tick)
    requires Judge(s, o, tick).Execute?
    ensures Balanced(s, AfterDelivery(s, o, tick))
  {
    ExecutedFill(s, o, tick);
    BeforeDeliveryFacts(s, o, tick);
    BeforeDeliveryLedger(s, o, tick);
    var u, f := BeforeDelivery(s, o, tick), FillOf(s, o, tick);
    if o.action.Buy? {
      DeliverBuy(u, f);
    } else {
      DeliverSell(u, f);
    }
  }

  lemma ProcessOrderBalanced(s: State, o: Order, tick: Tick)
    requires Running(s) && Pending(o, o.symbol, s.nextId) && ValidTick(tick)
    ensures Balanced(s, ProcessOrder(s, o, tick).state)
  {
    var v := Judge(s, o, tick);
    LookedBalanced(s, o, v);
    if v.Execute? {
      Executed(s, o, tick);
      ExecutedBalanced(s, o, tick);
    }
  }

  lemma {:induction false} SweepBalanced(s: State, orders: seq<Order>, tick: Tick, y: Symbol)
    requires Running(s) && QueueOk(orders, y, s.nextId) && ValidTick(tick)
    ensures Balanced(s, Sweep(s, orders, tick).state)
    decreases |orders|
  {
    hide ProcessOrder;
    if orders != [] {
      var n := |orders| - 1;
      QueuePrefix(orders, y, s.nextId);
      SweepCore(s, orders[..n], tick, y);
      SweepBalanced(s, orders[..n], tick, y);
      ProcessOrderBalanced(Sweep(s, orders[..n], tick).state, orders[n], tick);
    }
  }

  lemma MarkBalanced(s: State, y: Symbol, last: real)
    requires Running(s)
    ensures Balanced(s, MarkPosition(s, y, last))
  {
    if y in s.positions {
      MarkedKeeps(s.positions[y], last);
      TrackerSet(s, y, Marked(s.positions[y], last));
    }
  }

  lemma TickBalanced(s: State, tick: Tick)
    requires Core(s) && ValidTick(tick)
    ensures Balanced(s, TickStep(s, tick))
    ensures TickStep(s, tick).account.marketValue == Total(TickStep(s, tick).positions, Basis)
    ensures TickStep(s, tick).account.dailyPnl == Total(TickStep(s, tick).positions, Pnl)
  {
    hide ProcessOrder, Marked;
    var y := tick.symbol;
    MarkBalanced(s, y, tick.last);
    MarkCore(s, y, tick.last);
    var a := if Empty(PositionOf(s, y)) then s else MarkPosition(s, y, tick.last);
    NormalCore(a, tick);
    if y in a.queues {
      SweepBalanced(a, a.queues[y], tick, y);
    }
    MarkBalanced(ProcessNormalOrder(a, tick), y, tick.last);
  }

  lemma DividendBalanced(s: State, o: Order)
    requires Running(s) && OnGrid(o.quantity) && o.quantity >= 0.0
    ensures Balanced(s, DividendStep(s, o))
  {
    hide Receive, AlmostEq;
    ReceiveLedger(s, o.symbol, o.quantity, 0.0, o.transactionCost);
    TrackerSet(s, o.symbol, FRESH);
  }

  lemma DepositBalanced(s: State, o: Order)
    ensures Balanced(s, DepositStep(s, o))
  {
    hide Amount;
  }

  lemma WithdrawBalanced(s: State, o: Order)
    ensures Balanced(s, WithdrawStep(s, o))
  {
    hide Amount;
  }

  lemma SpecialBalanced(s: State, o: Order)
    requires Running(s) && OnGrid(o.quantity) && o.quantity >= 0.0
    ensures Balanced(s, SpecialStep(s, o))
  {
    hide DividendStep, DepositStep, WithdrawStep;
    DividendBalanced(s, o);
    DepositBalanced(s, o);
    WithdrawBalanced(s, o);
  }

  lemma CommitBalanced(s: State, q: Request)
    requires Core(s) && ValidRequest(q)
    ensures Balanced(s, CommitStep(s, q))
  {
    hide SpecialStep;
    SpecialBalanced(Issued(s, q.symbol), NewOrder(s, q));
  }

  lemma SettledKeeps(p: Position, close: real)
    requires Sound(p)
    ensures Basis(Settled(p, close)) == Basis(p)
  {
    hide Marked;
    MarkedKeeps(p, close);
  }

  lemma SettleOneBalanced(t: State, y: Symbol, close: real)
    requires Running(t) && y in t.positions
    ensures Balanced(t, t.(positions := t.positions[y := Settled(t.positions[y], close)]))
  {
    hide Marked;
    SettledKeeps(t.positions[y], close);
    TrackerSet(t, y, Settled(t.positions[y], close));
  }

  lemma {:induction false} SettleBalanced(s: State, klines: seq<Kline>)
    requires Core(s)
    ensures Balanced(s, SettlePositions(s, klines))
    decreases |klines|
  {
    hide Settled;
    if klines != [] {
      var n := |klines| - 1;
      SettleBalanced(s, klines[..n]);
      SettleCore(s, klines[..n]);
      var t := SettlePositions(s, klines[..n]);
      if klines[n].symbol in t.positions {
        SettleOneBalanced(t, klines[n].symbol, klines[n].close);
      }
    }
  }

  lemma StepBalanced(s: State, e: Event)
    requires Core(s) && ValidEvent(e)
    ensures Balanced(s, Step(s, e))
    ensures !e.Commit? ==> Step(s, e).account.marketValue == Total(Step(s, e).positions, Basis)
    ensures !e.Commit? ==> Step(s, e).account.dailyPnl == Total(Step(s, e).positions, Pnl)
  {
    hide CommitStep;
    match e
    case Commit(q) => CommitBalanced(s, q);
    case OnTick(tick) =>
      TickBalanced(s, tick);
    case Settle(klines) =>
      SettleBalanced(s, klines);
  }

  /** Conservation over every run from any good state. */
  lemma {:induction false} RunBalanced(s: State, events: seq<Event>)
    requires Core(s) && ValidEvents(events)
    ensures Balanced(s, Run(s, events))
    decreases |events|
  {
    hide Step;
    if events != [] {
      var n := |events| - 1;
      RunBalanced(s, events[..n]);
      RunCore(s, events[..n]);
      StepBalanced(Run(s, events[..n]), events[n]);
    }
  }

  lemma InitialBalanced(slippage: int, rate: real)
    ensures Assets(Initial(slippage, rate)) == Sources(Initial(slippage, rate))
  {
  }

  /** The books balance at every moment of every run. */
  lemma LedgerConservation(s: State)
    requires Reachable(s)
    ensures s.account.cash + s.account.frozenCash + Total(s.positions, Basis) + s.account.transactionCost
         == s.history.deposits - s.history.withdrawals + s.history.dividends + s.history.closedGains
  {
    var slippage: int, rate: real, events: seq<Event> :|
      slippage >= 0 && rate >= 0.0 && ValidEvents(events) && s == Run(Initial(slippage, rate), events);
    InitialCore(slippage, rate);
    InitialBalanced(slippage, rate);
    RunBalanced(Initial(slippage, rate), events);
  }

  /** Right after a tick or a settlement the account's own figures carry the same identity:
      total value plus fees equals money in plus closed gains. */
  lemma AccountMatchesLedger(s: State, e: Event)
    requires Reachable(s) && ValidEvent(e) && !e.Commit?
    ensures var t := Step(s, e);
            && t.account.marketValue == Total(t.positions, Basis)
            && t.account.dailyPnl == Total(t.positions, Pnl)
            && t.account.cash + t.account.frozenCash + t.account.marketValue + t.account.transactionCost
               == t.history.deposits - t.history.withdrawals + t.history.dividends + t.history.closedGains
  {
    ReachableCore(s);
    LedgerConservation(s);
    StepBalanced(s, e);
  }
}
