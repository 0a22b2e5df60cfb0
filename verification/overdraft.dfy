/** How far the account can be overdrawn: orders are checked against the cash without their
    commission, so cash may fall below zero, but never by more than the fees ever charged and
    the tolerance of the comparisons. */
module Overdraft {
  import opened Arithmetic
  import opened Approx
  import opened CerebroStruct
  import opened PositionTracker
  import opened Account
  import opened BrokerSpec
  import opened BrokerCore
  import opened OrderBook

  /** The slack of the comparisons: half an EPSILON of cash, and half an EPSILON of price on the
      largest order. */
  function Slack(h: History): (r: real)
  {
    EPSILON * 0.5 * (1.0 + h.largest)
  }

  predicate Solvent(s: State)
  {
    && s.history.largest >= 0.0 && s.account.transactionCost >= 0.0
    && s.account.cash + s.account.transactionCost >= -Slack(s.history)
  }

  predicate Bounded(q: seq<Order>, largest: real)
  {
    forall o <- q :: o.quantity <= largest
  }

  predicate AllBounded(s: State)
  {
    forall y <- s.queues :: Bounded(s.queues[y], s.history.largest)
  }

  lemma Mono(p: real, x: real, y: real)
    requires p >= 0.0 && 0.0 <= x <= y
    ensures 0.0 <= p * x <= p * y
  {
    Scaling(p, x);
    Scaling(p, y - x);
    assert p * (y - x) == p * y - p * x;
  }

  lemma WithinTolerance(x: real, y: real)
    requires !AlmostGt(x, y)
    ensures x <= y + EPSILON * 0.5
  {
  }

  /** Before a fill the commission in the outlay is zero. */
  lemma OutlayWithoutFee(o: Order, price: real, slippage: int, rate: real)
    requires Pending(o, o.symbol, o.id + 1)
    ensures Outlay(o, price, slippage, rate) == (price + Slip(slippage)) * o.quantity
  {
    assert (o.filledPrice * o.filledQuantity) * rate == 0.0;
  }

  /** A limit price that the last price exceeds by no more than the tolerance costs no more than
      the check allowed for, but for that tolerance. */
  lemma LimitOutlay(o: Order, last: real, slippage: int, rate: real)
    requires Pending(o, o.symbol, o.id + 1) && last <= o.price + EPSILON * 0.5
    ensures Outlay(o, last, slippage, rate) <= Outlay(o, o.price, slippage, rate) + EPSILON * 0.5 * o.quantity
  {
    var slip, q := Slip(slippage), o.quantity;
    OutlayWithoutFee(o, last, slippage, rate);
    OutlayWithoutFee(o, o.price, slippage, rate);
    Mono(q, 0.0, o.price + EPSILON * 0.5 - last);
    assert q * (o.price + EPSILON * 0.5 - last) == (o.price + slip) * q + EPSILON * 0.5 * q - (last + slip) * q;
  }

  /** The affordability check of a purchase that is executed. */
  lemma BuyCheck(s: State, o: Order, tick: Tick)
    requires Pending(o, o.symbol, s.nextId) && Judge(s, o, tick).Execute? && o.action.Buy?
    ensures Judge(s, o, tick).price == tick.last + Slip(s.slippage)
    ensures o.kind.Market? || o.kind.Limit?
    ensures o.kind.Market? ==> !AlmostGt(Outlay(o, tick.last, s.slippage, s.rate), s.account.cash)
    ensures o.kind.Limit? ==> !AlmostGt(Outlay(o, o.price, s.slippage, s.rate), s.account.cash)
                              && !AlmostLt(o.price, tick.last)
  {
  }

  lemma OutlayIsCovered(s: State, o: Order, tick: Tick)
    requires Pending(o, o.symbol, s.nextId) && Judge(s, o, tick).Execute? && o.action.Buy?
    requires o.quantity <= s.history.largest
    ensures Outlay(o, tick.last, s.slippage, s.rate) <= s.account.cash + Slack(s.history)
  {
    BuyCheck(s, o, tick);
    if o.kind.Limit? {
      WithinTolerance(Outlay(o, o.price, s.slippage, s.rate), s.account.cash);
      WithinTolerance(tick.last, o.price);
      LimitOutlay(o, tick.last, s.slippage, s.rate);
    } else {
      WithinTolerance(Outlay(o, tick.last, s.slippage, s.rate), s.account.cash);
    }
  }

  /** A fill of a purchase takes no more than the outlay of the whole order. */
  lemma NotionalWithinOutlay(f: Order, o: Order, last: real, slippage: int, rate: real)
    requires Pending(o, o.symbol, o.id + 1) && 0.0 <= f.filledQuantity <= o.quantity
    requires f.filledPrice == last + Slip(slippage) >= 0.0
    ensures Notional(f) <= Outlay(o, last, slippage, rate)
  {
    OutlayWithoutFee(o, last, slippage, rate);
    Mono(f.filledPrice, f.filledQuantity, o.quantity);
  }

  /** A purchase that the matcher executes costs no more than the cash plus the slack. */
  lemma BuyIsCovered(s: State, o: Order, tick: Tick)
    requires Running(s) && Pending(o, o.symbol, s.nextId) && ValidTick(tick)
    requires Judge(s, o, tick).Execute? && o.action.Buy? && o.quantity <= s.history.largest
    ensures Notional(FillOf(s, o, tick)) <= s.account.cash + Slack(s.history)
  {
    BuyCheck(s, o, tick);
    OutlayIsCovered(s, o, tick);
    ExecutedFill(s, o, tick);
    NotionalWithinOutlay(FillOf(s, o, tick), o, tick.last, s.slippage, s.rate);
  }

  lemma BeforeDeliverySolvent(s: State, o: Order, tick: Tick)
    requires Running(s) && Pending(o, o.symbol, s.nextId) && ValidTick(tick)
    requires Judge(s, o, tick).Execute? && o.quantity <= s.history.largest && Solvent(s)
    ensures Solvent(Paid(s, FillOf(s, o, tick)))
  {
    var f := FillOf(s, o, tick);
    ExecutedFill(s, o, tick);
    if o.action.Buy? {
      BuyIsCovered(s, o, tick);
    } else {
      Scaling(f.filledPrice, f.filledQuantity);
    }
  }

  lemma OrderSolvent(s: State, o: Order, tick: Tick)
    requires Running(s) && Pending(o, o.symbol, s.nextId) && ValidTick(tick)
    requires o.quantity <= s.history.largest && Solvent(s)
    ensures Solvent(ProcessOrder(s, o, tick).state)
    ensures forall c <- ProcessOrder(s, o, tick).children :: c.quantity <= o.quantity
    ensures ProcessOrder(s, o, tick).state.history.largest == s.history.largest
  {
    hide FilledOrder, Deliver, JudgeLimit, JudgeMarket;
    OrderRegister(s, o, tick);
    if Judge(s, o, tick).Execute? {
      Executed(s, o, tick);
      BeforeDeliverySolvent(s, o, tick);
      assert ProcessOrder(s, o, tick).state.account == Paid(s, FillOf(s, o, tick)).account;
    } else {
      ZeroOnGrid();
    }
  }

  lemma {:induction false} SweepSolvent(s: State, orders: seq<Order>, tick: Tick, y: Symbol)
    requires Running(s) && QueueOk(orders, y, s.nextId) && ValidTick(tick)
    requires Bounded(orders, s.history.largest) && Solvent(s)
    ensures var w := Sweep(s, orders, tick);
            && Solvent(w.state) && w.state.history.largest == s.history.largest
            && Bounded(w.children, s.history.largest)
    decreases |orders|
  {
    hide ProcessOrder;
    if orders != [] {
      var n := |orders| - 1;
      QueuePrefix(orders, y, s.nextId);
      assert orders[n] in orders && forall o <- orders[..n] :: o in orders;
      SweepCore(s, orders[..n], tick, y);
      SweepSolvent(s, orders[..n], tick, y);
      OrderSolvent(Sweep(s, orders[..n], tick).state, orders[n], tick);
    }
  }

  lemma NormalSolvent(s: State, tick: Tick)
    requires Core(s) && ValidTick(tick) && Solvent(s) && AllBounded(s)
    ensures Solvent(ProcessNormalOrder(s, tick)) && AllBounded(ProcessNormalOrder(s, tick))
  {
    hide ProcessOrder;
    var y := tick.symbol;
    if y in s.queues {
      SweepSolvent(s, s.queues[y], tick, y);
      SweepCore(s, s.queues[y], tick, y);
      SurvivorsWereQueued(s, s.queues[y], tick, y);
    }
  }

  lemma TickSolvent(s: State, tick: Tick)
    requires Core(s) && ValidTick(tick) && Solvent(s) && AllBounded(s)
    ensures Solvent(TickStep(s, tick)) && AllBounded(TickStep(s, tick))
  {
    hide ProcessNormalOrder, Marked;
    MarkCore(s, tick.symbol, tick.last);
    NormalSolvent(if Empty(PositionOf(s, tick.symbol)) then s else MarkPosition(s, tick.symbol, tick.last), tick);
  }

  lemma AmountSign(o: Order)
    requires o.price >= 0.0 && o.quantity >= 0.0
    ensures Amount(o) >= 0.0
  {
    Scaling(o.price, o.quantity);
  }

  lemma DividendSolvent(s: State, o: Order)
    requires Solvent(s) && o.price >= 0.0 && o.transactionCost == 0.0
    ensures Solvent(DividendStep(s, o)) && DividendStep(s, o).history.largest == s.history.largest
  {
    hide Bought, AlmostEq;
  }

  lemma SpecialSolvent(s: State, o: Order)
    requires Solvent(s) && o.price >= 0.0 && o.quantity >= 0.0 && o.transactionCost == 0.0
    ensures Solvent(SpecialStep(s, o)) && SpecialStep(s, o).history.largest == s.history.largest
  {
    hide DividendStep, Amount, CanWithdraw;
    DividendSolvent(s, o);
    AmountSign(o);
    if CanWithdraw(s.account, Amount(o)) {
      WithdrawalCovered(s.account, Amount(o));
    }
  }

  lemma WithdrawalCovered(a: Account, amount: real)
    requires CanWithdraw(a, amount)
    ensures a.cash - amount >= -(EPSILON * 0.5)
  {
  }

  lemma CommitSolvent(s: State, q: Request)
    requires Core(s) && ValidRequest(q) && Solvent(s) && AllBounded(s)
    ensures Solvent(CommitStep(s, q)) && AllBounded(CommitStep(s, q))
  {
    hide SpecialStep;
    var i, o := Issued(s, q.symbol), NewOrder(s, q);
    SpecialSolvent(i, o);
    CommitOrderShape(i, o);
    var t := CommitStep(s, q);
    assert s.history.largest <= t.history.largest;
    forall y, x | y in t.queues && x in t.queues[y] ensures x.quantity <= t.history.largest {
      assert x in QueueOf(s, y) || x == o;
    }
  }

  lemma StepSolvent(s: State, e: Event)
    requires Core(s) && ValidEvent(e) && Solvent(s) && AllBounded(s)
    ensures Solvent(Step(s, e)) && AllBounded(Step(s, e))
  {
    hide CommitStep;
    match e
    case Commit(q) => CommitSolvent(s, q);
    case OnTick(tick) => TickSolvent(s, tick);
    case Settle(klines) => SettleCore(s, klines);
  }

  lemma {:induction false} RunSolvent(s: State, events: seq<Event>)
    requires Core(s) && ValidEvents(events) && Solvent(s) && AllBounded(s)
    ensures Solvent(Run(s, events)) && AllBounded(Run(s, events))
    decreases |events|
  {
    hide Step;
    if events != [] {
      var n := |events| - 1;
      RunSolvent(s, events[..n]);
      RunCore(s, events[..n]);
      StepSolvent(Run(s, events[..n]), events[n]);
    }
  }

  /** In every reachable state cash is at least minus the fees ever charged, up to the slack. */
  lemma OverdraftBound(s: State)
    requires Reachable(s)
    ensures s.account.cash + s.account.transactionCost >= -(EPSILON * 0.5) * (1.0 + s.history.largest)
    ensures s.account.transactionCost >= 0.0
  {
    var slippage: int, rate: real, events: seq<Event> :|
      slippage >= 0 && rate >= 0.0 && ValidEvents(events) && s == Run(Initial(slippage, rate), events);
    InitialCore(slippage, rate);
    RunSolvent(Initial(slippage, rate), events);
  }

  lemma BuyVerdict(s: State, o: Order, tick: Tick)
    requires o.action.Buy? && Judge(s, o, tick).Execute?
    ensures Judge(s, o, tick) == Execute(tick.last + Slip(s.slippage), tick.askVolume)
  {
    hide HasMatcher, Outlay, IsOverLimitUp, AlmostEq;
  }

  lemma CashAfterBuy(s: State, o: Order, tick: Tick)
    requires Running(s) && Pending(o, o.symbol, s.nextId) && ValidTick(tick)
    requires o.action.Buy? && Judge(s, o, tick).Execute?
    ensures var f := FillOf(s, o, tick);
            ProcessOrder(s, o, tick).state.account.cash == s.account.cash - Notional(f) - f.transactionCost
  {
    hide ProcessOrder, FillOf, Judge, Running, Pending, ValidTick, AfterDelivery, Notional;
    Executed(s, o, tick);
  }

  /** Exactly when a purchase leaves the cash at zero or above: when the cash covers price and fee
      of what is filled, which is not what was checked. */
  lemma PurchaseKeepsCash(s: State, o: Order, tick: Tick)
    requires Running(s) && Pending(o, o.symbol, s.nextId) && ValidTick(tick)
    requires o.action.Buy? && Judge(s, o, tick).Execute?
    ensures var price, fq := tick.last + Slip(s.slippage), Min(tick.askVolume, o.quantity);
            var fee := (if AlmostZero(o.transactionCost) then price * fq * s.rate else o.transactionCost)
                       * Ratio(fq, o.quantity);
            && ProcessOrder(s, o, tick).state.account.cash == s.account.cash - price * fq - fee
            && (ProcessOrder(s, o, tick).state.account.cash >= 0.0 <==> price * fq + fee <= s.account.cash)
  {
    hide ProcessOrder, FilledOrder, Ratio, AlmostEq, Judge, OnGrid, Slip, Min;
    CashAfterBuy(s, o, tick);
    BuyVerdict(s, o, tick);
    ExecuteFacts(s, o, tick);
    FilledFacts(o, s.rate, tick.last + Slip(s.slippage), tick.askVolume, PositionOf(s, o.symbol).avgPrice);
  }
}
