/** What every finished order and every child order looks like, and how limit prices are kept. */
module FillTerms {
  import opened Approx
  import opened CerebroStruct
  import opened PositionTracker
  import opened BrokerSpec
  import opened BrokerCore
  import opened OrderSums
  import opened OrderBook
  import opened Overdraft

  /** The terms of a finished order: a fill is for no more than was ordered, on an exchange that
      has a matcher, and a limit purchase pays no more than its limit, the slippage and the
      tolerance; a rejected order was not executed at all. */
  predicate Fair(o: Order, slippage: int)
  {
    if o.Special() then true
    else if o.status.Filled? then
      && HasMatcher(o.symbol) && !o.kind.NoType? && (o.action.Buy? || o.action.Sell?)
      && 0.0 < o.filledQuantity <= o.quantity
      && o.unfilledQuantity == o.quantity - o.filledQuantity
      && (o.kind.Limit? && o.action.Buy? ==> o.filledPrice <= o.price + Slip(slippage) + EPSILON * 0.5)
    else o.filledQuantity == 0.0 && o.unfilledQuantity == 0.0
  }

  /** `c` is the order for what a partial fill left open, on the same terms. */
  predicate IsRestOf(c: Order, f: Order)
  {
    && c.parent == Some(f.id) && f.status.Filled?
    && c.symbol == f.symbol && c.action == f.action && c.kind == f.kind && c.price == f.price && c.root == f.root
    && c.quantity == f.unfilledQuantity
  }

  predicate Linked(c: Order, log: seq<Order>)
  {
    c.parent.Some? ==> exists f <- log :: IsRestOf(c, f)
  }

  predicate LogOk(log: seq<Order>, slippage: int)
  {
    forall o <- log :: Linked(o, log) && Fair(o, slippage)
  }

  predicate AllLinked(orders: seq<Order>, log: seq<Order>)
  {
    forall o <- orders :: Linked(o, log)
  }

  predicate Terms(s: State)
  {
    LogOk(s.log, s.slippage) && forall y <- s.queues :: AllLinked(s.queues[y], s.log)
  }

  lemma LinkedLater(c: Order, log: seq<Order>, more: seq<Order>)
    requires Linked(c, log) && log <= more
    ensures Linked(c, more)
  {
    hide IsRestOf;
    if c.parent.Some? {
      var f :| f in log && IsRestOf(c, f);
      assert f in more;
    }
  }

  lemma AllLinkedLater(orders: seq<Order>, log: seq<Order>, more: seq<Order>)
    requires AllLinked(orders, log) && log <= more
    ensures AllLinked(orders, more)
  {
    hide Linked;
    forall o | o in orders ensures Linked(o, more) {
      LinkedLater(o, log, more);
    }
  }

  /** One more finished order. */
  lemma LogMore(log: seq<Order>, f: Order, slippage: int)
    requires LogOk(log, slippage) && Linked(f, log) && Fair(f, slippage)
    ensures LogOk(log + [f], slippage)
  {
    hide Linked, Fair;
    forall o | o in log + [f] ensures Linked(o, log + [f]) && Fair(o, slippage) {
      LinkedLater(o, log, log + [f]);
    }
  }

  lemma LinkedLike(o: Order, f: Order, log: seq<Order>)
    requires Linked(o, log)
    requires SameIdentity(o, f)
    ensures Linked(f, log)
  {
    if f.parent.Some? {
      var g :| g in log && IsRestOf(o, g);
      assert IsRestOf(f, g);
    }
  }

  lemma ExecutedFair(s: State, o: Order, tick: Tick)
    requires Running(s) && Pending(o, o.symbol, s.nextId) && ValidTick(tick)
    requires Judge(s, o, tick).Execute?
    ensures Fair(FillOf(s, o, tick), s.slippage) && SameIdentity(o, FillOf(s, o, tick))
  {
    hide FilledOrder, JudgeLimit, JudgeMarket, HasMatcher;
    ExecutedFill(s, o, tick);
    if o.action.Buy? {
      BuyCheck(s, o, tick);
    }
  }

  /** What one order does to log and children. */
  ghost predicate OrderTerms(s: State, p: Processed)
  {
    && s.log <= p.state.log && LogOk(p.state.log, s.slippage)
    && AllLinked(p.children, p.state.log)
  }

  lemma ChildLinked(s: State, o: Order, tick: Tick)
    requires Running(s) && Pending(o, o.symbol, s.nextId) && ValidTick(tick)
    requires Judge(s, o, tick).Execute?
    ensures var p := ProcessOrder(s, o, tick);
            p.state.log == s.log + [FillOf(s, o, tick)] && AllLinked(p.children, p.state.log)
  {
    hide ProcessOrder, FilledOrder, Judge, FeeAdded, Running, Pending, Deliver;
    var p, f := ProcessOrder(s, o, tick), FillOf(s, o, tick);
    ExecutedLists(s, o, tick);
    ExecutedFair(s, o, tick);
    forall c | c in p.children ensures Linked(c, p.state.log) {
      assert IsRestOf(c, f);
      assert f in p.state.log;
    }
  }

  lemma OrderKeepsTerms(s: State, o: Order, tick: Tick)
    requires Running(s) && Pending(o, o.symbol, s.nextId) && ValidTick(tick)
    requires LogOk(s.log, s.slippage) && Linked(o, s.log)
    ensures OrderTerms(s, ProcessOrder(s, o, tick))
  {
    hide ProcessOrder, FilledOrder, Judge, LogOk, Linked, Running;
    var p := ProcessOrder(s, o, tick);
    if Judge(s, o, tick).Execute? {
      ChildLinked(s, o, tick);
      ExecutedFair(s, o, tick);
      LinkedLike(o, FillOf(s, o, tick), s.log);
      LogMore(s.log, FillOf(s, o, tick), s.slippage);
    } else {
      UnexecutedLists(s, o, tick);
      if p.order.Finished() {
        LinkedLike(o, p.order, s.log);
        LogMore(s.log, p.order, s.slippage);
      }
    }
  }

  ghost predicate SweepTerms(s: State, w: Swept)
  {
    && s.log <= w.state.log && LogOk(w.state.log, s.slippage)
    && AllLinked(w.children, w.state.log)
  }

  lemma SweepTermsMore(s: State, w: Swept, p: Processed)
    requires SweepTerms(s, w) && OrderTerms(w.state, p) && w.state.slippage == s.slippage
    ensures SweepTerms(s, Swept(p.state, w.visited + [p.order], w.children + p.children))
  {
    hide LogOk, Linked;
    AllLinkedLater(w.children, w.state.log, p.state.log);
  }

  lemma {:induction false} SweepKeepsTerms(s: State, orders: seq<Order>, tick: Tick, y: Symbol)
    requires Running(s) && QueueOk(orders, y, s.nextId) && ValidTick(tick)
    requires LogOk(s.log, s.slippage) && AllLinked(orders, s.log)
    ensures SweepTerms(s, Sweep(s, orders, tick))
    decreases |orders|
  {
    hide ProcessOrder, LogOk, Linked, OrderTerms;
    if orders != [] {
      var n := |orders| - 1;
      QueuePrefix(orders, y, s.nextId);
      SweepCore(s, orders[..n], tick, y);
      assert AllLinked(orders[..n], s.log);
      SweepKeepsTerms(s, orders[..n], tick, y);
      var w := Sweep(s, orders[..n], tick);
      LinkedLater(orders[n], s.log, w.state.log);
      OrderKeepsTerms(w.state, orders[n], tick);
      SweepTermsMore(s, w, ProcessOrder(w.state, orders[n], tick));
    }
  }

  lemma NormalTerms(s: State, tick: Tick)
    requires Core(s) && ValidTick(tick) && Terms(s)
    ensures Terms(ProcessNormalOrder(s, tick))
  {
    hide ProcessOrder, LogOk, Linked, Sweep;
    if tick.symbol in s.queues {
      var y, orders := tick.symbol, s.queues[tick.symbol];
      SweepCore(s, orders, tick, y);
      SweepKeepsTerms(s, orders, tick, y);
      SurvivorsWereQueued(s, orders, tick, y);
      var w, t := Sweep(s, orders, tick), ProcessNormalOrder(s, tick);
      AllLinkedLater(orders, s.log, w.state.log);
      forall z | z in t.queues ensures AllLinked(t.queues[z], t.log) {
        if z != y {
          AllLinkedLater(s.queues[z], s.log, w.state.log);
        }
      }
    }
  }

  lemma TickTerms(s: State, tick: Tick)
    requires Core(s) && ValidTick(tick) && Terms(s)
    ensures Terms(TickStep(s, tick))
  {
    hide ProcessNormalOrder, LogOk, AllLinked, Core, Marked, Total;
    MarkCore(s, tick.symbol, tick.last);
    NormalTerms(if Empty(PositionOf(s, tick.symbol)) then s else MarkPosition(s, tick.symbol, tick.last), tick);
  }

  lemma CommitLog(s: State, q: Request)
    requires ValidRequest(q)
    ensures var t, o := CommitStep(s, q), NewOrder(s, q);
            && t.slippage == s.slippage
            && (if o.Special() then
                  && (t.log == s.log + [o.(status := Filled)] || t.log == s.log + [o.(status := Rejected)])
                  && t.queues == s.queues
                else
                  t.log == s.log && t.queues == s.queues[o.symbol := QueueOf(s, o.symbol) + [o]])
  {
    hide SpecialStep;
    CommitOrderShape(Issued(s, q.symbol), NewOrder(s, q));
    SpecialSlippage(Issued(s, q.symbol), NewOrder(s, q));
  }

  lemma SpecialSlippage(s: State, o: Order)
    ensures SpecialStep(s, o).slippage == s.slippage
  {
    hide Bought;
  }

  lemma CommitTerms(s: State, q: Request)
    requires ValidRequest(q) && Terms(s)
    ensures Terms(CommitStep(s, q))
  {
    hide CommitStep, LogOk, ValidRequest;
    var t, o := CommitStep(s, q), NewOrder(s, q);
    CommitLog(s, q);
    if o.Special() {
      var f := t.log[|s.log|];
      assert f == o.(status := Filled) || f == o.(status := Rejected);
      LogMore(s.log, f, s.slippage);
      assert t.log == s.log + [f];
    }
    forall y | y in t.queues ensures AllLinked(t.queues[y], t.log) {
      if y in s.queues {
        AllLinkedLater(s.queues[y], s.log, t.log);
      }
    }
  }

  lemma {:induction false} RunTerms(s: State, events: seq<Event>)
    requires Core(s) && ValidEvents(events) && Terms(s)
    ensures Terms(Run(s, events))
    decreases |events|
  {
    hide TickStep, CommitStep, Terms, Core;
    if events != [] {
      var n := |events| - 1;
      RunTerms(s, events[..n]);
      RunCore(s, events[..n]);
      StepTerms(Run(s, events[..n]), events[n]);
    }
  }

  lemma StepTerms(s: State, e: Event)
    requires Core(s) && ValidEvent(e) && Terms(s)
    ensures Terms(Step(s, e))
  {
    hide TickStep, CommitStep, LogOk, AllLinked, Total;
    match e
    case Commit(q) => CommitTerms(s, q);
    case OnTick(tick) => TickTerms(s, tick);
    case Settle(klines) => SettleCore(s, klines);
  }

  lemma ReachableTerms(s: State)
    requires Reachable(s)
    ensures Terms(s)
  {
    var slippage: int, rate: real, events: seq<Event> :|
      slippage >= 0 && rate >= 0.0 && ValidEvents(events) && s == Run(Initial(slippage, rate), events);
    InitialCore(slippage, rate);
    RunTerms(Initial(slippage, rate), events);
  }

  /** In every reachable state, whatever has a parent is the order for what exactly that partial
      fill left open, on the same terms. */
  lemma ChildrenContinueFills(s: State, y: Symbol, c: Order)
    requires Reachable(s) && (c in s.log || c in QueueOf(s, y)) && c.parent.Some?
    ensures exists f <- s.log :: f.id == c.parent.value && IsRestOf(c, f)
  {
    ReachableTerms(s);
    assert Linked(c, s.log);
    var f :| f in s.log && IsRestOf(c, f);
    assert f.id == c.parent.value;
  }

  /** In every reachable state no limit purchase has paid more than its limit, the slippage and
      the tolerance, and a rejected order has moved nothing. */
  lemma FinishedOrdersAreFair(s: State, o: Order)
    requires Reachable(s) && o in s.log && !o.Special()
    ensures o.status.Filled? ==>
              && 0.0 < o.filledQuantity <= o.quantity && o.unfilledQuantity == o.quantity - o.filledQuantity
              && (o.kind.Limit? && o.action.Buy? ==> o.filledPrice <= o.price + Slip(s.slippage) + EPSILON * 0.5)
    ensures !o.status.Filled? ==> o.filledQuantity == 0.0 && o.unfilledQuantity == 0.0
  {
    ReachableTerms(s);
  }

  // ---- Which orders trade -------------------------------------------------------------------

  /** Whether a symbol may be bought, or sold, at the last price: no price limit, or half a price
      unit away from it. */
  predicate MayBuy(tick: Tick)
  {
    -0.0000005 <= tick.limitUp <= 0.0000005 || tick.last < tick.limitUp - 0.005
  }

  predicate MaySell(tick: Tick)
  {
    -0.0000005 <= tick.limitDown <= 0.0000005 || tick.last > tick.limitDown + 0.005
  }

  lemma FilledIsExecuted(s: State, o: Order, tick: Tick)
    requires Running(s) && Pending(o, o.symbol, s.nextId) && ValidTick(tick)
    ensures ProcessOrder(s, o, tick).order.status.Filled? <==> Judge(s, o, tick).Execute?
  {
    hide ProcessOrder, Judge, FilledOrder, Running;
    if Judge(s, o, tick).Execute? {
      ExecutedLists(s, o, tick);
    } else {
      UnexecutedChange(Occurrences(0), s, o, tick);
    }
  }

  lemma PriceLimits(o: Order, tick: Tick)
    requires o.price == 0.0
    ensures IsOverLimitUp(o, tick) <==> !MayBuy(tick)
    ensures IsOverLimitDown(o, tick) <==> !MaySell(tick)
  {
  }

  lemma MarketBuy(o: Order, tick: Tick, cash: real, slippage: int, rate: real)
    requires Pending(o, o.symbol, o.id + 1)
    ensures AlmostGt(Outlay(o, tick.last, slippage, rate), cash)
       <==> (tick.last + slippage as real * 0.01) * o.quantity > cash + 0.0000005
  {
    OutlayWithoutFee(o, tick.last, slippage, rate);
  }

  /** Exactly when a market order is filled on a tick.  The commission does not matter. */
  lemma MarketOrderFills(s: State, o: Order, tick: Tick)
    requires Running(s) && Pending(o, o.symbol, s.nextId) && ValidTick(tick)
    requires o.kind.Market? && o.price == 0.0 && HasMatcher(o.symbol) && (o.action.Buy? || o.action.Sell?)
    ensures ProcessOrder(s, o, tick).order.status.Filled? <==>
      if o.action.Buy? then
        MayBuy(tick) && (tick.last + s.slippage as real * 0.01) * o.quantity <= s.account.cash + 0.0000005
      else
        MaySell(tick) && o.quantity <= PositionOf(s, o.symbol).closable
  {
    hide ProcessOrder, HasMatcher, Running, Outlay, AlmostEq, AlmostGt, IsOverLimitUp, IsOverLimitDown, MayBuy, MaySell,
      PositionOf;
    PositionSound(s, o.symbol);
    GridIsExact(o.quantity, PositionOf(s, o.symbol).closable);
    FilledIsExecuted(s, o, tick);
    PriceLimits(o, tick);
    MarketBuy(o, tick, s.account.cash, s.slippage, s.rate);
  }

  /** No purchase trades at or above the upper price limit and no sale at or below the lower one,
      whatever kind of order it is, and a limit beyond the price limits is not accepted. */
  lemma PriceLimitsStopTrades(s: State, o: Order, tick: Tick)
    requires Running(s) && Pending(o, o.symbol, s.nextId) && ValidTick(tick)
    ensures var filled := ProcessOrder(s, o, tick).order.status.Filled?;
            && (filled ==> o.action.Buy? || o.action.Sell?)
            && (filled && o.action.Buy? ==> BuyInLimits(o, tick))
            && (filled && o.action.Sell? ==> SellInLimits(o, tick))
  {
    hide ProcessOrder, HasMatcher, FilledOrder, Running, Outlay;
    FilledIsExecuted(s, o, tick);
  }

  predicate BuyInLimits(o: Order, tick: Tick)
  {
    MayBuy(tick) && (tick.limitUp > 0.0000005 ==> o.price <= 0.005 || o.price <= tick.limitUp + 0.005)
  }

  predicate SellInLimits(o: Order, tick: Tick)
  {
    MaySell(tick) && (tick.limitDown > 0.0000005 ==> o.price <= 0.005 || o.price >= tick.limitDown - 0.005)
  }

  // ---- Limit sales --------------------------------------------------------------------------

  /** If the order would be executed with limit `p`, it gets at least `p`. */
  predicate Honoured(s: State, o: Order, tick: Tick, p: real)
  {
    var v := Judge(s, o.(price := p), tick);
    v.Execute? ==> v.price >= p
  }

  /** The limit of a sale is compared with the last price, but the sale is filled at the bid: every
      limit is kept exactly when bid and slippage reach the last price and the tolerance. */
  lemma SaleLimitsKept(s: State, o: Order, tick: Tick)
    requires Running(s) && Pending(o, o.symbol, s.nextId) && ValidTick(tick)
    requires o.action.Sell? && o.kind.Limit? && HasMatcher(o.symbol)
    requires o.quantity <= PositionOf(s, o.symbol).closable && !LockedDown(tick)
    ensures (forall p: real :: p >= 0.0 ==> Honoured(s, o, tick, p))
       <==> tick.bid + Slip(s.slippage) >= tick.last + EPSILON * 0.5
  {
    hide HasMatcher;
    var top := tick.last + EPSILON * 0.5;
    assert Judge(s, o.(price := top), tick).Execute?;
    if tick.bid + Slip(s.slippage) < top {
      assert !Honoured(s, o, tick, top);
    }
  }
}
