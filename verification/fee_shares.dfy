/** Every member of a chain of partial fills pays, or carries, its share of the first commission. */
module FeeShares {
  import opened Arithmetic
  import opened Approx
  import opened CerebroStruct
  import opened PositionTracker
  import opened BrokerSpec
  import opened BrokerCore
  import opened OrderSums
  import opened OrderBook
  import opened OrderFees

  /** The share that a part of a root order has in the commission of its first fill. */
  function Share(h: History, r: int, quantity: real): (fee: real)
  {
    if r in h.firstFee && r in h.roots then h.firstFee[r] * Ratio(quantity, h.roots[r].quantity) else 0.0
  }

  predicate RootKnown(o: Order, h: History)
  {
    && o.root in h.roots && h.roots[o.root].quantity > 0.0 && h.roots[o.root].symbol == o.symbol
    && (o.parent.None? ==> o.root == o.id && h.roots[o.root].quantity == o.quantity)
  }

  /** A queued order carries its share, unless the fee of its chain was replaced. */
  predicate Carries(o: Order, h: History)
  {
    && RootKnown(o, h)
    && (o.parent.Some? ==> o.root in h.firstFee)
    && (o.parent.Some? && o.root !in h.repriced ==> o.transactionCost == Share(h, o.root, o.quantity))
  }

  /** So does a filled one; and no child order whose share is below the tolerance was filled, unless
      the fee was replaced then. */
  predicate Charged(o: Order, h: History)
  {
    o.status.Filled? && !o.Special() ==>
      && RootKnown(o, h) && o.root in h.firstFee
      && (o.root !in h.repriced ==>
            && o.transactionCost == Share(h, o.root, o.filledQuantity)
            && (o.parent.Some? ==> !AlmostZero(Share(h, o.root, o.quantity))))
  }

  predicate AllCarry(orders: seq<Order>, h: History)
  {
    forall o <- orders :: Carries(o, h)
  }

  predicate AllCharged(log: seq<Order>, h: History)
  {
    forall o <- log :: Charged(o, h)
  }

  /** A filled child order whose share of the fee was below the tolerance. */
  predicate TooSmall(o: Order, r: int, h: History)
  {
    && o.root == r && o.status.Filled? && o.parent.Some? && !o.Special()
    && r in h.firstFee && r in h.roots && AlmostZero(Share(h, r, o.quantity))
  }

  predicate RepricedSeen(log: seq<Order>, h: History)
  {
    forall r <- h.repriced :: exists o <- log :: TooSmall(o, r, h)
  }

  predicate Shares(s: State)
  {
    && AllCharged(s.log, s.history) && RepricedSeen(s.log, s.history)
    && forall y <- s.queues :: AllCarry(s.queues[y], s.history)
  }

  // ---- History only grows ------------------------------------------------------------------

  predicate Grown(h: History, k: History)
  {
    && (forall r <- h.roots :: r in k.roots && k.roots[r] == h.roots[r])
    && (forall r <- h.firstFee :: r in k.firstFee && k.firstFee[r] == h.firstFee[r])
    && h.repriced.Keys <= k.repriced.Keys
  }

  lemma CarriesLater(o: Order, h: History, k: History)
    requires Carries(o, h) && Grown(h, k)
    ensures Carries(o, k)
  {
    hide Ratio;
  }

  lemma ChargedLater(o: Order, h: History, k: History)
    requires Charged(o, h) && Grown(h, k)
    ensures Charged(o, k)
  {
  }

  lemma AllLater(orders: seq<Order>, log: seq<Order>, h: History, k: History)
    requires Grown(h, k)
    ensures AllCarry(orders, h) ==> AllCarry(orders, k)
    ensures AllCharged(log, h) ==> AllCharged(log, k)
  {
    hide Carries, Charged, Grown;
    if AllCarry(orders, h) {
      forall o | o in orders ensures Carries(o, k) {
        CarriesLater(o, h, k);
      }
    }
    if AllCharged(log, h) {
      forall o | o in log ensures Charged(o, k) {
        ChargedLater(o, h, k);
      }
    }
  }

  /** What was seen stays seen; `r` may be a new entry that the new order accounts for. */
  lemma SeenLater(log: seq<Order>, h: History, k: History, f: Order)
    requires RepricedSeen(log, h) && Grown(h, k)
    requires forall r <- k.repriced :: r in h.repriced || TooSmall(f, r, k)
    ensures RepricedSeen(log + [f], k)
  {
    forall r | r in k.repriced ensures exists o <- log + [f] :: TooSmall(o, r, k) {
      if r in h.repriced {
        var o :| o in log && TooSmall(o, r, h);
        assert o in log + [f] && TooSmall(o, r, k);
      } else {
        assert f in log + [f];
      }
    }
  }

  lemma SeenStill(log: seq<Order>, more: seq<Order>, h: History, k: History)
    requires RepricedSeen(log, h) && Grown(h, k) && k.repriced == h.repriced
    requires forall o <- log :: o in more
    ensures RepricedSeen(more, k)
  {
    forall r | r in k.repriced ensures exists o <- more :: TooSmall(o, r, k) {
      var o :| o in log && TooSmall(o, r, h);
      assert TooSmall(o, r, k);
    }
  }

  // ---- One order ---------------------------------------------------------------------------

  lemma Quotients(x: real, q: real, whole: real)
    requires q != 0.0 && whole != 0.0
    ensures (q / whole) * (x / q) == x / whole
  {
    var a, b := q / whole, x / q;
    assert a * whole == q && b * q == x;
    assert (a * b) * whole == b * (a * whole);
    QuotientIs(a * b, whole, x);
  }

  lemma RatioOfRatio(fee: real, x: real, q: real, whole: real)
    requires q > 0.0 && whole > 0.0
    ensures (fee * Ratio(q, whole)) * Ratio(x, q) == fee * Ratio(x, whole)
  {
    Quotients(x, q, whole);
    var a, b := Ratio(q, whole), Ratio(x, q);
    assert (fee * a) * b == fee * (a * b);
  }

  /** The history after an execution. */
  lemma FeeHistoryGrows(h: History, o: Order, rate: real, price: real, volume: real)
    requires o.parent.None? ==> o.root == o.id && o.id !in h.firstFee
    ensures Grown(h, FeeHistory(h, o, rate, price, volume))
  {
    hide BaseFee, AlmostEq;
  }

  /** What a part of an executed order pays, in terms of the base fee and in terms of the chain. */
  lemma PartShare(h: History, o: Order, rate: real, price: real, volume: real, x: real)
    requires Carries(o, h) && o.quantity > 0.0 && (o.parent.None? ==> o.root == o.id && o.id !in h.firstFee)
    ensures var k := FeeHistory(h, o, rate, price, volume);
            && o.root in k.firstFee && o.root in k.roots
            && (o.root !in k.repriced ==>
                  BaseFee(o, rate, price, volume) * Ratio(x, o.quantity) == Share(k, o.root, x))
  {
    hide Ratio, AlmostEq, Min;
    if o.parent.Some? && o.root in h.firstFee {
      RatioOfRatio(h.firstFee[o.root], x, o.quantity, h.roots[o.root].quantity);
    }
  }

  lemma FillCharged(h: History, o: Order, f: Order, rate: real, price: real, volume: real)
    requires Carries(o, h) && o.quantity > 0.0 && !o.Special()
    requires o.parent.None? ==> o.root == o.id && o.id !in h.firstFee
    requires SameIdentity(o, f) && f.status.Filled?
    requires f.transactionCost == BaseFee(o, rate, price, volume) * Ratio(f.filledQuantity, o.quantity)
    ensures var k := FeeHistory(h, o, rate, price, volume);
            && Charged(f, k)
            && forall r <- k.repriced :: r in h.repriced || TooSmall(f, r, k)
  {
    hide Ratio, Min, BaseFee;
    PartShare(h, o, rate, price, volume, f.filledQuantity);
  }

  lemma ChildCarries(h: History, o: Order, c: Order, rate: real, price: real, volume: real)
    requires Carries(o, h) && o.quantity > 0.0
    requires o.parent.None? ==> o.root == o.id && o.id !in h.firstFee
    requires c.root == o.root && c.symbol == o.symbol && c.parent.Some?
    requires c.transactionCost == BaseFee(o, rate, price, volume) * Ratio(c.quantity, o.quantity)
    ensures Carries(c, FeeHistory(h, o, rate, price, volume))
  {
    hide Ratio, Min, BaseFee;
    PartShare(h, o, rate, price, volume, c.quantity);
  }

  /** What one order does to log, children and history. */
  ghost predicate OrderShares(s: State, p: Processed)
  {
    && Grown(s.history, p.state.history)
    && AllCharged(p.state.log, p.state.history) && RepricedSeen(p.state.log, p.state.history)
    && AllCarry(p.children, p.state.history)
  }

  predicate SameFeeHistory(h: History, k: History)
  {
    k.roots == h.roots && k.firstFee == h.firstFee && k.repriced == h.repriced
  }

  lemma SameHistory(h: History, k: History, o: Order)
    requires SameFeeHistory(h, k)
    ensures Grown(h, k) && Grown(k, h)
    ensures Carries(o, h) <==> Carries(o, k)
    ensures Charged(o, h) <==> Charged(o, k)
    ensures forall r :: TooSmall(o, r, h) <==> TooSmall(o, r, k)
  {
  }

  /** The fees of a fill and of its child are shares of the fee the fill starts from. */
  lemma ExecutedFees(s: State, o: Order, tick: Tick)
    requires Running(s) && Pending(o, o.symbol, s.nextId) && ValidTick(tick) && Judge(s, o, tick).Execute?
    ensures var v, f, p := Judge(s, o, tick), FillOf(s, o, tick), ProcessOrder(s, o, tick);
            && SameIdentity(o, f) && f.status.Filled?
            && f.transactionCost == BaseFee(o, s.rate, v.price, v.volume) * Ratio(f.filledQuantity, o.quantity)
            && forall c <- p.children ::
                 && c.root == o.root && c.symbol == o.symbol && c.parent == Some(o.id)
                 && c.transactionCost == BaseFee(o, s.rate, v.price, v.volume) * Ratio(c.quantity, o.quantity)
  {
    hide ProcessOrder, FilledOrder, BaseFee, Ratio, Judge, OnGrid, AfterDelivery;
    var v := Judge(s, o, tick);
    ExecuteFacts(s, o, tick);
    FilledFacts(o, s.rate, v.price, v.volume, PositionOf(s, o.symbol).avgPrice);
    Executed(s, o, tick);
  }

  lemma UnexecutedShares(s: State, o: Order, tick: Tick)
    requires Running(s) && Pending(o, o.symbol, s.nextId) && ValidTick(tick) && !Judge(s, o, tick).Execute?
    requires AllCharged(s.log, s.history) && RepricedSeen(s.log, s.history)
    ensures OrderShares(s, ProcessOrder(s, o, tick))
  {
    hide ProcessOrder, Judge, Carries, TooSmall, Share, Running, RootKnown;
    var p := ProcessOrder(s, o, tick);
    UnexecutedLists(s, o, tick);
    OrderFeeHistory(s, o, tick);
    OrderRegister(s, o, tick);
    SameHistory(s.history, p.state.history, o);
    AllLater([], s.log, s.history, p.state.history);
    SeenStill(s.log, p.state.log, s.history, p.state.history);
  }

  lemma ExecutedShares(s: State, o: Order, tick: Tick)
    requires Running(s) && Pending(o, o.symbol, s.nextId) && ValidTick(tick) && Judge(s, o, tick).Execute?
    requires AllCharged(s.log, s.history) && RepricedSeen(s.log, s.history) && Carries(o, s.history)
    requires o.parent.None? ==> o.id !in s.history.firstFee
    ensures OrderShares(s, ProcessOrder(s, o, tick))
  {
    hide ProcessOrder, Judge, Carries, Charged, TooSmall, FillOf, Running, FeeHistory, BaseFee, Ratio, RepricedSeen,
      Grown, FeeAdded;
    var v, f, p := Judge(s, o, tick), FillOf(s, o, tick), ProcessOrder(s, o, tick);
    var h := s.history;
    var k := FeeHistory(h, o, s.rate, v.price, v.volume);
    ExecutedLists(s, o, tick);
    ExecutedFees(s, o, tick);
    FeeHistoryGrows(h, o, s.rate, v.price, v.volume);
    FillCharged(h, o, f, s.rate, v.price, v.volume);
    AllLater([], s.log, h, k);
    SeenLater(s.log, h, k, f);
    forall c | c in p.children ensures Carries(c, k) {
      ChildCarries(h, o, c, s.rate, v.price, v.volume);
    }
    ExecutedHistory(s, o, tick);
    HistoryMatters(p.state.log, p.children, h, k, p.state.history);
  }

  lemma ExecutedHistory(s: State, o: Order, tick: Tick)
    requires Running(s) && Pending(o, o.symbol, s.nextId) && ValidTick(tick) && Judge(s, o, tick).Execute?
    ensures var v := Judge(s, o, tick);
            SameFeeHistory(FeeHistory(s.history, o, s.rate, v.price, v.volume), ProcessOrder(s, o, tick).state.history)
  {
    hide ProcessOrder, Judge, FillOf, BaseFee, Running, Pending;
    OrderFeeHistory(s, o, tick);
    OrderRegister(s, o, tick);
  }

  lemma HistoryMatters(log: seq<Order>, children: seq<Order>, h: History, k: History, m: History)
    requires Grown(h, k) && SameFeeHistory(k, m)
    requires AllCharged(log, k) && RepricedSeen(log, k) && AllCarry(children, k)
    ensures Grown(h, m) && AllCharged(log, m) && RepricedSeen(log, m) && AllCarry(children, m)
  {
    hide Carries, Charged, TooSmall;
    AllLater(children, log, k, m);
    SeenStill(log, log, k, m);
  }

  lemma OrderKeepsShares(s: State, o: Order, tick: Tick)
    requires Running(s) && Pending(o, o.symbol, s.nextId) && ValidTick(tick)
    requires AllCharged(s.log, s.history) && RepricedSeen(s.log, s.history) && Carries(o, s.history)
    requires o.parent.None? ==> o.id !in s.history.firstFee
    ensures OrderShares(s, ProcessOrder(s, o, tick))
  {
    hide ProcessOrder, Judge, Carries, AllCharged, RepricedSeen, OrderShares, Running, Pending;
    if Judge(s, o, tick).Execute? {
      ExecutedShares(s, o, tick);
    } else {
      UnexecutedShares(s, o, tick);
    }
  }

  // ---- Queue passes, steps and runs --------------------------------------------------------

  ghost predicate SweepShares(s: State, w: Swept)
  {
    && Grown(s.history, w.state.history)
    && AllCharged(w.state.log, w.state.history) && RepricedSeen(w.state.log, w.state.history)
    && AllCarry(w.children, w.state.history)
  }

  lemma SweepSharesMore(s: State, w: Swept, p: Processed)
    requires SweepShares(s, w) && OrderShares(w.state, p)
    ensures SweepShares(s, Swept(p.state, w.visited + [p.order], w.children + p.children))
  {
    hide Carries, AllCharged, RepricedSeen;
    AllLater(w.children, [], w.state.history, p.state.history);
  }

  lemma StillPending(o: Order, y: Symbol, a: int, b: int)
    requires Pending(o, y, a) && a <= b
    ensures Pending(o, o.symbol, b) && o.symbol == y
  {
  }

  lemma NoSweepShares(s: State, tick: Tick)
    requires AllCharged(s.log, s.history) && RepricedSeen(s.log, s.history)
    ensures SweepShares(s, Sweep(s, [], tick))
  {
  }

  lemma {:induction false} SweepKeepsShares(s: State, orders: seq<Order>, tick: Tick, y: Symbol)
    requires Running(s) && QueueOk(orders, y, s.nextId) && ValidTick(tick)
    requires FirstFills(s.log, s.history, s.rate) && NotYetCharged(orders, s.history)
    requires AllCharged(s.log, s.history) && RepricedSeen(s.log, s.history) && AllCarry(orders, s.history)
    ensures SweepShares(s, Sweep(s, orders, tick))
    decreases |orders|
  {
    hide ProcessOrder, Carries, AllCharged, RepricedSeen, Grown, OrderShares, Running, Pending, FirstFills;
    if orders == [] {
      NoSweepShares(s, tick);
    } else {
      var n := |orders| - 1;
      QueuePrefix(orders, y, s.nextId);
      SweepCore(s, orders[..n], tick, y);
      assert orders[n] in orders && forall o <- orders[..n] :: o in orders;
      SweepKeepsShares(s, orders[..n], tick, y);
      SweepFeesKept(s, orders[..n], tick, y);
      NotChargedBySweep(s, orders, tick, y);
      var w := Sweep(s, orders[..n], tick);
      CarriesLater(orders[n], s.history, w.state.history);
      StillPending(orders[n], y, s.nextId, w.state.nextId);
      OrderKeepsShares(w.state, orders[n], tick);
      SweepSharesMore(s, w, ProcessOrder(w.state, orders[n], tick));
    }
  }

  lemma NormalShares(s: State, tick: Tick)
    requires Core(s) && Fees(s) && Shares(s) && ValidTick(tick)
    ensures Shares(ProcessNormalOrder(s, tick))
  {
    hide ProcessOrder, Sweep, Carries, AllCharged, RepricedSeen, Grown, FeesConserved, FirstFills, NotYetCharged;
    if tick.symbol in s.queues {
      var y, orders := tick.symbol, s.queues[tick.symbol];
      SweepCore(s, orders, tick, y);
      SweepKeepsShares(s, orders, tick, y);
      SurvivorsWereQueued(s, orders, tick, y);
      var w, t := Sweep(s, orders, tick), ProcessNormalOrder(s, tick);
      AllLater(orders, [], s.history, w.state.history);
      forall z | z in t.queues ensures AllCarry(t.queues[z], t.history) {
        if z != y {
          AllLater(s.queues[z], [], s.history, w.state.history);
        }
      }
    }
  }

  lemma TickShares(s: State, tick: Tick)
    requires Core(s) && Book(s) && Fees(s) && Shares(s) && ValidTick(tick)
    ensures Shares(TickStep(s, tick))
  {
    hide ProcessNormalOrder, AllCharged, RepricedSeen, AllCarry, Core, Book, Fees, Marked, Total, Empty;
    var a := if Empty(PositionOf(s, tick.symbol)) then s else MarkPosition(s, tick.symbol, tick.last);
    MarkCore(s, tick.symbol, tick.last);
    SameBook(s, a);
    SameFees(s, a);
    NormalShares(a, tick);
  }

  /** A new order starts a chain of its own. */
  lemma NewOrderCarries(s: State, t: State, o: Order)
    requires o.root == o.id && o.parent.None? && o.quantity > 0.0
    requires t.history.roots == s.history.roots[o.id := Root(o.symbol, o.quantity)]
    ensures Carries(o, t.history)
  {
  }

  lemma CommitGrows(s: State, t: State, o: Order)
    requires Book(s) && Committed(s, t, o)
    requires t.history.firstFee == s.history.firstFee && t.history.repriced == s.history.repriced
    ensures Grown(s.history, t.history) && o.id !in s.history.roots
  {
    hide QueuesHomed, LogHomed, OncePerId, ChainsConserved;
  }

  lemma CommitLogs(s: State, q: Request)
    requires ValidRequest(q)
    ensures forall x <- CommitStep(s, q).log :: x in s.log || x.Special()
    ensures forall x <- s.log :: x in CommitStep(s, q).log
    ensures var t, o := CommitStep(s, q), NewOrder(s, q);
            forall y <- t.queues :: (y in s.queues && t.queues[y] == s.queues[y])
              || (t.queues[y] == QueueOf(s, y) + [o] && o.quantity > 0.0
                  && t.history.roots == s.history.roots[o.id := Root(o.symbol, o.quantity)])
  {
    hide SpecialStep;
    CommitOrderShape(Issued(s, q.symbol), NewOrder(s, q));
  }

  lemma CommitShares(s: State, q: Request)
    requires Core(s) && Book(s) && Shares(s) && ValidRequest(q)
    ensures Shares(CommitStep(s, q))
  {
    hide CommitStep, Carries, Charged, RepricedSeen, Grown, Core, Book, ValidRequest, Committed;
    var t, o := CommitStep(s, q), NewOrder(s, q);
    CommitShape(s, q);
    CommitGrows(s, t, o);
    CommitLogs(s, q);
    AllLater([], s.log, s.history, t.history);
    SeenStill(s.log, t.log, s.history, t.history);
    forall x | x in t.log ensures Charged(x, t.history) {
      if x !in s.log {
        SpecialCharged(x, t.history);
      }
    }
    forall y | y in t.queues ensures AllCarry(t.queues[y], t.history) {
      AllLater(QueueOf(s, y), [], s.history, t.history);
      if !(y in s.queues && t.queues[y] == s.queues[y]) {
        NewOrderCarries(s, t, o);
      }
    }
  }

  lemma SpecialCharged(o: Order, h: History)
    requires o.Special()
    ensures Charged(o, h)
  {
  }

  lemma StepShares(s: State, e: Event)
    requires Core(s) && Book(s) && Fees(s) && Shares(s) && ValidEvent(e)
    ensures Shares(Step(s, e))
  {
    hide CommitStep, TickStep, AllCharged, RepricedSeen, AllCarry, Book, Fees, Total;
    match e
    case Commit(q) => CommitShares(s, q);
    case OnTick(tick) => TickShares(s, tick);
    case Settle(klines) => SettleCore(s, klines);
  }

  lemma {:induction false} RunShares(s: State, events: seq<Event>)
    requires Core(s) && Book(s) && Fees(s) && Shares(s) && ValidEvents(events) && s.nextId >= FIRST_ID
    ensures Shares(Run(s, events))
    decreases |events|
  {
    hide Step, Core, Book, Fees, Shares;
    if events != [] {
      var n := |events| - 1;
      RunShares(s, events[..n]);
      RunCore(s, events[..n]);
      RunBook(s, events[..n]);
      RunFees(s, events[..n]);
      StepShares(Run(s, events[..n]), events[n]);
    }
  }

  lemma ReachableShares(s: State)
    requires Reachable(s)
    ensures Shares(s)
  {
    hide Core, Book, Fees;
    var slippage: int, rate: real, events: seq<Event> :|
      slippage >= 0 && rate >= 0.0 && ValidEvents(events) && s == Run(Initial(slippage, rate), events);
    InitialCore(slippage, rate);
    InitialBook(slippage, rate);
    InitialFees(slippage, rate);
    RunShares(Initial(slippage, rate), events);
  }

  // ---- What it means -----------------------------------------------------------------------

  /** The first fill of a chain, in the log. */
  predicate IsFirstFill(o: Order)
  {
    o.status.Filled? && o.parent.None? && !o.Special()
  }

  /** The share of an order in the commission of the first fill of its chain. */
  function ShareOf(first: Order, rate: real, quantity: real): (fee: real)
  {
    Commission(first, rate) * Ratio(quantity, first.quantity)
  }

  /** No child order was filled whose share of the first commission was within the tolerance of
      zero. */
  predicate SharesSeen(log: seq<Order>, first: Order, rate: real)
  {
    forall c <- log :: c.root == first.id && c.status.Filled? && c.parent.Some? && !c.Special() ==>
      !AlmostZero(ShareOf(first, rate, c.quantity))
  }

  lemma ShareIs(s: State, first: Order, quantity: real)
    requires Reachable(s) && first in s.log && IsFirstFill(first)
    ensures first.id in s.history.firstFee && first.id in s.history.roots && first.root == first.id
    ensures s.history.roots[first.id].symbol == first.symbol
    ensures Share(s.history, first.id, quantity) == ShareOf(first, s.rate, quantity)
  {
    hide Ratio, Book, Commission;
    ReachableShares(s);
    ReachableFees(s);
    assert Charged(first, s.history);
  }

  /** Exactly in these chains no fee was ever replaced. */
  lemma ReplacedExactly(s: State, first: Order)
    requires Reachable(s) && first in s.log && IsFirstFill(first)
    ensures first.id !in s.history.repriced <==> SharesSeen(s.log, first, s.rate)
  {
    hide Share, ShareOf, RootKnown;
    ReachableShares(s);
    if first.id in s.history.repriced {
      var c :| c in s.log && TooSmall(c, first.id, s.history);
      ShareIs(s, first, c.quantity);
    } else {
      forall c | c in s.log && c.root == first.id && c.status.Filled? && c.parent.Some? && !c.Special()
        ensures !AlmostZero(ShareOf(first, s.rate, c.quantity))
      {
        ShareIs(s, first, c.quantity);
        assert Charged(c, s.history);
      }
    }
  }

  /** However many partial fills follow: unless a share was too small, every member of a chain that
      was filled was charged its share of the commission of the first fill. */
  lemma EveryFillPaysItsShare(s: State, first: Order, o: Order)
    requires Reachable(s) && first in s.log && IsFirstFill(first) && SharesSeen(s.log, first, s.rate)
    requires o in s.log && o.root == first.id && o.status.Filled? && !o.Special()
    ensures o.transactionCost == ShareOf(first, s.rate, o.filledQuantity)
  {
    hide Share, ShareOf, RootKnown, SharesSeen;
    ReachableShares(s);
    ReplacedExactly(s, first);
    ShareIs(s, first, o.filledQuantity);
    assert Charged(o, s.history);
  }

  /** And its open member carries the share of what is left. */
  lemma TheRestCarriesItsShare(s: State, first: Order, o: Order, y: Symbol)
    requires Reachable(s) && first in s.log && IsFirstFill(first) && SharesSeen(s.log, first, s.rate)
    requires o in QueueOf(s, y) && o.root == first.id && o.parent.Some?
    ensures o.transactionCost == ShareOf(first, s.rate, o.quantity)
  {
    hide Share, ShareOf, RootKnown, SharesSeen;
    ReachableShares(s);
    ReplacedExactly(s, first);
    ShareIs(s, first, o.quantity);
    assert Carries(o, s.history);
  }

  /** In every chain, the fees charged and the fee that its open member carries add up to the
      commission of the first fill and what replaced fees have added, which is nothing in the
      chains in which no share was too small. */
  lemma FeeConservation(s: State, first: Order, y: Symbol)
    requires Reachable(s) && first in s.log && IsFirstFill(first) && first.symbol == y
    ensures Sum(ChainFee(first.id), s.log) + Sum(ChainFee(first.id), QueueOf(s, y))
         == Commission(first, s.rate) + Surcharge(s.history, first.id)
    ensures SharesSeen(s.log, first, s.rate) ==> Surcharge(s.history, first.id) == 0.0
  {
    hide Share, ShareOf, Reachable, SharesSeen;
    ReplacedExactly(s, first);
    ShareIs(s, first, 0.0);
    ChainFeesAddUp(s, first);
  }
}
