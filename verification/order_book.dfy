/** No order is lost or duplicated, and along every chain of partial fills quantity is conserved. */
module OrderBook {
  import opened Approx
  import opened CerebroStruct
  import opened PositionTracker
  import opened BrokerSpec
  import opened BrokerCore
  import opened OrderSums

  /** A measure of the log and of one queue together. */
  function TotalOf(m: Measure, s: State, y: Symbol): (r: real)
  {
    Sum(m, s.log) + Sum(m, QueueOf(s, y))
  }

  /** An order that is queued where its id, and its chain's root, belong. */
  predicate Homed(o: Order, y: Symbol, h: History)
  {
    && o.id in h.home && h.home[o.id] == y
    && o.root in h.roots && h.roots[o.root].symbol == y
  }

  ghost predicate Registered(h: History, nextId: int)
  {
    && (forall id :: id in h.home <==> FIRST_ID <= id < nextId)
    && (forall r <- h.roots :: r in h.home && h.home[r] == h.roots[r].symbol)
  }

  predicate QueuesHomed(s: State)
  {
    forall y <- s.queues :: forall o <- s.queues[y] :: Homed(o, y, s.history)
  }

  predicate LogHomed(log: seq<Order>, h: History)
  {
    forall o <- log :: o.id in h.home && o.root in h.home
  }

  /** Every id issued so far is in exactly one place. */
  predicate OncePerId(s: State)
  {
    forall id <- s.history.home :: TotalOf(Occurrences(id), s, s.history.home[id]) == 1.0
  }

  /** What was filled along a chain, plus the one member that is pending or rejected if there is
      one, is what was ordered. */
  predicate ChainsConserved(s: State)
  {
    forall r <- s.history.roots ::
      && TotalOf(ChainQuantity(r), s, s.history.roots[r].symbol) == s.history.roots[r].quantity
      && TotalOf(ChainOpen(r), s, s.history.roots[r].symbol) <= 1.0
  }

  ghost predicate Book(s: State)
  {
    && Registered(s.history, s.nextId) && QueuesHomed(s) && LogHomed(s.log, s.history)
    && OncePerId(s) && ChainsConserved(s)
  }

  // ---- History along a queue pass ---------------------------------------------------------

  predicate SameRegister(h: History, k: History)
  {
    k.roots == h.roots && k.home == h.home && k.largest == h.largest
  }

  ghost predicate KeepsOrders(s: State, t: State)
  {
    && t.queues == s.queues && t.log == s.log && t.nextId == s.nextId && t.rate == s.rate
    && SameRegister(s.history, t.history)
    && t.history.firstFee == s.history.firstFee && t.history.repriced == s.history.repriced
  }

  lemma ReceiveKeeps(s: State, y: Symbol, q: real, price: real, fee: real)
    ensures KeepsOrders(s, Receive(s, y, q, price, fee))
  {
    hide Bought, AlmostEq;
  }

  lemma ReleaseKeeps(s: State, y: Symbol, q: real, price: real, fee: real)
    ensures KeepsOrders(s, Release(s, y, q, price, fee))
  {
    hide Sold, ClosingGain, AlmostEq;
  }

  lemma DeliverKeeps(s: State, f: Order)
    ensures KeepsOrders(s, Deliver(s, f))
  {
    hide Receive, Release;
    ReceiveKeeps(s, f.symbol, f.filledQuantity, f.filledPrice, f.transactionCost);
    ReleaseKeeps(s, f.symbol, f.filledQuantity, f.filledPrice, f.transactionCost);
  }

  /** Only a child order is entered in the register. */
  lemma OrderRegister(s: State, o: Order, tick: Tick)
    requires Running(s) && Pending(o, o.symbol, s.nextId) && ValidTick(tick)
    ensures var p := ProcessOrder(s, o, tick);
            && p.state.history.roots == s.history.roots && p.state.history.largest == s.history.largest
            && p.state.history.home == (if p.children == [] then s.history.home else s.history.home[s.nextId := o.symbol])
            && (forall c <- p.children :: c.root == o.root)
            && (p.order.Finished() ==> p.order.root == o.root)
  {
    hide FilledOrder, ChildOf, Deliver, JudgeLimit, JudgeMarket;
    if Judge(s, o, tick).Execute? {
      Executed(s, o, tick);
      DeliverKeeps(BeforeDelivery(s, o, tick), FillOf(s, o, tick));
      var f := FillOf(s, o, tick);
      GridIsExact(f.unfilledQuantity, f.unfilledQuantity);
    } else {
      ZeroOnGrid();
    }
  }

  ghost predicate SweepRegistered(s: State, w: Swept, y: Symbol)
  {
    var h, k := s.history, w.state.history;
    && k.roots == h.roots && k.largest == h.largest
    && Registered(k, w.state.nextId)
    && (forall id <- h.home :: id in k.home && k.home[id] == h.home[id])
    && (forall id :: s.nextId <= id < w.state.nextId ==> id in k.home && k.home[id] == y)
    && (forall c <- w.children :: Homed(c, y, k))
    && LogHomed(w.state.log, k)
  }

  lemma {:induction false} SweepRegister(s: State, orders: seq<Order>, tick: Tick, y: Symbol)
    requires Running(s) && QueueOk(orders, y, s.nextId) && ValidTick(tick)
    requires Registered(s.history, s.nextId) && LogHomed(s.log, s.history)
    requires forall o <- orders :: Homed(o, y, s.history)
    requires s.nextId >= FIRST_ID
    ensures SweepRegistered(s, Sweep(s, orders, tick), y)
    decreases |orders|
  {
    hide ProcessOrder;
    if orders != [] {
      var n := |orders| - 1;
      assert orders[n] in orders && forall o <- orders[..n] :: o in orders;
      QueuePrefix(orders, y, s.nextId);
      SweepCore(s, orders[..n], tick, y);
      SweepRegister(s, orders[..n], tick, y);
      var w := Sweep(s, orders[..n], tick);
      ProcessOrderCore(w.state, orders[n], tick);
      OrderRegister(w.state, orders[n], tick);
      RegisterExtend(s, w, orders[n], ProcessOrder(w.state, orders[n], tick), y);
    }
  }

  lemma RegisterExtend(s: State, w: Swept, o: Order, p: Processed, y: Symbol)
    requires Homed(o, y, s.history) && o.symbol == y && s.nextId <= w.state.nextId && s.nextId >= FIRST_ID
    requires Registered(s.history, s.nextId)
    requires SweepRegistered(s, w, y) && OrderOutcome(w.state, o, p)
    requires p.state.history.roots == w.state.history.roots && p.state.history.largest == w.state.history.largest
    requires p.state.history.home == (if p.children == [] then w.state.history.home
                                      else w.state.history.home[w.state.nextId := y])
    requires forall c <- p.children :: c.root == o.root
    requires p.order.Finished() ==> p.order.root == o.root
    ensures SweepRegistered(s, Swept(p.state, w.visited + [p.order], w.children + p.children), y)
  {
  }

  /** Every survivor was in the queue before. */
  lemma SurvivorsWereQueued(s: State, orders: seq<Order>, tick: Tick, y: Symbol)
    requires Running(s) && QueueOk(orders, y, s.nextId) && ValidTick(tick)
    ensures forall o <- Unfinished(Sweep(s, orders, tick).visited) :: o in orders
  {
    hide ProcessOrder;
    SweepCore(s, orders, tick, y);
    var w := Sweep(s, orders, tick);
    forall o | o in Unfinished(w.visited) ensures o in orders {
      UnfinishedMember(w.visited, o);
      var i :| 0 <= i < |orders| && w.visited[i] == o;
    }
  }

  /** A measure that no order of the ticked symbol carries is not changed by the tick, and any
      other is changed as the queue pass changes it. */
  lemma NormalTotals(m: Measure, s: State, tick: Tick, z: Symbol)
    requires Core(s) && ValidTick(tick) && tick.symbol in s.queues
    requires var w := Sweep(s, s.queues[tick.symbol], tick);
             z == tick.symbol || ((forall o <- s.queues[tick.symbol] :: Weight(m, o) == 0.0)
                                  && (forall c <- w.children :: Weight(m, c) == 0.0))
    ensures var orders := s.queues[tick.symbol];
            TotalOf(m, ProcessNormalOrder(s, tick), z) - TotalOf(m, s, z)
            == Gross(m, Sweep(s, orders, tick)) - Sum(m, s.log) - Sum(m, orders)
  {
    hide ProcessOrder;
    var y := tick.symbol;
    var orders := s.queues[y];
    var w := Sweep(s, orders, tick);
    SweepCore(s, orders, tick, y);
    if z == y {
      SumConcat(m, Unfinished(w.visited), w.children);
    } else {
      SurvivorsWereQueued(s, orders, tick, y);
      SumZero(m, orders);
      SumZero(m, Unfinished(w.visited));
      SumZero(m, w.children);
    }
  }

  lemma NormalOnce(s: State, tick: Tick)
    requires Core(s) && Book(s) && ValidTick(tick) && tick.symbol in s.queues && s.nextId >= FIRST_ID
    ensures OncePerId(ProcessNormalOrder(s, tick))
  {
    hide ProcessOrder;
    var y := tick.symbol;
    var orders := s.queues[y];
    var w := Sweep(s, orders, tick);
    SweepCore(s, orders, tick, y);
    SweepRegister(s, orders, tick, y);
    var t := ProcessNormalOrder(s, tick);
    forall id | id in t.history.home ensures TotalOf(Occurrences(id), t, t.history.home[id]) == 1.0 {
      SweepOccurrences(id, s, orders, tick, y);
      NormalTotals(Occurrences(id), s, tick, t.history.home[id]);
      if id >= s.nextId {
        SumZero(Occurrences(id), s.log);
        SumZero(Occurrences(id), orders);
      }
    }
  }

  lemma NormalChain(s: State, tick: Tick, r: int)
    requires Core(s) && Book(s) && ValidTick(tick) && tick.symbol in s.queues && s.nextId >= FIRST_ID
    requires r in s.history.roots
    ensures var t, z := ProcessNormalOrder(s, tick), s.history.roots[r].symbol;
            && TotalOf(ChainQuantity(r), t, z) == s.history.roots[r].quantity
            && TotalOf(ChainOpen(r), t, z) <= 1.0
  {
    hide ProcessOrder, TotalOf, Gross, Sum, ProcessNormalOrder;
    var y := tick.symbol;
    var orders := s.queues[y];
    var z := s.history.roots[r].symbol;
    SweepRegister(s, orders, tick, y);
    SweepQuantity(r, s, orders, tick, y);
    SweepOpen(r, s, orders, tick, y);
    NormalTotals(ChainQuantity(r), s, tick, z);
    NormalTotals(ChainOpen(r), s, tick, z);
  }

  lemma NormalChains(s: State, tick: Tick)
    requires Core(s) && Book(s) && ValidTick(tick) && tick.symbol in s.queues && s.nextId >= FIRST_ID
    ensures ChainsConserved(ProcessNormalOrder(s, tick))
  {
    hide ProcessOrder, TotalOf, Core, Book;
    var t := ProcessNormalOrder(s, tick);
    NormalKeepsRoots(s, tick);
    forall r | r in t.history.roots
      ensures TotalOf(ChainQuantity(r), t, t.history.roots[r].symbol) == t.history.roots[r].quantity
      ensures TotalOf(ChainOpen(r), t, t.history.roots[r].symbol) <= 1.0
    {
      NormalChain(s, tick, r);
    }
  }

  lemma NormalKeepsRoots(s: State, tick: Tick)
    requires Core(s) && Book(s) && ValidTick(tick) && tick.symbol in s.queues && s.nextId >= FIRST_ID
    ensures ProcessNormalOrder(s, tick).history.roots == s.history.roots
  {
    hide ProcessOrder;
    SweepRegister(s, s.queues[tick.symbol], tick, tick.symbol);
  }

  lemma NormalBook(s: State, tick: Tick)
    requires Core(s) && Book(s) && ValidTick(tick) && s.nextId >= FIRST_ID
    ensures Book(ProcessNormalOrder(s, tick))
    ensures ProcessNormalOrder(s, tick).nextId >= s.nextId
  {
    hide ProcessOrder;
    var y := tick.symbol;
    if y in s.queues {
      var orders := s.queues[y];
      SweepCore(s, orders, tick, y);
      SweepRegister(s, orders, tick, y);
      SurvivorsWereQueued(s, orders, tick, y);
      NormalOnce(s, tick);
      NormalChains(s, tick);
      var t := ProcessNormalOrder(s, tick);
      forall z, o | z in t.queues && o in t.queues[z] ensures Homed(o, z, t.history) {
        assert z == y || o in s.queues[z];
      }
    }
  }

  /** Steps that only touch positions and account leave the book alone. */
  lemma SameBook(s: State, t: State)
    requires Book(s)
    requires t.queues == s.queues && t.log == s.log && t.nextId == s.nextId && SameRegister(s.history, t.history)
    ensures Book(t)
  {
    forall id | id in t.history.home ensures TotalOf(Occurrences(id), t, t.history.home[id]) == 1.0 {
      assert TotalOf(Occurrences(id), t, t.history.home[id]) == TotalOf(Occurrences(id), s, s.history.home[id]);
    }
    forall r | r in t.history.roots
      ensures TotalOf(ChainQuantity(r), t, t.history.roots[r].symbol) == t.history.roots[r].quantity
      ensures TotalOf(ChainOpen(r), t, t.history.roots[r].symbol) <= 1.0
    {
      var z := t.history.roots[r].symbol;
      assert TotalOf(ChainQuantity(r), t, z) == TotalOf(ChainQuantity(r), s, z);
      assert TotalOf(ChainOpen(r), t, z) == TotalOf(ChainOpen(r), s, z);
    }
  }

  lemma AfterOrdersBook(s: State, tick: Tick)
    requires Core(s) && Book(s) && ValidTick(tick) && s.nextId >= FIRST_ID
    ensures Book(AfterOrders(s, tick)) && AfterOrders(s, tick).nextId >= FIRST_ID
  {
    hide Book, Core, Marked, ProcessNormalOrder, Empty;
    var a := if Empty(PositionOf(s, tick.symbol)) then s else MarkPosition(s, tick.symbol, tick.last);
    MarkCore(s, tick.symbol, tick.last);
    SameBook(s, a);
    NormalBook(a, tick);
  }

  lemma TickBook(s: State, tick: Tick)
    requires Core(s) && Book(s) && ValidTick(tick) && s.nextId >= FIRST_ID
    ensures Book(TickStep(s, tick)) && TickStep(s, tick).nextId >= FIRST_ID
  {
    hide Book, Core, Marked, AfterOrders, Total;
    AfterOrdersBook(s, tick);
    SameBook(AfterOrders(s, tick), TickStep(s, tick));
  }

  // ---- Commits ----------------------------------------------------------------------------

  /** What a commit does to queues, log and register: the order is queued and becomes a root, or
      it is logged at once. */
  ghost predicate Committed(s: State, t: State, o: Order)
  {
    && o.id == s.nextId && o.root == s.nextId && t.nextId == s.nextId + 1
    && t.history.home == s.history.home[o.id := o.symbol]
    && (if |t.log| == |s.log| then
          && t.log == s.log && o.status.PendingNew?
          && t.queues == s.queues[o.symbol := QueueOf(s, o.symbol) + [o]]
          && t.history.roots == s.history.roots[o.id := Root(o.symbol, o.quantity)]
        else
          && t.queues == s.queues && t.history.roots == s.history.roots
          && |t.log| == |s.log| + 1 && t.log == s.log + [t.log[|s.log|]]
          && t.log[|s.log|].id == o.id && t.log[|s.log|].root == o.root
          && t.log[|s.log|].transactionCost == o.transactionCost)
  }

  lemma DividendKeeps(s: State, o: Order)
    ensures KeepsOrders(s, DividendStep(s, o))
  {
    hide Receive, AlmostEq;
    ReceiveKeeps(s, o.symbol, o.quantity, 0.0, o.transactionCost);
  }

  lemma SpecialKeeps(s: State, o: Order)
    ensures KeepsOrders(s, SpecialStep(s, o))
  {
    hide DividendStep, DepositStep, WithdrawStep, KeepsOrders;
    DividendKeeps(s, o);
    MoneyKeeps(s, o);
    assert KeepsOrders(s, s) by { Unchanged(s); }
  }

  lemma Unchanged(s: State)
    ensures KeepsOrders(s, s)
  {
  }

  lemma MoneyKeeps(s: State, o: Order)
    ensures KeepsOrders(s, DepositStep(s, o)) && KeepsOrders(s, WithdrawStep(s, o))
  {
    hide Amount, SpecialFails;
  }

  lemma CommitOrderShape(s: State, o: Order)
    requires o.status.PendingNew? || o.status.Filled?
    ensures var t := CommitOrder(s, o);
            && t.nextId == s.nextId && t.rate == s.rate && t.history.home == s.history.home
            && t.history.firstFee == s.history.firstFee && t.history.repriced == s.history.repriced
    ensures o.status.PendingNew? && !o.Special() ==>
              var t := CommitOrder(s, o);
              && t.log == s.log && t.queues == s.queues[o.symbol := QueueOf(s, o.symbol) + [o]]
              && t.history.roots == s.history.roots[o.id := Root(o.symbol, o.quantity)]
    ensures o.status.Filled? || o.Special() ==>
              var t := CommitOrder(s, o);
              && t.queues == s.queues && t.history.roots == s.history.roots
              && (t.log == s.log + [o.(status := Filled)] || t.log == s.log + [o.(status := Rejected)])
  {
    hide SpecialStep;
    SpecialKeeps(s, o);
  }

  lemma CommitShape(s: State, q: Request)
    ensures Committed(s, CommitStep(s, q), NewOrder(s, q))
    ensures CommitStep(s, q).history.firstFee == s.history.firstFee
    ensures CommitStep(s, q).history.repriced == s.history.repriced
  {
    hide SpecialStep;
    CommitOrderShape(Issued(s, q.symbol), NewOrder(s, q));
  }

  lemma NewIdUnused(s: State, y: Symbol)
    requires Core(s) && Book(s)
    ensures forall o <- s.log :: o.id != s.nextId && o.root != s.nextId
    ensures forall o <- QueueOf(s, y) :: o.id != s.nextId && o.root != s.nextId
  {
  }

  /** A new order adds its own weight to its own place and nothing anywhere else. */
  lemma CommitTotals(m: Measure, s: State, t: State, o: Order, z: Symbol)
    requires Committed(s, t, o)
    ensures TotalOf(m, t, z) == TotalOf(m, s, z) + (if |t.log| == |s.log| then (if z == o.symbol then Weight(m, o) else 0.0)
                                                    else Weight(m, t.log[|s.log|]))
  {
    if |t.log| == |s.log| {
      SumSnoc(m, QueueOf(s, o.symbol), o);
    } else {
      SumSnoc(m, s.log, t.log[|s.log|]);
    }
  }

  /** Before an order is committed nothing counts towards it. */
  lemma NothingYet(m: Measure, s: State, z: Symbol)
    requires Core(s) && Book(s)
    requires m == Occurrences(s.nextId) || m == ChainQuantity(s.nextId) || m == ChainOpen(s.nextId)
          || m == ChainFee(s.nextId)
    ensures TotalOf(m, s, z) == 0.0
  {
    NewIdUnused(s, z);
    SumZero(m, s.log);
    SumZero(m, QueueOf(s, z));
  }

  lemma CommitOnce(s: State, t: State, o: Order)
    requires Core(s) && Book(s) && Committed(s, t, o) && s.nextId >= FIRST_ID
    ensures OncePerId(t)
  {
    forall id | id in t.history.home ensures TotalOf(Occurrences(id), t, t.history.home[id]) == 1.0 {
      var z := t.history.home[id];
      CommitTotals(Occurrences(id), s, t, o, z);
      if id == s.nextId {
        NothingYet(Occurrences(id), s, z);
      } else {
        assert id in s.history.home && z == s.history.home[id];
      }
    }
  }

  lemma CommitChain(s: State, t: State, o: Order, r: int)
    requires Core(s) && Book(s) && Committed(s, t, o) && s.nextId >= FIRST_ID
    requires r in t.history.roots
    ensures var z := t.history.roots[r].symbol;
            TotalOf(ChainQuantity(r), t, z) == t.history.roots[r].quantity && TotalOf(ChainOpen(r), t, z) <= 1.0
  {
    hide TotalOf, Core, QueuesHomed, LogHomed, OncePerId;
    var z := t.history.roots[r].symbol;
    CommitTotals(ChainQuantity(r), s, t, o, z);
    CommitTotals(ChainOpen(r), s, t, o, z);
    if r == s.nextId {
      NothingYet(ChainQuantity(r), s, z);
      NothingYet(ChainOpen(r), s, z);
    } else {
      assert r in s.history.roots && t.history.roots[r] == s.history.roots[r];
    }
  }

  lemma CommitChains(s: State, t: State, o: Order)
    requires Core(s) && Book(s) && Committed(s, t, o) && s.nextId >= FIRST_ID
    ensures ChainsConserved(t)
  {
    hide TotalOf, Core, Book, Committed;
    forall r | r in t.history.roots
      ensures TotalOf(ChainQuantity(r), t, t.history.roots[r].symbol) == t.history.roots[r].quantity
      ensures TotalOf(ChainOpen(r), t, t.history.roots[r].symbol) <= 1.0
    {
      CommitChain(s, t, o, r);
    }
  }

  lemma CommitHomed(s: State, t: State, o: Order)
    requires Core(s) && Book(s) && Committed(s, t, o) && s.nextId >= FIRST_ID
    ensures QueuesHomed(t) && Registered(t.history, t.nextId) && LogHomed(t.log, t.history)
  {
    forall y, p | y in t.queues && p in t.queues[y] ensures Homed(p, y, t.history) {
      assert p in QueueOf(s, y) || p == o;
    }
  }

  lemma CommitBook(s: State, q: Request)
    requires Core(s) && Book(s) && s.nextId >= FIRST_ID
    ensures Book(CommitStep(s, q)) && CommitStep(s, q).nextId == s.nextId + 1
  {
    hide CommitStep;
    var t, o := CommitStep(s, q), NewOrder(s, q);
    CommitShape(s, q);
    CommitOnce(s, t, o);
    CommitChains(s, t, o);
    CommitHomed(s, t, o);
  }

  // ---- Runs -------------------------------------------------------------------------------

  lemma StepBook(s: State, e: Event)
    requires Core(s) && Book(s) && ValidEvent(e) && s.nextId >= FIRST_ID
    ensures Book(Step(s, e)) && Step(s, e).nextId >= FIRST_ID
  {
    hide ProcessOrder;
    match e
    case Commit(q) => CommitBook(s, q);
    case OnTick(tick) => TickBook(s, tick);
    case Settle(klines) =>
      SettleCore(s, klines);
      SameBook(s, Step(s, e));
  }

  lemma {:induction false} RunBook(s: State, events: seq<Event>)
    requires Core(s) && Book(s) && ValidEvents(events) && s.nextId >= FIRST_ID
    ensures Book(Run(s, events)) && Run(s, events).nextId >= FIRST_ID
    decreases |events|
  {
    hide Step;
    if events != [] {
      var n := |events| - 1;
      RunBook(s, events[..n]);
      RunCore(s, events[..n]);
      StepBook(Run(s, events[..n]), events[n]);
    }
  }

  // ---- What it means ----------------------------------------------------------------------

  lemma {:induction false} OccurrencesCount(orders: seq<Order>, id: int)
    ensures Sum(Occurrences(id), orders) == 0.0 <==> forall o <- orders :: o.id != id
    ensures Sum(Occurrences(id), orders) >= 0.0
    ensures (exists o <- orders :: o.id == id) ==> Sum(Occurrences(id), orders) >= 1.0
    ensures Sum(Occurrences(id), orders) <= 1.0 ==>
              forall i, j :: 0 <= i < j < |orders| ==> !(orders[i].id == id && orders[j].id == id)
    decreases |orders|
  {
    if orders != [] {
      var n := |orders| - 1;
      OccurrencesCount(orders[..n], id);
      assert orders == orders[..n] + [orders[n]];
      assert forall o :: o in orders <==> o in orders[..n] || o == orders[n];
    }
  }

  /** Whether an id is in the log, or in the queue of a symbol. */
  predicate InLog(s: State, id: int)
  {
    exists o <- s.log :: o.id == id
  }

  predicate InQueue(s: State, y: Symbol, id: int)
  {
    exists o <- QueueOf(s, y) :: o.id == id
  }

  lemma OnePlace(s: State, id: int)
    requires Book(s) && id in s.history.home
    ensures var z := s.history.home[id];
            && InLog(s, id) != InQueue(s, z, id)
            && (forall y :: InQueue(s, y, id) ==> y == z)
            && (forall i, j :: 0 <= i < j < |s.log| ==> !(s.log[i].id == id && s.log[j].id == id))
  {
    var z := s.history.home[id];
    OccurrencesCount(s.log, id);
    OccurrencesCount(QueueOf(s, z), id);
    assert TotalOf(Occurrences(id), s, z) == 1.0;
  }

  lemma InitialBook(slippage: int, rate: real)
    ensures Book(Initial(slippage, rate))
  {
  }

  lemma ReachableBook(s: State)
    requires Reachable(s)
    ensures Book(s) && s.nextId >= FIRST_ID
  {
    var slippage: int, rate: real, events: seq<Event> :|
      slippage >= 0 && rate >= 0.0 && ValidEvents(events) && s == Run(Initial(slippage, rate), events);
    InitialCore(slippage, rate);
    InitialBook(slippage, rate);
    RunBook(Initial(slippage, rate), events);
  }

  /** In every reachable state exactly the ids handed out so far exist; each is in the log or in
      the queue of one symbol, but not in both. */
  lemma NoOrderLost(s: State, id: int)
    requires Reachable(s)
    ensures if FIRST_ID <= id < s.nextId then
              exists z :: InLog(s, id) != InQueue(s, z, id) && forall y :: InQueue(s, y, id) ==> y == z
            else !InLog(s, id) && forall y :: !InQueue(s, y, id)
  {
    ReachableBook(s);
    if FIRST_ID <= id < s.nextId {
      OnePlace(s, id);
      var z := s.history.home[id];
      assert InLog(s, id) != InQueue(s, z, id) && forall y :: InQueue(s, y, id) ==> y == z;
    }
  }

  /** In every reachable state no list holds an id twice, and every queue is ordered by age: so
      survivors keep their order and child orders stand behind them. */
  lemma NoOrderDuplicated(s: State)
    requires Reachable(s)
    ensures forall i, j :: 0 <= i < j < |s.log| ==> s.log[i].id != s.log[j].id
    ensures forall y <- s.queues :: QueueOk(s.queues[y], y, s.nextId)
  {
    ReachableCore(s);
    ReachableBook(s);
    forall i, j | 0 <= i < j < |s.log| ensures s.log[i].id != s.log[j].id {
      assert s.log[i] in s.log;
      OnePlace(s, s.log[i].id);
    }
  }

  /** Quantity conservation along every split chain: what its filled members filled, plus the
      quantity of its one member that is pending or rejected if there is one, is what its first
      order ordered. */
  lemma QuantityConserved(s: State, r: int)
    requires Reachable(s) && r in s.history.roots
    ensures var root := s.history.roots[r];
            && Sum(ChainQuantity(r), s.log) + Sum(ChainQuantity(r), QueueOf(s, root.symbol)) == root.quantity
            && Sum(ChainOpen(r), s.log) + Sum(ChainOpen(r), QueueOf(s, root.symbol)) <= 1.0
            && (forall y :: y != root.symbol ==> Sum(ChainQuantity(r), QueueOf(s, y)) == 0.0)
  {
    ReachableBook(s);
    var root := s.history.roots[r];
    assert TotalOf(ChainQuantity(r), s, root.symbol) == root.quantity;
    forall y | y != root.symbol ensures Sum(ChainQuantity(r), QueueOf(s, y)) == 0.0 {
      SumZero(ChainQuantity(r), QueueOf(s, y));
    }
  }
}
