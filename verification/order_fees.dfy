/** The fee of a whole chain of partial fills is the commission of its first fill alone. */
module OrderFees {
  import opened Approx
  import opened CerebroStruct
  import opened PositionTracker
  import opened BrokerSpec
  import opened BrokerCore
  import opened OrderSums
  import opened OrderBook

  /** The fee that a chain owes: nothing before its first fill, and then the commission of that and
      what replaced fees have added. */
  function Owed(h: History, r: int): (fee: real)
  {
    (if r in h.firstFee then h.firstFee[r] else 0.0) + Surcharge(h, r)
  }

  /** Fees charged along a chain plus the fee carried by its open member. */
  predicate FeesConserved(s: State)
  {
    forall r <- s.history.roots ::
      TotalOf(ChainFee(r), s, s.history.roots[r].symbol) == Owed(s.history, r)
  }

  /** A filled order that started a chain owes the commission on what it filled. */
  predicate FirstFills(log: seq<Order>, h: History, rate: real)
  {
    forall o <- log :: o.status.Filled? && o.parent.None? && !o.Special() ==>
      o.id in h.firstFee && h.firstFee[o.id] == Commission(o, rate)
  }

  predicate NotYetCharged(q: seq<Order>, h: History)
  {
    forall o <- q :: o.parent.None? ==> o.id !in h.firstFee
  }

  predicate Fees(s: State)
  {
    && FeesConserved(s) && FirstFills(s.log, s.history, s.rate)
    && (forall y <- s.queues :: NotYetCharged(s.queues[y], s.history))
    && (forall r <- s.history.firstFee :: r in s.history.home)
    && (forall r <- s.history.repriced :: r in s.history.home)
  }

  function FinishedIds(orders: seq<Order>): (ids: set<int>)
  {
    set o | o in orders && o.Finished() :: o.id
  }

  lemma OrderFeeHistory(s: State, o: Order, tick: Tick)
    requires Running(s) && Pending(o, o.symbol, s.nextId) && ValidTick(tick)
    ensures var p := ProcessOrder(s, o, tick);
            var v := Judge(s, o, tick);
            var h := if v.Execute? then FeeHistory(s.history, o, s.rate, v.price, v.volume) else s.history;
            && p.state.history.firstFee == h.firstFee && p.state.history.repriced == h.repriced
            && (v.Execute? ==> p.order == FillOf(s, o, tick) && p.order.Finished())
            && (!v.Execute? ==> !p.order.status.Filled?)
  {
    hide FilledOrder, ChildOf, Deliver, JudgeLimit, JudgeMarket;
    if Judge(s, o, tick).Execute? {
      Executed(s, o, tick);
      DeliverKeeps(BeforeDelivery(s, o, tick), FillOf(s, o, tick));
    } else {
      ZeroOnGrid();
    }
  }

  function RootIds(orders: seq<Order>): (ids: set<int>)
  {
    set o | o in orders :: o.root
  }

  lemma RootsSnoc(orders: seq<Order>)
    requires orders != []
    ensures RootIds(orders) == RootIds(orders[..|orders| - 1]) + {orders[|orders| - 1].root}
  {
    var n := |orders| - 1;
    assert orders == orders[..n] + [orders[n]];
  }

  ghost predicate SweepFees(s: State, orders: seq<Order>, w: Swept)
  {
    && w.state.history.firstFee.Keys <= s.history.firstFee.Keys + FinishedIds(w.visited)
    && w.state.history.repriced.Keys <= s.history.repriced.Keys + RootIds(orders)
    && w.state.rate == s.rate
    && FirstFills(w.state.log, w.state.history, s.rate)
  }

  /** What `r` is owed and charged moves together when one more order is processed. */
  ghost predicate FeeGap(r: int, s: State, orders: seq<Order>, w: Swept)
  {
    Gross(ChainFee(r), w) - Owed(w.state.history, r)
    == Sum(ChainFee(r), s.log) + Sum(ChainFee(r), orders) - Owed(s.history, r)
  }

  /** An execution adds to what the chain owes exactly what its fee exceeds the carried one by. */
  lemma OwedGrows(h: History, o: Order, rate: real, price: real, volume: real, r: int)
    requires o.parent.None? ==> o.root == o.id && o.id !in h.firstFee && o.transactionCost == 0.0
    ensures Owed(FeeHistory(h, o, rate, price, volume), r) - Owed(h, r)
         == if o.root == r then BaseFee(o, rate, price, volume) - o.transactionCost else 0.0
  {
  }

  lemma NothingOwed(h: History, k: History, r: int)
    requires h.firstFee == k.firstFee && h.repriced == k.repriced
    ensures Owed(h, r) == Owed(k, r)
  {
  }

  lemma FirstFee(o: Order, rate: real, price: real, volume: real, avg: Double)
    requires AlmostEq(o.transactionCost, 0.0)
    ensures BaseFee(o, rate, price, volume) == Commission(FilledOrder(o, rate, price, volume, avg), rate)
  {
  }

  /** A fill never prices a root order at anything but the commission on what it fills. */
  lemma RootFill(s: State, o: Order, tick: Tick)
    requires Running(s) && Pending(o, o.symbol, s.nextId) && ValidTick(tick)
    requires o.parent.None? && Judge(s, o, tick).Execute?
    ensures var p := ProcessOrder(s, o, tick);
            && p.state.history.firstFee == s.history.firstFee[o.id := Commission(p.order, s.rate)]
            && p.order.id == o.id && p.state.log == s.log + [p.order] && p.state.rate == s.rate
  {
    hide Deliver, ProcessOrder;
    var v := Judge(s, o, tick);
    OrderFeeHistory(s, o, tick);
    ProcessOrderCore(s, o, tick);
    FirstFee(o, s.rate, v.price, v.volume, PositionOf(s, o.symbol).avgPrice);
  }

  lemma OrderFirstFill(s: State, o: Order, tick: Tick)
    requires Running(s) && Pending(o, o.symbol, s.nextId) && ValidTick(tick)
    requires FirstFills(s.log, s.history, s.rate)
    requires o.parent.None? ==> o.id !in s.history.firstFee
    ensures FirstFills(ProcessOrder(s, o, tick).state.log, ProcessOrder(s, o, tick).state.history, s.rate)
  {
    hide ProcessOrder;
    var p := ProcessOrder(s, o, tick);
    OrderFeeHistory(s, o, tick);
    ProcessOrderCore(s, o, tick);
    if o.parent.None? && Judge(s, o, tick).Execute? {
      RootFill(s, o, tick);
    }
    forall x | x in p.state.log && x.status.Filled? && x.parent.None? && !x.Special()
      ensures x.id in p.state.history.firstFee && p.state.history.firstFee[x.id] == Commission(x, s.rate)
    {
      assert x in s.log || x == p.order;
    }
  }

  /** An order is charged for the first time only when it is finished. */
  lemma OrderFeeKeys(s: State, o: Order, tick: Tick)
    requires Running(s) && Pending(o, o.symbol, s.nextId) && ValidTick(tick)
    ensures var p := ProcessOrder(s, o, tick);
            && p.state.history.firstFee.Keys
               <= s.history.firstFee.Keys + (if p.order.Finished() then {p.order.id} else {})
            && p.state.history.repriced.Keys <= s.history.repriced.Keys + {o.root} && p.state.rate == s.rate
  {
    hide ProcessOrder, Judge, FillOf, BaseFee;
    OrderFeeHistory(s, o, tick);
    ProcessOrderCore(s, o, tick);
  }

  lemma FinishedSnoc(visited: seq<Order>, o: Order)
    ensures FinishedIds(visited + [o]) == FinishedIds(visited) + if o.Finished() then {o.id} else {}
  {
  }

  lemma {:induction false} SweepFeesKept(s: State, orders: seq<Order>, tick: Tick, y: Symbol)
    requires Running(s) && QueueOk(orders, y, s.nextId) && ValidTick(tick)
    requires FirstFills(s.log, s.history, s.rate) && NotYetCharged(orders, s.history)
    ensures SweepFees(s, orders, Sweep(s, orders, tick))
    decreases |orders|
  {
    hide ProcessOrder, FirstFills, FinishedIds, RootIds;
    if orders != [] {
      var n := |orders| - 1;
      QueuePrefix(orders, y, s.nextId);
      assert orders[n] in orders && forall o <- orders[..n] :: o in orders;
      SweepCore(s, orders[..n], tick, y);
      SweepFeesKept(s, orders[..n], tick, y);
      var w := Sweep(s, orders[..n], tick);
      NotChargedBySweep(s, orders, tick, y);
      OrderFeeKeys(w.state, orders[n], tick);
      OrderFirstFill(w.state, orders[n], tick);
      RootsSnoc(orders);
      FinishedSnoc(w.visited, ProcessOrder(w.state, orders[n], tick).order);
    }
  }

  /** The last order was not charged by the orders before it. */
  lemma NotChargedBySweep(s: State, orders: seq<Order>, tick: Tick, y: Symbol)
    requires Running(s) && QueueOk(orders, y, s.nextId) && ValidTick(tick) && orders != []
    requires NotYetCharged(orders, s.history)
    requires SweepFees(s, orders[..|orders| - 1], Sweep(s, orders[..|orders| - 1], tick))
    ensures var o := orders[|orders| - 1];
            o.parent.None? ==> o.id !in Sweep(s, orders[..|orders| - 1], tick).state.history.firstFee
  {
    hide ProcessOrder;
    var n := |orders| - 1;
    QueuePrefix(orders, y, s.nextId);
    SweepCore(s, orders[..n], tick, y);
    var w := Sweep(s, orders[..n], tick);
    assert orders[n] in orders;
    forall x | x in w.visited ensures x.id != orders[n].id {
      var i :| 0 <= i < n && w.visited[i] == x;
    }
  }

  lemma {:induction false} SweepFeeGap(r: int, s: State, orders: seq<Order>, tick: Tick, y: Symbol)
    requires Running(s) && QueueOk(orders, y, s.nextId) && ValidTick(tick)
    requires FirstFills(s.log, s.history, s.rate) && NotYetCharged(orders, s.history)
    ensures FeeGap(r, s, orders, Sweep(s, orders, tick))
    decreases |orders|
  {
    hide ProcessOrder, Sweep, Gross, FirstFills, Owed, QueueOk, Running, Pending, Judge, FeeAdded, Change;
    if orders == [] {
      NoGap(r, s, tick);
    } else {
      var n := |orders| - 1;
      QueuePrefix(orders, y, s.nextId);
      assert orders[n] in orders && forall o <- orders[..n] :: o in orders;
      SweepFeeGap(r, s, orders[..n], tick, y);
      SweepFeesKept(s, orders[..n], tick, y);
      SweepChange(ChainFee(r), s, orders, tick, y);
      NotChargedBySweep(s, orders, tick, y);
      var w := Sweep(s, orders[..n], tick);
      OrderOwes(w.state, orders[n], tick, r);
      OrderChange(ChainFee(r), w.state, orders[n], tick);
    }
  }

  lemma OrderOwes(s: State, o: Order, tick: Tick, r: int)
    requires Running(s) && Pending(o, o.symbol, s.nextId) && ValidTick(tick)
    requires o.parent.None? ==> o.id !in s.history.firstFee
    ensures Owed(ProcessOrder(s, o, tick).state.history, r) - Owed(s.history, r)
         == if o.root == r then FeeAdded(s, o, tick) else 0.0
  {
    hide ProcessOrder, Judge, FillOf, BaseFee, Owed, Running;
    OrderFeeHistory(s, o, tick);
    if Judge(s, o, tick).Execute? {
      var v := Judge(s, o, tick);
      OwedGrows(s.history, o, s.rate, v.price, v.volume, r);
      NothingOwed(FeeHistory(s.history, o, s.rate, v.price, v.volume), ProcessOrder(s, o, tick).state.history, r);
    } else {
      NothingOwed(s.history, ProcessOrder(s, o, tick).state.history, r);
    }
  }

  lemma NoGap(r: int, s: State, tick: Tick)
    ensures FeeGap(r, s, [], Sweep(s, [], tick))
  {
  }

  lemma SurvivorsNotCharged(s: State, orders: seq<Order>, tick: Tick, y: Symbol)
    requires Running(s) && QueueOk(orders, y, s.nextId) && ValidTick(tick)
    requires FirstFills(s.log, s.history, s.rate) && NotYetCharged(orders, s.history)
    ensures NotYetCharged(Unfinished(Sweep(s, orders, tick).visited), Sweep(s, orders, tick).state.history)
  {
    hide ProcessOrder, Sweep, FirstFills, Running, Pending, Unfinished, FinishedIds;
    SweepCore(s, orders, tick, y);
    SweepFeesKept(s, orders, tick, y);
    var w := Sweep(s, orders, tick);
    forall o | o in Unfinished(w.visited) && o.parent.None? ensures o.id !in w.state.history.firstFee {
      UnfinishedMember(w.visited, o);
      var i :| 0 <= i < |w.visited| && w.visited[i] == o;
      assert orders[i] in orders;
      NotFinishedHere(orders, w.visited, i);
    }
  }

  /** The ids of a queue differ, so an order that is not finished shares its id with none that is. */
  lemma NotFinishedHere(orders: seq<Order>, visited: seq<Order>, i: nat)
    requires ByAge(orders) && |visited| == |orders| && i < |visited| && !visited[i].Finished()
    requires forall j :: 0 <= j < |visited| ==> visited[j].id == orders[j].id
    ensures visited[i].id !in FinishedIds(visited)
  {
    forall x | x in visited && x.Finished() ensures x.id != visited[i].id {
      var j :| 0 <= j < |visited| && visited[j] == x;
      assert j != i;
    }
  }

  lemma NormalFees(s: State, tick: Tick)
    requires Core(s) && Book(s) && Fees(s) && ValidTick(tick) && s.nextId >= FIRST_ID
    requires tick.symbol in s.queues
    ensures Fees(ProcessNormalOrder(s, tick))
  {
    hide ProcessOrder;
    var y := tick.symbol;
    var orders := s.queues[y];
    var w := Sweep(s, orders, tick);
    SweepCore(s, orders, tick, y);
    SweepRegister(s, orders, tick, y);
    SweepFeesKept(s, orders, tick, y);
    var t := ProcessNormalOrder(s, tick);
    NormalFeesConserved(s, tick);
    NormalQueuesNotCharged(s, tick);
    forall r | r in t.history.firstFee ensures r in t.history.home {
      if r in FinishedIds(w.visited) {
        var i :| 0 <= i < |w.visited| && w.visited[i].id == r;
        assert orders[i] in orders;
      }
    }
    forall r | r in t.history.repriced ensures r in t.history.home {
      if r !in s.history.repriced {
        var o :| o in orders && o.root == r;
        assert Homed(o, y, s.history);
      }
    }
  }

  lemma NormalFeesConserved(s: State, tick: Tick)
    requires Core(s) && Book(s) && Fees(s) && ValidTick(tick) && s.nextId >= FIRST_ID
    requires tick.symbol in s.queues
    ensures FeesConserved(ProcessNormalOrder(s, tick))
  {
    hide ProcessOrder;
    var y := tick.symbol;
    var orders := s.queues[y];
    var t := ProcessNormalOrder(s, tick);
    SweepRegister(s, orders, tick, y);
    forall r | r in t.history.roots
      ensures TotalOf(ChainFee(r), t, t.history.roots[r].symbol) == Owed(t.history, r)
    {
      var z := s.history.roots[r].symbol;
      OtherChains(s, tick, r);
      NormalTotals(ChainFee(r), s, tick, z);
      SweepFeesKept(s, orders, tick, y);
      SweepFeeGap(r, s, orders, tick, y);
      assert TotalOf(ChainFee(r), s, z) == Owed(s.history, r);
    }
  }

  /** A tick touches no chain of another symbol. */
  lemma OtherChains(s: State, tick: Tick, r: int)
    requires Core(s) && Book(s) && ValidTick(tick) && s.nextId >= FIRST_ID
    requires tick.symbol in s.queues && r in s.history.roots
    ensures var orders := s.queues[tick.symbol];
            var w := Sweep(s, orders, tick);
            s.history.roots[r].symbol == tick.symbol
            || ((forall o <- orders :: Weight(ChainFee(r), o) == 0.0)
                && (forall c <- w.children :: Weight(ChainFee(r), c) == 0.0))
  {
    hide ProcessOrder, Sweep, Pending, OncePerId, ChainsConserved, Registered;
    SweepRegister(s, s.queues[tick.symbol], tick, tick.symbol);
  }

  lemma NormalQueuesNotCharged(s: State, tick: Tick)
    requires Core(s) && Book(s) && Fees(s) && ValidTick(tick) && s.nextId >= FIRST_ID
    requires tick.symbol in s.queues
    ensures var t := ProcessNormalOrder(s, tick);
            forall z <- t.queues :: NotYetCharged(t.queues[z], t.history)
  {
    hide ProcessOrder;
    var y := tick.symbol;
    var orders := s.queues[y];
    var w := Sweep(s, orders, tick);
    SweepCore(s, orders, tick, y);
    SweepFeesKept(s, orders, tick, y);
    SurvivorsNotCharged(s, orders, tick, y);
    var t := ProcessNormalOrder(s, tick);
    forall z, o | z in t.queues && o in t.queues[z] && o.parent.None? ensures o.id !in t.history.firstFee {
      if z == y {
        if o in w.children {
          var i :| 0 <= i < |w.children| && w.children[i] == o;
          assert o.root == o.id == s.nextId + i;
          SweepRegister(s, orders, tick, y);
          NewRootsOnlyByCommit(s, w, y, o);
        }
      } else {
        assert Homed(o, z, s.history);
        forall x | x in w.visited ensures x.id != o.id {
          var i :| 0 <= i < |w.visited| && w.visited[i] == x;
          assert Homed(orders[i], y, s.history);
        }
      }
    }
  }

  /** A child order always names its parent's root, so it starts no chain. */
  lemma NewRootsOnlyByCommit(s: State, w: Swept, y: Symbol, c: Order)
    requires Registered(s.history, s.nextId) && SweepRegistered(s, w, y) && c in w.children
    ensures c.root < s.nextId
  {
    assert Homed(c, y, w.state.history);
  }

  lemma SameFees(s: State, t: State)
    requires Book(s) && Fees(s)
    requires t.queues == s.queues && t.log == s.log && t.rate == s.rate && SameRegister(s.history, t.history)
    requires t.history.firstFee == s.history.firstFee && t.history.repriced == s.history.repriced
    ensures Fees(t)
  {
    forall r | r in t.history.roots
      ensures TotalOf(ChainFee(r), t, t.history.roots[r].symbol) == Owed(t.history, r)
    {
      var z := t.history.roots[r].symbol;
      assert TotalOf(ChainFee(r), t, z) == TotalOf(ChainFee(r), s, z);
    }
  }

  lemma AfterOrdersFees(s: State, tick: Tick)
    requires Core(s) && Book(s) && Fees(s) && ValidTick(tick) && s.nextId >= FIRST_ID
    ensures Fees(AfterOrders(s, tick))
  {
    hide Book, Core, Fees, Marked, ProcessOrder, Empty;
    var a := if Empty(PositionOf(s, tick.symbol)) then s else MarkPosition(s, tick.symbol, tick.last);
    MarkCore(s, tick.symbol, tick.last);
    SameBook(s, a);
    SameFees(s, a);
    if tick.symbol in a.queues {
      NormalFees(a, tick);
    }
  }

  lemma TickFees(s: State, tick: Tick)
    requires Core(s) && Book(s) && Fees(s) && ValidTick(tick) && s.nextId >= FIRST_ID
    ensures Fees(TickStep(s, tick))
  {
    hide Book, Core, Fees, Marked, AfterOrders, Total;
    AfterOrdersBook(s, tick);
    AfterOrdersFees(s, tick);
    SameFees(AfterOrders(s, tick), TickStep(s, tick));
  }

  lemma CommitFee(s: State, t: State, o: Order, r: int)
    requires Core(s) && Book(s) && Fees(s) && Committed(s, t, o) && s.nextId >= FIRST_ID
    requires t.history.firstFee == s.history.firstFee && t.history.repriced == s.history.repriced
    requires o.transactionCost == 0.0 && (|t.log| > |s.log| ==> t.log[|s.log|].transactionCost == 0.0)
    requires r in t.history.roots
    ensures TotalOf(ChainFee(r), t, t.history.roots[r].symbol) == Owed(t.history, r)
  {
    hide TotalOf, Core, QueuesHomed, LogHomed, OncePerId, ChainsConserved, FirstFills;
    var z := t.history.roots[r].symbol;
    CommitTotals(ChainFee(r), s, t, o, z);
    if r == s.nextId {
      NothingYet(ChainFee(r), s, z);
    } else {
      assert r in s.history.roots && t.history.roots[r] == s.history.roots[r];
    }
  }

  lemma CommitFees(s: State, q: Request)
    requires Core(s) && Book(s) && Fees(s) && ValidRequest(q) && s.nextId >= FIRST_ID
    ensures Fees(CommitStep(s, q))
  {
    hide CommitStep, TotalOf, Core, QueuesHomed, OncePerId, ChainsConserved;
    var t, o := CommitStep(s, q), NewOrder(s, q);
    CommitShape(s, q);
    CommitFirstFills(s, q);
    forall r | r in t.history.roots
      ensures TotalOf(ChainFee(r), t, t.history.roots[r].symbol) == Owed(t.history, r)
    {
      CommitFee(s, t, o, r);
    }
    forall y, x | y in t.queues && x in t.queues[y] && x.parent.None? ensures x.id !in t.history.firstFee {
      assert x in QueueOf(s, y) || x == o;
    }
  }

  lemma CommitFirstFills(s: State, q: Request)
    requires FirstFills(s.log, s.history, s.rate) && ValidRequest(q)
    ensures FirstFills(CommitStep(s, q).log, CommitStep(s, q).history, s.rate)
    ensures CommitStep(s, q).rate == s.rate
  {
    hide SpecialStep;
    var t, o := CommitStep(s, q), NewOrder(s, q);
    CommitShape(s, q);
    CommitOrderShape(Issued(s, q.symbol), o);
  }

  lemma StepFees(s: State, e: Event)
    requires Core(s) && Book(s) && Fees(s) && ValidEvent(e) && s.nextId >= FIRST_ID
    ensures Fees(Step(s, e))
  {
    hide ProcessOrder, CommitStep;
    match e
    case Commit(q) => CommitFees(s, q);
    case OnTick(tick) => TickFees(s, tick);
    case Settle(klines) =>
      SettleCore(s, klines);
      SameFees(s, Step(s, e));
  }

  lemma {:induction false} RunFees(s: State, events: seq<Event>)
    requires Core(s) && Book(s) && Fees(s) && ValidEvents(events) && s.nextId >= FIRST_ID
    ensures Fees(Run(s, events))
    decreases |events|
  {
    hide Step;
    if events != [] {
      var n := |events| - 1;
      RunFees(s, events[..n]);
      RunBook(s, events[..n]);
      RunCore(s, events[..n]);
      StepFees(Run(s, events[..n]), events[n]);
    }
  }

  lemma InitialFees(slippage: int, rate: real)
    ensures Fees(Initial(slippage, rate))
  {
  }

  lemma ReachableFees(s: State)
    requires Reachable(s)
    ensures Book(s) && Fees(s)
  {
    var slippage: int, rate: real, events: seq<Event> :|
      slippage >= 0 && rate >= 0.0 && ValidEvents(events) && s == Run(Initial(slippage, rate), events);
    InitialCore(slippage, rate);
    InitialBook(slippage, rate);
    InitialFees(slippage, rate);
    RunBook(Initial(slippage, rate), events);
    RunFees(Initial(slippage, rate), events);
  }

  /** The fees charged along a chain plus the fee its open member carries are the commission of the
      first fill and what replaced fees have added. */
  lemma ChainFeesAddUp(s: State, o: Order)
    requires Reachable(s) && o in s.log && o.id in s.history.roots
    requires o.status.Filled? && o.parent.None? && !o.Special()
    ensures var y := s.history.roots[o.id].symbol;
            Sum(ChainFee(o.id), s.log) + Sum(ChainFee(o.id), QueueOf(s, y))
            == Commission(o, s.rate) + Surcharge(s.history, o.id)
  {
    ReachableFees(s);
    assert TotalOf(ChainFee(o.id), s, s.history.roots[o.id].symbol) == Owed(s.history, o.id);
  }

  /** What a replaced fee adds: the new commission less the fee that was carried. */
  lemma SurchargeGrows(s: State, o: Order, tick: Tick, r: int)
    requires Running(s) && Pending(o, o.symbol, s.nextId) && ValidTick(tick)
    ensures var v := Judge(s, o, tick);
            Surcharge(ProcessOrder(s, o, tick).state.history, r) - Surcharge(s.history, r)
            == if v.Execute? && o.root == r && o.parent.Some? && AlmostZero(o.transactionCost) then
                 v.price * Min(v.volume, o.quantity) * s.rate - o.transactionCost
               else 0.0
  {
    hide ProcessOrder, Judge, Min, Running, FillOf;
    OrderFeeHistory(s, o, tick);
  }

  /** Exactly when a fill keeps the fee of its chain: the order carries a fee that the tolerance
      sees, or the commission computed afresh happens to equal the carried fee. */
  lemma FillKeepsFee(s: State, o: Order, tick: Tick)
    requires Running(s) && Pending(o, o.symbol, s.nextId) && ValidTick(tick) && Judge(s, o, tick).Execute?
    ensures Change(ChainFee(o.root), s, o, ProcessOrder(s, o, tick)) == 0.0
       <==> (var v := Judge(s, o, tick);
             !AlmostZero(o.transactionCost) || o.transactionCost == v.price * Min(v.volume, o.quantity) * s.rate)
  {
    hide ProcessOrder, Change, Judge, Running, Pending, ValidTick;
    OrderChange(ChainFee(o.root), s, o, tick);
  }
}
