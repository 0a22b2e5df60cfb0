/** Additive measures of order lists, and what one order on one tick does to them. */
module OrderSums {
  import opened Approx
  import opened CerebroStruct
  import opened BrokerSpec
  import opened BrokerCore

  /** What can be added up over a list of orders:
      - Occurrences: how often an id occurs
      - ChainQuantity: over the chain of a root order, what was filled, or is still ordered
      - ChainOpen: how many members of a chain are not filled
      - ChainFee: over a chain, the fees charged, or carried by the member that is not filled
      - SoldOf: the shares of a symbol that were sold */
  datatype Measure =
    | Occurrences(id: int)
    | ChainQuantity(root: int)
    | ChainOpen(root: int)
    | ChainFee(root: int)
    | SoldOf(symbol: Symbol)

  function Weight(m: Measure, o: Order): (r: real)
  {
    match m
    case Occurrences(id) => if o.id == id then 1.0 else 0.0
    case ChainQuantity(root) => if o.root != root then 0.0 else if o.status.Filled? then o.filledQuantity else o.quantity
    case ChainOpen(root) => if o.root == root && !o.status.Filled? then 1.0 else 0.0
    case ChainFee(root) => if o.root == root then o.transactionCost else 0.0
    case SoldOf(y) => if o.symbol == y && o.action.Sell? && o.status.Filled? then o.filledQuantity else 0.0
  }

  function Sum(m: Measure, orders: seq<Order>): (r: real)
    decreases |orders|
  {
    if orders == [] then 0.0
    else Sum(m, orders[..|orders| - 1]) + Weight(m, orders[|orders| - 1])
  }

  lemma SumSnoc(m: Measure, orders: seq<Order>, o: Order)
    ensures Sum(m, orders + [o]) == Sum(m, orders) + Weight(m, o)
  {
    assert (orders + [o])[..|orders|] == orders;
  }

  lemma {:induction false} SumConcat(m: Measure, a: seq<Order>, b: seq<Order>)
    ensures Sum(m, a + b) == Sum(m, a) + Sum(m, b)
    decreases |b|
  {
    if b == [] {
      assert a + b == a;
    } else {
      var n := |b| - 1;
      SumConcat(m, a, b[..n]);
      assert a + b == (a + b[..n]) + [b[n]];
      SumSnoc(m, a + b[..n], b[n]);
    }
  }

  lemma {:induction false} SumZero(m: Measure, orders: seq<Order>)
    requires forall o <- orders :: Weight(m, o) == 0.0
    ensures Sum(m, orders) == 0.0
    decreases |orders|
  {
    if orders != [] {
      assert forall o <- orders[..|orders| - 1] :: o in orders;
      SumZero(m, orders[..|orders| - 1]);
      assert orders[|orders| - 1] in orders;
    }
  }

  /** What is left of an order in its queue. */
  function Left(m: Measure, o: Order): (r: real)
  {
    if o.Finished() then 0.0 else Weight(m, o)
  }

  /** By how much one order on one tick changes a measure of log, queue and children. */
  function Change(m: Measure, s: State, o: Order, p: Processed): (r: real)
  {
    Sum(m, p.state.log) + Left(m, p.order) + Sum(m, p.children) - Sum(m, s.log) - Weight(m, o)
  }

  /** The fee that an execution adds to a chain: nothing, when the order carried one. */
  function FeeAdded(s: State, o: Order, tick: Tick): (r: real)
  {
    var v := Judge(s, o, tick);
    if v.Execute? then BaseFee(o, s.rate, v.price, v.volume) - o.transactionCost else 0.0
  }

  lemma ExecutedLists(s: State, o: Order, tick: Tick)
    requires Running(s) && Pending(o, o.symbol, s.nextId) && ValidTick(tick)
    requires Judge(s, o, tick).Execute?
    ensures var p, f := ProcessOrder(s, o, tick), FillOf(s, o, tick);
            && p.order == f && f.Finished() && p.state.log == s.log + [f]
            && ExecutedOrder(s, o, Judge(s, o, tick).price, Judge(s, o, tick).volume, f)
            && ExecutedChildren(o, o.transactionCost + FeeAdded(s, o, tick), f, p.children, s.nextId)
  {
    hide FilledOrder, Deliver;
    Executed(s, o, tick);
    assert Spawned(AfterDelivery(s, o, tick).(log := s.log + [FillOf(s, o, tick)]), FillOf(s, o, tick)).order
        == FillOf(s, o, tick);
  }

  /** A fill and its child weigh as much as the order did, apart from the child's fresh id, the
      shares sold and a fee that was not carried. */
  lemma ExecutedWeights(m: Measure, s: State, o: Order, f: Order, children: seq<Order>, price: real, volume: real,
                        fee: real)
    requires Pending(o, o.symbol, s.nextId)
    requires ExecutedOrder(s, o, price, volume, f) && ExecutedChildren(o, fee, f, children, s.nextId)
    ensures var d := Weight(m, f) + Sum(m, children) - Weight(m, o);
            match m
            case Occurrences(id) => d == if children != [] && id == s.nextId then 1.0 else 0.0
            case ChainQuantity(_) => d == 0.0
            case ChainOpen(_) => d <= 0.0
            case ChainFee(root) => d == if o.root == root then fee - o.transactionCost else 0.0
            case SoldOf(y) => d == if o.action.Sell? && o.symbol == y then f.filledQuantity else 0.0
  {
    hide Weight, Sum, ChildOf, Ratio, OnGrid, Min, SameIdentity;
    if f.unfilledQuantity == 0.0 {
      SumNone(m);
      FullFillWeight(m, s, o, f, price, volume, fee);
    } else {
      var c := ChildOf(f, s.nextId);
      SumOne(m, c);
      PartFillWeight(m, o, f, c, fee, s.nextId);
    }
  }

  lemma SumNone(m: Measure)
    ensures Sum(m, []) == 0.0
  {
  }

  lemma SumOne(m: Measure, o: Order)
    ensures Sum(m, [o]) == Weight(m, o)
  {
    assert [o][..0] == [];
  }

  lemma FullFillWeight(m: Measure, s: State, o: Order, f: Order, price: real, volume: real, fee: real)
    requires Pending(o, o.symbol, s.nextId)
    requires ExecutedOrder(s, o, price, volume, f) && f.unfilledQuantity == 0.0 && f.transactionCost == fee
    ensures var d := Weight(m, f) - Weight(m, o);
            match m
            case Occurrences(_) => d == 0.0
            case ChainQuantity(_) => d == 0.0
            case ChainOpen(_) => d <= 0.0
            case ChainFee(root) => d == if o.root == root then fee - o.transactionCost else 0.0
            case SoldOf(y) => d == if o.action.Sell? && o.symbol == y then f.filledQuantity else 0.0
  {
    hide OnGrid, Min, PositionOf;
  }

  lemma PartFillWeight(m: Measure, o: Order, f: Order, c: Order, fee: real, id: int)
    requires Pending(o, o.symbol, id) && f.status.Filled? && SameIdentity(o, f)
    requires f.unfilledQuantity == o.quantity - f.filledQuantity
    requires Pending(c, o.symbol, id + 1) && c.id == id && c.root == o.root && c.action == o.action
    requires c.quantity == o.quantity - f.filledQuantity && c.transactionCost == fee - f.transactionCost
    ensures var d := Weight(m, f) + Weight(m, c) - Weight(m, o);
            match m
            case Occurrences(x) => d == if x == id then 1.0 else 0.0
            case ChainQuantity(_) => d == 0.0
            case ChainOpen(_) => d <= 0.0
            case ChainFee(root) => d == if o.root == root then fee - o.transactionCost else 0.0
            case SoldOf(y) => d == if o.action.Sell? && o.symbol == y then f.filledQuantity else 0.0
  {
    hide OnGrid;
  }

  lemma UnexecutedLists(s: State, o: Order, tick: Tick)
    requires Running(s) && Pending(o, o.symbol, s.nextId) && ValidTick(tick)
    requires !Judge(s, o, tick).Execute?
    ensures var p := ProcessOrder(s, o, tick);
            && p.children == []
            && p.state.log == (if p.order.Finished() then s.log + [p.order] else s.log)
            && (p.order == o || p.order == o.(status := Rejected, reason := p.order.reason))
  {
    hide Judge, PositionOf, FilledOrder, ChildOf;
  }

  /** An order that is not executed weighs the same afterwards, wherever it is. */
  lemma UnexecutedChange(m: Measure, s: State, o: Order, tick: Tick)
    requires Running(s) && Pending(o, o.symbol, s.nextId) && ValidTick(tick)
    requires !Judge(s, o, tick).Execute?
    ensures ProcessOrder(s, o, tick).children == [] && !ProcessOrder(s, o, tick).order.status.Filled?
    ensures Change(m, s, o, ProcessOrder(s, o, tick)) == 0.0
  {
    hide ProcessOrder, Judge;
    var p := ProcessOrder(s, o, tick);
    UnexecutedLists(s, o, tick);
    assert Sum(m, []) == 0.0;
    if p.order.Finished() {
      SumSnoc(m, s.log, p.order);
    }
  }

  /** The measures before and after, for one order. */
  lemma OrderChange(m: Measure, s: State, o: Order, tick: Tick)
    requires Running(s) && Pending(o, o.symbol, s.nextId) && ValidTick(tick)
    ensures var p := ProcessOrder(s, o, tick);
            var d := Change(m, s, o, p);
            match m
            case Occurrences(id) => d == if p.children != [] && id == s.nextId then 1.0 else 0.0
            case ChainQuantity(_) => d == 0.0
            case ChainOpen(_) => d <= 0.0
            case ChainFee(root) => d == if o.root == root then FeeAdded(s, o, tick) else 0.0
            case SoldOf(y) => d == if o.action.Sell? && o.symbol == y && p.order.status.Filled?
                                   then p.order.filledQuantity else 0.0
  {
    hide ProcessOrder;
    var p := ProcessOrder(s, o, tick);
    if Judge(s, o, tick).Execute? {
      ExecutedLists(s, o, tick);
      SumSnoc(m, s.log, p.order);
      ExecutedWeights(m, s, o, p.order, p.children, Judge(s, o, tick).price, Judge(s, o, tick).volume,
                      o.transactionCost + FeeAdded(s, o, tick));
    } else {
      UnexecutedChange(m, s, o, tick);
    }
  }

  /** A measure of everything a queue pass has in hand. */
  function Gross(m: Measure, w: Swept): (r: real)
  {
    Sum(m, w.state.log) + Sum(m, Unfinished(w.visited)) + Sum(m, w.children)
  }

  lemma UnfinishedSnoc(m: Measure, visited: seq<Order>, o: Order)
    ensures Sum(m, Unfinished(visited + [o])) == Sum(m, Unfinished(visited)) + Left(m, o)
  {
    assert (visited + [o])[..|visited|] == visited;
    SumSnoc(m, Unfinished(visited), o);
  }

  lemma GrossExtend(m: Measure, w: Swept, o: Order, p: Processed)
    ensures Gross(m, Swept(p.state, w.visited + [p.order], w.children + p.children))
         == Gross(m, w) + Weight(m, o) + Change(m, w.state, o, p)
  {
    UnfinishedSnoc(m, w.visited, p.order);
    SumConcat(m, w.children, p.children);
  }

  /** One more order of a queue pass. */
  lemma SweepChange(m: Measure, s: State, orders: seq<Order>, tick: Tick, y: Symbol)
    requires Running(s) && QueueOk(orders, y, s.nextId) && ValidTick(tick) && orders != []
    ensures var n := |orders| - 1;
            var w := Sweep(s, orders[..n], tick);
            && Running(w.state) && Pending(orders[n], y, w.state.nextId)
            && Gross(m, Sweep(s, orders, tick))
               == Gross(m, w) + Weight(m, orders[n])
                  + Change(m, w.state, orders[n], ProcessOrder(w.state, orders[n], tick))
            && OrderOutcome(w.state, orders[n], ProcessOrder(w.state, orders[n], tick))
            && Sweep(s, orders, tick).state == ProcessOrder(w.state, orders[n], tick).state
  {
    hide ProcessOrder;
    var n := |orders| - 1;
    QueuePrefix(orders, y, s.nextId);
    SweepCore(s, orders[..n], tick, y);
    var w := Sweep(s, orders[..n], tick);
    ProcessOrderCore(w.state, orders[n], tick);
    GrossExtend(m, w, orders[n], ProcessOrder(w.state, orders[n], tick));
  }

  /** A queue pass neither loses nor makes quantity along any chain. */
  lemma {:induction false} SweepQuantity(root: int, s: State, orders: seq<Order>, tick: Tick, y: Symbol)
    requires Running(s) && QueueOk(orders, y, s.nextId) && ValidTick(tick)
    ensures var m := ChainQuantity(root);
            Gross(m, Sweep(s, orders, tick)) == Sum(m, s.log) + Sum(m, orders)
    decreases |orders|
  {
    hide ProcessOrder;
    if orders != [] {
      var n := |orders| - 1;
      SweepChange(ChainQuantity(root), s, orders, tick, y);
      QueuePrefix(orders, y, s.nextId);
      SweepQuantity(root, s, orders[..n], tick, y);
      OrderChange(ChainQuantity(root), Sweep(s, orders[..n], tick).state, orders[n], tick);
    }
  }

  lemma {:induction false} SweepOpen(root: int, s: State, orders: seq<Order>, tick: Tick, y: Symbol)
    requires Running(s) && QueueOk(orders, y, s.nextId) && ValidTick(tick)
    ensures var m := ChainOpen(root);
            Gross(m, Sweep(s, orders, tick)) <= Sum(m, s.log) + Sum(m, orders)
    decreases |orders|
  {
    hide ProcessOrder;
    if orders != [] {
      var n := |orders| - 1;
      SweepChange(ChainOpen(root), s, orders, tick, y);
      QueuePrefix(orders, y, s.nextId);
      SweepOpen(root, s, orders[..n], tick, y);
      OrderChange(ChainOpen(root), Sweep(s, orders[..n], tick).state, orders[n], tick);
    }
  }

  /** A queue pass keeps every id where it can be found, and the only new ids are the ones it
      took from the generator. */
  lemma {:induction false} SweepOccurrences(id: int, s: State, orders: seq<Order>, tick: Tick, y: Symbol)
    requires Running(s) && QueueOk(orders, y, s.nextId) && ValidTick(tick)
    ensures var m := Occurrences(id);
            var w := Sweep(s, orders, tick);
            Gross(m, w) == Sum(m, s.log) + Sum(m, orders)
                           + if s.nextId <= id < w.state.nextId then 1.0 else 0.0
    decreases |orders|
  {
    hide ProcessOrder;
    if orders != [] {
      var n := |orders| - 1;
      SweepChange(Occurrences(id), s, orders, tick, y);
      QueuePrefix(orders, y, s.nextId);
      SweepCore(s, orders[..n], tick, y);
      SweepOccurrences(id, s, orders[..n], tick, y);
      OrderChange(Occurrences(id), Sweep(s, orders[..n], tick).state, orders[n], tick);
    }
  }
}
