/** The broker's objects: account, position trackers and the broker itself, which change in
    place.  Every method is proved to do the step of module BrokerSpec that it is named after. */
module Broker {
  import opened Approx
  import opened CerebroStruct
  import PT = PositionTracker
  import A = Account
  import opened BrokerSpec
  import opened BrokerCore
  import L = BrokerLedger

  class CerebroAccountWrap {
    var account: A.Account
    const slippage: int
    const commissionRate: real

    constructor (slippage: int, commissionRate: real)
      ensures account == A.EMPTY
      ensures this.slippage == slippage && this.commissionRate == commissionRate
    {
      this.account := A.EMPTY;
      this.slippage := slippage;
      this.commissionRate := commissionRate;
    }

    method AddCash(cash: real, fee: real)
      modifies this
      ensures account == A.AddCash(old(account), cash, fee)
    {
      account := account.(cash := account.cash + cash - fee);
      account := account.(transactionCost := account.transactionCost + fee);
    }

    method DepositCash(cash: real) returns (rc: int)
      modifies this
      ensures rc == 0 && account == A.AddCash(old(account), cash, 0.0)
    {
      account := account.(cash := account.cash + cash);
      rc := 0;
    }

    method WithdrawCash(cash: real) returns (rc: int)
      modifies this
      ensures rc == 0 <==> A.CanWithdraw(old(account), cash)
      ensures account == if rc == 0 then old(account).(cash := old(account).cash - cash) else old(account)
    {
      if AlmostLt(account.cash, cash) {
        return -1;
      }
      account := account.(cash := account.cash - cash);
      rc := 0;
    }

    method TransformMarketValueToCash(value: real, fee: real)
      modifies this
      ensures account == A.MarketValueToCash(old(account), value, fee)
    {
      account := account.(cash := account.cash + value - fee);
      account := account.(transactionCost := account.transactionCost + fee);
      account := account.(marketValue := account.marketValue - value);
    }

    method TransformCashToMarketValue(cash: real, fee: real)
      modifies this
      ensures account == A.CashToMarketValue(old(account), cash, fee)
    {
      account := account.(cash := account.cash - cash - fee);
      account := account.(transactionCost := account.transactionCost + fee);
      account := account.(marketValue := account.marketValue + cash);
    }

    method Revalue(pnl: real, value: real)
      modifies this
      ensures account == A.Revalued(old(account), pnl, value)
    {
      account := account.(dailyPnl := pnl);
      account := account.(marketValue := value);
    }
  }

  class CerebroPositionTracker {
    var position: PT.Position
    const tplus: nat

    constructor (tplus: nat)
      ensures position == PT.FRESH && this.tplus == tplus
    {
      this.position := PT.FRESH;
      this.tplus := tplus;
    }

    method Buy(quantity: real, price: real, commission: real)
      modifies this
      ensures position == PT.Bought(old(position), tplus, quantity, price, commission)
    {
      if AlmostZero(quantity) {
        return;
      }
      if AlmostEq(position.quantity, 0.0) {
        position := position.(avgPrice := Finite(price), quantity := quantity, commissions := commission);
      } else {
        position := position.(avgPrice := PT.AverageAfterBuy(position, quantity, price));
        position := position.(quantity := position.quantity + quantity);
        position := position.(commissions := position.commissions + commission);
      }
      if tplus == 0 {
        position := position.(closable := position.closable + quantity);
      }
    }

    /** LogicError stands for the exception "There is no position"; nothing is changed then. */
    method Sell(quantity: real, price: real, commission: real) returns (r: PT.Outcome<()>)
      modifies this
      ensures r.Ok? <==> PT.Sold(old(position), quantity, price, commission).Ok?
      ensures position == if r.Ok? then PT.Sold(old(position), quantity, price, commission).value else old(position)
    {
      if AlmostZero(quantity) {
        return PT.Ok(());
      }
      if AlmostEq(position.quantity, 0.0) {
        return PT.LogicError;
      }
      position := position.(avgPrice := PT.AverageAfterSell(position, quantity, price));
      position := position.(quantity := position.quantity - quantity);
      position := position.(commissions := position.commissions + commission);
      position := position.(closable := position.closable - quantity);
      if AlmostZero(position.quantity) {
        position := position.(positionPnl := 0.0);
      }
      return PT.Ok(());
    }

    method Update(last: real)
      requires PT.Sound(position)
      modifies this
      ensures position == PT.Marked(old(position), last)
    {
      if AlmostZero(position.quantity) {
        return;
      }
      var avgCost := position.commissions / position.quantity;
      var diffPrice := last - position.avgPrice.value;
      position := position.(positionPnl := (diffPrice - avgCost) * position.quantity);
    }

    method MarketValue() returns (value: real)
      requires PT.Sound(position) && !PT.Empty(position)
      ensures value == PT.Basis(position)
    {
      GridIsExact(position.quantity, position.quantity);
      value := position.avgPrice.value * position.quantity;
    }

    method Settle(close: real)
      requires PT.Sound(position)
      modifies this
      ensures position == PT.Settled(old(position), close)
    {
      Update(close);
      position := position.(closable := position.quantity);
    }
  }

  /** The order as the matcher leaves it. */
  function OrderAfter(s: State, o: Order, v: Verdict): (f: Order)
  {
    match v
    case Reject(reason) => o.(status := Rejected, reason := reason)
    case Execute(price, volume) => FilledOrder(o, s.rate, price, volume, PositionOf(s, o.symbol).avgPrice)
    case _ => o
  }

  /** The state as the matcher leaves it. */
  function StateAfter(s: State, o: Order, v: Verdict): (r: State)
  {
    var t := Looked(s, o, v);
    match v
    case Execute(price, volume) =>
      Paid(t.(history := FeeHistory(t.history, o, s.rate, price, volume)), OrderAfter(s, o, v))
    case _ => t
  }

  class CerebroBroker {
    const account: CerebroAccountWrap
    var queues: map<Symbol, seq<Order>>
    var log: seq<Order>
    var trackers: map<Symbol, CerebroPositionTracker>
    var nextId: int
    ghost var history: History

    /** No two symbols share a tracker, and every tracker is T+1. */
    ghost predicate Separate()
      reads this, trackers.Values
    {
      && (forall x, y :: x in trackers && y in trackers && x != y ==> trackers[x] != trackers[y])
      && (forall y <- trackers :: trackers[y].tplus == 1)
    }

    ghost function Positions(): (m: map<Symbol, PT.Position>)
      reads this`trackers, trackers.Values
    {
      map y | y in trackers :: trackers[y].position
    }

    /** The state of BrokerSpec that the objects represent. */
    ghost function State(): (s: State)
      reads this, account, trackers.Values
    {
      BrokerSpec.State(account.account, account.slippage, account.commissionRate, queues, log, Positions(), nextId,
                       false, history)
    }

    ghost predicate Valid()
      reads this, account, trackers.Values
    {
      Separate() && Core(State())
    }

    /** Trackers are only ever added. */
    twostate predicate Grows()
      reads this
    {
      && old(trackers).Keys <= trackers.Keys
      && (forall y <- old(trackers) :: trackers[y] == old(trackers)[y])
      && (forall y <- trackers :: y !in old(trackers) ==> fresh(trackers[y]))
    }

    constructor (wrap: CerebroAccountWrap)
      requires wrap.account == A.EMPTY && wrap.slippage >= 0 && wrap.commissionRate >= 0.0
      ensures Valid() && account == wrap && trackers == map[]
      ensures State() == Initial(wrap.slippage, wrap.commissionRate)
    {
      account := wrap;
      queues, log, trackers, nextId := map[], [], map[], FIRST_ID;
      history := Initial(0, 0.0).history;
      new;
      assert Positions() == map[];
      InitialCore(wrap.slippage, wrap.commissionRate);
    }

    method GetLongTracker(y: Symbol) returns (t: CerebroPositionTracker)
      requires Separate()
      modifies this`trackers
      ensures Separate() && y in trackers && t == trackers[y]
      ensures Grows()
      ensures State() == WithTracker(old(State()), y)
      ensures t.position == PositionOf(old(State()), y)
    {
      if y in trackers {
        t := trackers[y];
        assert State() == old(State());
      } else {
        t := new CerebroPositionTracker(1);
        trackers := trackers[y := t];
        assert Positions() == old(Positions())[y := PT.FRESH];
      }
    }

    // ---- Matching ---------------------------------------------------------------------------

    /** The fill of an order as both kinds of orders do it, once the price is known. */
    method Fill(o: Order, price: real, volume: real, avg: Double) returns (f: Order)
      requires o.quantity > 0.0
      ensures f == FilledOrder(o, account.commissionRate, price, volume, avg)
    {
      f := o.(filledPrice := price, filledQuantity := Min(volume, o.quantity));
      if AlmostEq(f.transactionCost, 0.0) {
        f := f.(transactionCost := Commission(f, account.commissionRate));
      }
      f := f.(status := Filled);
      if f.action.Sell? {
        f := f.(lastPositionPrice := avg);
      }
      if !AlmostEq(f.quantity, f.filledQuantity) {
        f := f.(unfilledQuantity := f.quantity - f.filledQuantity);
        f := f.(transactionCost := f.transactionCost * (f.filledQuantity / f.quantity));
      }
    }

    /** A purchase that the matcher fills: the order first, then the cash. */
    method FillBuy(o: Order, price: real, volume: real) returns (f: Order)
      requires Separate() && o.quantity > 0.0 && o.action.Buy?
      modifies this`history, account
      ensures Separate()
      ensures f == OrderAfter(old(State()), o, Execute(price, volume))
      ensures State() == StateAfter(old(State()), o, Execute(price, volume))
    {
      hide FilledOrder, FeeHistory;
      SameAction(o, account.commissionRate, price, volume, o.lastPositionPrice);
      UnreadAverage(o, account.commissionRate, price, volume, o.lastPositionPrice, PositionOf(State(), o.symbol).avgPrice);
      f := Fill(o, price, volume, o.lastPositionPrice);
      history := FeeHistory(history, o, account.commissionRate, price, volume);
      account.TransformCashToMarketValue(f.filledPrice * f.filledQuantity, f.transactionCost);
      assert Positions() == old(Positions());
    }

    method FillSell(o: Order, price: real, volume: real, tracker: CerebroPositionTracker) returns (f: Order)
      requires Separate() && o.quantity > 0.0 && o.action.Sell?
      requires o.symbol in trackers && tracker == trackers[o.symbol]
      modifies this`history, account
      ensures Separate()
      ensures f == OrderAfter(old(State()), o, Execute(price, volume))
      ensures State() == StateAfter(old(State()), o, Execute(price, volume))
    {
      hide FilledOrder, FeeHistory;
      SameAction(o, account.commissionRate, price, volume, tracker.position.avgPrice);
      f := Fill(o, price, volume, tracker.position.avgPrice);
      history := FeeHistory(history, o, account.commissionRate, price, volume);
      account.TransformMarketValueToCash(f.filledPrice * f.filledQuantity, f.transactionCost);
      assert Positions() == old(Positions());
    }

    method ProcessLimitOrder(o: Order, tick: Tick) returns (f: Order)
      requires Separate() && o.quantity > 0.0
      modifies this`history, this`trackers, account
      ensures Separate() && Grows()
      ensures var s := old(State());
              var v := JudgeLimit(o, tick, s.account.cash, PositionOf(s, o.symbol).closable, s.slippage, s.rate);
              f == OrderAfter(s, o, v) && State() == StateAfter(s, o, v)
    {
      hide FilledOrder, FeeHistory, Paid, Outlay;
      f := o;
      match o.action {
        case Buy =>
          if IsOverLimitUp(o, tick) {
            f := f.(status := Rejected, reason := OverLimitUp);
            return;
          }
          if AlmostGt(Outlay(o, o.price, account.slippage, account.commissionRate), account.account.cash) {
            f := f.(status := Rejected, reason := InsufficientFunds);
            return;
          }
          if AlmostLt(o.price, tick.last) {
            return;
          }
          f := FillBuy(o, tick.last + Slip(account.slippage), tick.askVolume);
        case Sell =>
          if IsOverLimitDown(o, tick) {
            f := f.(status := Rejected, reason := OverLimitDown);
            return;
          }
          var tracker := GetLongTracker(o.symbol);
          if AlmostGt(o.quantity, tracker.position.closable) {
            f := f.(status := Rejected, reason := InsufficientClosable);
            return;
          }
          if AlmostGt(o.price, tick.last) {
            return;
          }
          f := FillSell(o, tick.bid + Slip(account.slippage), tick.bidVolume, tracker);
        case _ =>
          f := f.(status := Rejected, reason := UnknownAction);
      }
    }

    method ProcessMarketOrder(o: Order, tick: Tick) returns (f: Order)
      requires Separate() && o.quantity > 0.0
      modifies this`history, this`trackers, account
      ensures Separate() && Grows()
      ensures var s := old(State());
              var v := JudgeMarket(o, tick, s.account.cash, PositionOf(s, o.symbol).closable, s.slippage, s.rate);
              f == OrderAfter(s, o, v) && State() == StateAfter(s, o, v)
    {
      hide FilledOrder, FeeHistory, Paid, Outlay;
      f := o;
      match o.action {
        case Buy =>
          if IsOverLimitUp(o, tick) {
            f := f.(status := Rejected, reason := OverLimitUp);
            return;
          }
          if AlmostGt(Outlay(o, tick.last, account.slippage, account.commissionRate), account.account.cash) {
            f := f.(status := Rejected, reason := InsufficientFunds);
            return;
          }
          f := FillBuy(o, tick.last + Slip(account.slippage), tick.askVolume);
        case Sell =>
          if IsOverLimitDown(o, tick) {
            f := f.(status := Rejected, reason := OverLimitDown);
            return;
          }
          var tracker := GetLongTracker(o.symbol);
          if AlmostGt(o.quantity, tracker.position.closable) {
            f := f.(status := Rejected, reason := InsufficientClosable);
            return;
          }
          f := FillSell(o, tick.last + Slip(account.slippage), tick.bidVolume, tracker);
        case _ =>
          f := f.(status := Rejected, reason := UnknownAction);
      }
    }

    /** The exchange's matcher; a non-zero return code leaves the order alone. */
    method Match(o: Order, tick: Tick) returns (rc: int, f: Order)
      requires Separate() && o.quantity > 0.0
      modifies this`history, this`trackers, account
      ensures Separate() && Grows()
      ensures var s := old(State());
              var v := Judge(s, o, tick);
              && (rc != 0 <==> v.Ignore?) && f == OrderAfter(s, o, v) && State() == StateAfter(s, o, v)
    {
      hide FilledOrder, FeeHistory, Paid, JudgeLimit, JudgeMarket, HasMatcher;
      if !HasMatcher(o.symbol) {
        return -1, o;
      }
      rc := 0;
      match o.kind {
        case Market =>
          f := ProcessMarketOrder(o, tick);
        case Limit =>
          f := ProcessLimitOrder(o, tick);
        case NoType =>
          return -1, o;
      }
      NeverIgnored(old(State()), o, tick);
    }

    // ---- Order updates ----------------------------------------------------------------------

    /** When one tracker has changed, the positions are the old ones but for that symbol. */
    twostate lemma OneMoved(y: Symbol)
      requires trackers == old(trackers) && y in trackers
      requires forall x <- trackers :: x != y ==> trackers[x].position == old(trackers[x].position)
      ensures Positions() == old(Positions())[y := trackers[y].position]
    {
    }

    method ReceiveAt(y: Symbol, q: real, price: real, fee: real)
      requires Separate() && y in trackers
      modifies this`history, trackers[y]
      ensures Separate() && State() == Receive(old(State()), y, q, price, fee)
    {
      hide PT.Bought, Receive;
      ghost var s := State();
      trackers[y].Buy(q, price, fee);
      OneMoved(y);
      history := Receive(s, y, q, price, fee).history;
      ReceiveShape(s, y, q, price, fee);
    }

    method ReleaseAt(y: Symbol, q: real, price: real, fee: real) returns (r: PT.Outcome<()>)
      requires Separate() && y in trackers
      modifies this`history, trackers[y]
      ensures Separate()
      ensures r.LogicError? <==> Release(old(State()), y, q, price, fee).halted
      ensures r.Ok? ==> State() == Release(old(State()), y, q, price, fee)
    {
      hide PT.Sold, Release;
      ghost var s := State();
      r := trackers[y].Sell(q, price, fee);
      ReleaseShape(s, y, q, price, fee);
      if r.Ok? {
        OneMoved(y);
        history := Release(s, y, q, price, fee).history;
      }
    }

    method ReceiveShares(y: Symbol, q: real, price: real, fee: real)
      requires Separate()
      modifies this`trackers, this`history, trackers.Values
      ensures Separate() && Grows()
      ensures State() == Receive(old(State()), y, q, price, fee)
    {
      hide Receive, WithTracker;
      var tracker := GetLongTracker(y);
      ReceiveAt(y, q, price, fee);
      TrackerMadeFirst(old(State()), y, q, price, fee);
    }

    method ReleaseShares(y: Symbol, q: real, price: real, fee: real) returns (r: PT.Outcome<()>)
      requires Separate()
      modifies this`trackers, this`history, trackers.Values
      ensures Separate() && Grows()
      ensures r.LogicError? <==> Release(old(State()), y, q, price, fee).halted
      ensures r.Ok? ==> State() == Release(old(State()), y, q, price, fee)
    {
      hide Release, WithTracker;
      var tracker := GetLongTracker(y);
      r := ReleaseAt(y, q, price, fee);
      TrackerMadeFirst(old(State()), y, q, price, fee);
    }

    method OnOrderUpdate(o: Order) returns (r: PT.Outcome<()>)
      requires Separate()
      modifies this`trackers, this`history, trackers.Values
      ensures Separate() && Grows()
      ensures r.LogicError? <==> Deliver(old(State()), o).halted
      ensures r.Ok? ==> State() == Deliver(old(State()), o)
    {
      hide Receive, Release;
      r := PT.Ok(());
      if o.Special() || !o.status.Filled? {
        return;
      }
      match o.action {
        case Buy => ReceiveShares(o.symbol, o.filledQuantity, o.filledPrice, o.transactionCost);
        case Sell => r := ReleaseShares(o.symbol, o.filledQuantity, o.filledPrice, o.transactionCost);
        case SellShort => var tracker := GetLongTracker(o.symbol);
        case BuyToCover => var tracker := GetLongTracker(o.symbol);
        case _ =>
      }
      ReceiveGoesOn(old(State()), o.symbol, o.filledQuantity, o.filledPrice, o.transactionCost);
    }

    // ---- A tick -----------------------------------------------------------------------------

    /** A partly filled order leaves a child order with a fresh id. */
    method Spawn(f: Order) returns (children: seq<Order>)
      requires !AlmostEq(f.unfilledQuantity, 0.0) ==> f.quantity != 0.0 && f.filledQuantity / f.quantity != 0.0
      modifies this`history, this`nextId
      ensures Spawned(old(State()), f) == Processed(State(), f, children)
    {
      children := [];
      if !AlmostEq(f.unfilledQuantity, 0.0) {
        var part := f.filledQuantity / f.quantity;
        var child := Order(nextId, f.symbol, f.action, f.kind, PendingNew, f.price, f.unfilledQuantity, 0.0, 0.0, 0.0,
                           (f.transactionCost / part) * (1.0 - part), Finite(0.0), NoReason, Some(f.id), f.root);
        assert part == Ratio(f.filledQuantity, f.quantity);
        assert f.transactionCost / part == Ratio(f.transactionCost, part);
        assert child == ChildOf(f, nextId);
        history := history.(home := history.home[nextId := f.symbol]);
        nextId := nextId + 1;
        assert Positions() == old(Positions());
        children := [child];
      }
    }

    /** The loop body of process_normal_order: one queued order against the tick.  The exception
        is never thrown. */
    method HandleOrder(o: Order, tick: Tick) returns (f: Order, children: seq<Order>)
      requires Separate() && Running(State()) && Pending(o, o.symbol, nextId) && ValidTick(tick)
      modifies this`trackers, this`history, this`log, this`nextId, account, trackers.Values
      ensures Separate() && Grows()
      ensures var p := ProcessOrder(old(State()), o, tick);
              State() == p.state && f == p.order && children == p.children
    {
      hide Judge, FilledOrder, Deliver, Running, ValidTick, StateAfter, OrderAfter, ProcessOrder, Spawned, Positions,
        AlmostEq;
      ghost var s := State();
      children := [];
      var rc;
      rc, f := Match(o, tick);
      MatchedThenDelivered(s, o, tick);
      if rc != 0 {
        return;
      }
      var r := OnOrderUpdate(f);
      assert r.Ok?;
      ghost var d := State();
      if f.Finished() {
        log := log + [f];
      }
      assert State() == if f.Finished() then d.(log := d.log + [f]) else d;
      ChildDivisors(s, o, tick);
      children := Spawn(f);
    }

    /** Drops the finished orders of a queue, keeping the order of the rest. */
    method RemoveFinished(orders: seq<Order>) returns (left: seq<Order>)
      ensures left == Unfinished(orders)
    {
      left := [];
      for i := 0 to |orders|
        invariant left == Unfinished(orders[..i])
      {
        assert orders[..i + 1][..i] == orders[..i];
        if !orders[i].Finished() {
          left := left + [orders[i]];
        }
      }
      assert orders[..|orders|] == orders;
    }

    /** One pass over a queue.  A queued order is always pending, so the branch that logs finished
        orders again is never taken and is not repeated here. */
    method SweepQueue(orders: seq<Order>, tick: Tick) returns (visited: seq<Order>, children: seq<Order>)
      requires Separate() && Running(State()) && QueueOk(orders, tick.symbol, nextId) && ValidTick(tick)
      modifies this`trackers, this`history, this`log, this`nextId, account, trackers.Values
      ensures Separate() && Grows()
      ensures var w := Sweep(old(State()), orders, tick);
              State() == w.state && visited == w.visited && children == w.children
    {
      hide ProcessOrder, ValidTick, Pending, Running, QueueOk, Sweep, Positions;
      ghost var s := State();
      visited, children := orders, [];
      var i := 0;
      SweepNone(s, orders, tick);
      while i < |visited|
        invariant 0 <= i <= |visited| == |orders|
        invariant Separate() && Grows()
        invariant State() == Sweep(s, orders[..i], tick).state
        invariant visited == Sweep(s, orders[..i], tick).visited + orders[i..]
        invariant children == Sweep(s, orders[..i], tick).children
      {
        SweepPrefix(s, orders, tick, tick.symbol, i);
        assert visited[i] == orders[i];
        var f, spawned := HandleOrder(visited[i], tick);
        VisitedUpdate(Sweep(s, orders[..i], tick).visited, orders, i, f);
        visited := visited[i := f];
        children := children + spawned;
        i := i + 1;
      }
      assert orders[..i] == orders;
    }

    method ProcessNormalOrder(tick: Tick)
      requires Valid() && ValidTick(tick)
      modifies this`trackers, this`history, this`log, this`nextId, this`queues, account, trackers.Values
      ensures Valid() && Grows()
      ensures State() == BrokerSpec.ProcessNormalOrder(old(State()), tick)
    {
      hide ProcessOrder, ValidTick, Core, QueueOk, Sweep, Positions;
      ghost var s := State();
      CoreMeans(s, tick.symbol);
      NormalCore(s, tick);
      if tick.symbol !in queues {
        return;
      }
      SweepCore(s, queues[tick.symbol], tick, tick.symbol);
      var visited, children := SweepQueue(queues[tick.symbol], tick);
      var left := RemoveFinished(visited);
      queues := queues[tick.symbol := left + children];
    }

    method UpdatePosition(y: Symbol, last: real)
      requires Valid()
      modifies trackers.Values
      ensures Valid()
      ensures State() == MarkPosition(old(State()), y, last)
    {
      hide PT.Marked;
      MarkCore(State(), y, last);
      if y in trackers {
        assert PT.Sound(State().positions[y]);
        trackers[y].Update(last);
        OneMoved(y);
      } else {
        assert Positions() == old(Positions());
      }
    }

    method PositionsMarketValue() returns (value: real)
      requires Valid()
      ensures value == Total(State().positions, PT.Basis)
    {
      hide PT.Sound, PT.Basis, PT.Empty;
      ghost var p := Positions();
      value := 0.0;
      var keys := trackers.Keys;
      AllOf(p);
      assert p.Keys == keys;
      while keys != {}
        invariant keys <= trackers.Keys
        invariant value == Total(p, PT.Basis) - Total(Only(p, keys), PT.Basis)
        decreases keys
      {
        var y :| y in keys;
        OneLess(p, keys, y, PT.Basis);
        var held := trackers[y].position;
        if !PT.Empty(held) {
          var worth := trackers[y].MarketValue();
          value := value + worth;
        }
        BasisOfEmpty(held);
        keys := keys - {y};
      }
    }

    method CurrentPositionsPnl() returns (value: real)
      requires Valid()
      ensures value == Total(State().positions, Pnl)
    {
      ghost var p := Positions();
      value := 0.0;
      var keys := trackers.Keys;
      AllOf(p);
      assert p.Keys == keys;
      while keys != {}
        invariant keys <= trackers.Keys
        invariant value == Total(p, Pnl) - Total(Only(p, keys), Pnl)
        decreases keys
      {
        var y :| y in keys;
        OneLess(p, keys, y, Pnl);
        value := value + trackers[y].position.positionPnl;
        keys := keys - {y};
      }
    }

    method Revalue()
      requires Valid()
      modifies account
      ensures Valid() && State() == Valued(old(State()))
    {
      hide PT.Sound, QueueOk, Total;
      var pnl := CurrentPositionsPnl();
      var value := PositionsMarketValue();
      account.Revalue(pnl, value);
      assert Positions() == old(Positions());
    }

    method OnTick(tick: Tick)
      requires Valid() && ValidTick(tick)
      modifies this, account, trackers.Values
      ensures Valid() && Grows()
      ensures State() == Step(old(State()), Event.OnTick(tick))
    {
      hide BrokerSpec.ProcessNormalOrder, MarkPosition, Core, ValidTick, Valued;
      assert !State().halted;
      if tick.symbol in trackers && !PT.Empty(trackers[tick.symbol].position) {
        UpdatePosition(tick.symbol, tick.last);
      }
      ProcessNormalOrder(tick);
      UpdatePosition(tick.symbol, tick.last);
      Revalue();
    }

    // ---- Orders, dividends and money --------------------------------------------------------

    /** commit_order for an order that already has its id. */
    method CommitOrder(o: Order)
      requires Separate()
      modifies this`trackers, this`history, this`log, this`queues, account, trackers.Values
      ensures Separate() && Grows()
      ensures State() == BrokerSpec.CommitOrder(old(State()), o)
    {
      hide SpecialStep, SpecialFails;
      if o.status.PendingNew? {
        if !o.Special() {
          history := BrokerSpec.CommitOrder(State(), o).history;
          queues := queues[o.symbol := (if o.symbol in queues then queues[o.symbol] else []) + [o]];
          assert Positions() == old(Positions());
        } else {
          var rc := ProcessSpecialOrder(o);
          ghost var t := State();
          log := log + [o.(status := if rc != 0 then Rejected else Filled)];
          assert Positions() == t.positions;
        }
      } else {
        log := log + [o];
        assert Positions() == old(Positions());
      }
    }

    /** The result is not zero when an account refuses a withdrawal. */
    method ProcessSpecialOrder(o: Order) returns (rc: int)
      requires Separate()
      modifies this`trackers, this`history, account, trackers.Values
      ensures Separate() && Grows()
      ensures rc != 0 <==> SpecialFails(old(State()), o)
      ensures State() == SpecialStep(old(State()), o)
    {
      hide Receive;
      ghost var s := State();
      rc := 0;
      match o.action {
        case Dividend =>
          PayDividend(o);
        case Deposit =>
          rc := account.DepositCash(o.price * o.quantity);
          history := DepositStep(s, o).history;
          assert Positions() == s.positions;
        case Withdraw =>
          rc := account.WithdrawCash(o.price * o.quantity);
          history := WithdrawStep(s, o).history;
          assert Positions() == s.positions;
        case _ =>
      }
    }

    method PayDividend(o: Order)
      requires Separate()
      modifies this`trackers, this`history, account, trackers.Values
      ensures Separate() && Grows()
      ensures State() == DividendStep(old(State()), o)
    {
      hide Receive;
      ghost var s := State();
      if AlmostZero(o.quantity) {
        var tracker := GetLongTracker(o.symbol);
      } else {
        ReceiveShares(o.symbol, o.quantity, 0.0, o.transactionCost);
        ghost var t := State();
        account.AddCash(o.price, o.transactionCost);
        history := t.history.(dividends := t.history.dividends + o.price);
        assert Positions() == t.positions;
      }
    }

    /** A request gets the next id and is committed. */
    method Submit(q: Request) returns (id: int)
      requires Valid() && ValidRequest(q)
      modifies this, account, trackers.Values
      ensures Valid() && Grows() && id == old(nextId)
      ensures State() == Step(old(State()), Event.Commit(q))
    {
      hide BrokerSpec.CommitOrder, ValidRequest, Core;
      ghost var s := State();
      assert !s.halted;
      CommitCore(s, q);
      id := nextId;
      var o := Order(id, q.symbol, q.action, q.kind, if q.done then Filled else PendingNew, q.price, q.quantity,
                     0.0, 0.0, 0.0, 0.0, Finite(0.0), NoReason, None, id);
      history := history.(home := history.home[nextId := q.symbol]);
      nextId := nextId + 1;
      assert Positions() == s.positions;
      assert State() == Issued(s, q.symbol);
      CommitOrder(o);
    }

    /** buy and sell: market order when the price is zero, no order at all for no quantity. */
    method Trade(y: Symbol, action: Action, quantity: real, price: real) returns (id: int)
      requires Valid() && (action.Buy? || action.Sell?)
      requires OnGrid(quantity) && quantity >= 0.0 && price >= 0.0
      modifies this, account, trackers.Values
      ensures Valid() && Grows()
      ensures if quantity == 0.0 then id == -1 && State() == old(State())
              else id == old(nextId)
                   && State() == Step(old(State()), Event.Commit(TradeRequest(y, action, quantity, price)))
    {
      hide Step, Core;
      GridIsExact(quantity, quantity);
      if AlmostZero(quantity) {
        return -1;
      }
      id := Submit(TradeRequest(y, action, quantity, price));
    }

    // ---- Settlement -------------------------------------------------------------------------

    method Settle(klines: seq<Kline>)
      requires Valid()
      modifies this, account, trackers.Values
      ensures Valid() && Grows()
      ensures State() == Step(old(State()), Event.Settle(klines))
    {
      hide PT.Settled, Core, Valued;
      ghost var s := State();
      assert klines[..0] == [];
      for i := 0 to |klines|
        invariant Valid() && Grows() && trackers == old(trackers)
        invariant State() == SettlePositions(s, klines[..i])
      {
        assert klines[..i + 1][..i] == klines[..i];
        SettleCore(State(), [klines[i]]);
        SettleLast(s, klines[..i], klines[i]);
        var y := klines[i].symbol;
        if y in trackers {
          SettleTracker(y, klines[i].close);
        }
      }
      assert klines[..|klines|] == klines;
      Revalue();
    }

    method SettleTracker(y: Symbol, close: real)
      requires Valid() && y in trackers
      modifies trackers[y]
      ensures Separate()
      ensures State() == old(State()).(positions := old(State()).positions[y := PT.Settled(old(State()).positions[y], close)])
    {
      hide PT.Settled;
      assert PT.Sound(State().positions[y]);
      trackers[y].Settle(close);
      OneMoved(y);
    }
  }

  /** The order that buy or sell makes. */
  function TradeRequest(y: Symbol, action: Action, quantity: real, price: real): (q: Request)
  {
    Request(y, action, if price == 0.0 then Market else Limit, price, quantity, false)
  }

  lemma CoreMeans(s: State, y: Symbol)
    requires Core(s)
    ensures Running(s) && (y in s.queues ==> QueueOk(s.queues[y], y, s.nextId))
  {
  }

  lemma SameAction(o: Order, rate: real, price: real, volume: real, avg: Double)
    ensures FilledOrder(o, rate, price, volume, avg).action == o.action
  {
    hide BaseFee, Ratio, Min;
  }

  /** The average price is only recorded in the fill of a sale. */
  lemma UnreadAverage(o: Order, rate: real, price: real, volume: real, avg: Double, other: Double)
    requires o.action.Buy?
    ensures FilledOrder(o, rate, price, volume, avg) == FilledOrder(o, rate, price, volume, other)
  {
    hide BaseFee, Ratio, Min;
  }

  lemma SettleLast(s: State, klines: seq<Kline>, k: Kline)
    ensures var t := SettlePositions(s, klines);
            SettlePositions(s, klines + [k]) ==
            if k.symbol in t.positions then t.(positions := t.positions[k.symbol := PT.Settled(t.positions[k.symbol], k.close)])
            else t
  {
    assert (klines + [k])[..|klines|] == klines;
  }

  // ---- Sums over trackers -------------------------------------------------------------------

  /** The positions of some symbols. */
  ghost function Only(m: map<Symbol, PT.Position>, keys: set<Symbol>): (r: map<Symbol, PT.Position>)
  {
    map y | y in keys && y in m :: m[y]
  }

  lemma AllOf(m: map<Symbol, PT.Position>)
    ensures Only(m, m.Keys) == m && Only(m, {}) == map[]
  {
  }

  lemma OneLess(m: map<Symbol, PT.Position>, keys: set<Symbol>, y: Symbol, f: PT.Position -> real)
    requires y in keys && y in m
    ensures Total(Only(m, keys), f) == f(m[y]) + Total(Only(m, keys - {y}), f)
    ensures Only(m, {}) == map[]
  {
    L.TotalSplit(Only(m, keys), y, f);
    assert Only(m, keys) - {y} == Only(m, keys - {y});
  }

  lemma BasisOfEmpty(p: PT.Position)
    ensures PT.Empty(p) ==> PT.Basis(p) == 0.0
  {
  }

  lemma SweepNone(s: State, orders: seq<Order>, tick: Tick)
    ensures Sweep(s, orders[..0], tick) == Swept(s, [], [])
  {
  }

  lemma VisitedUpdate(done: seq<Order>, orders: seq<Order>, i: nat, f: Order)
    requires |done| == i < |orders|
    ensures (done + orders[i..])[i := f] == (done + [f]) + orders[i + 1..]
  {
  }

  lemma SweepPrefix(s: State, orders: seq<Order>, tick: Tick, y: Symbol, i: nat)
    requires Running(s) && QueueOk(orders, y, s.nextId) && ValidTick(tick) && i < |orders|
    ensures var w := Sweep(s, orders[..i], tick);
            var p := ProcessOrder(w.state, orders[i], tick);
            && Running(w.state) && orders[i].symbol == y && Pending(orders[i], y, w.state.nextId)
            && w.state.queues == s.queues && |w.visited| == i
            && Sweep(s, orders[..i + 1], tick) == Swept(p.state, w.visited + [p.order], w.children + p.children)
  {
    hide ProcessOrder;
    assert orders[..i + 1][..i] == orders[..i];
    assert forall o <- orders[..i] :: o in orders;
    assert orders[i] in orders;
    SweepCore(s, orders[..i], tick, y);
  }

  lemma NeverIgnored(s: State, o: Order, tick: Tick)
    ensures JudgeMarket(o, tick, s.account.cash, PositionOf(s, o.symbol).closable, s.slippage, s.rate) != Ignore
    ensures JudgeLimit(o, tick, s.account.cash, PositionOf(s, o.symbol).closable, s.slippage, s.rate) != Ignore
  {
  }

  lemma ReceiveShape(s: State, y: Symbol, q: real, price: real, fee: real)
    ensures var r := Receive(s, y, q, price, fee);
            r == s.(positions := s.positions[y := PT.Bought(PositionOf(s, y), 1, q, price, fee)], history := r.history)
  {
    hide PT.Bought;
  }

  lemma ReleaseShape(s: State, y: Symbol, q: real, price: real, fee: real)
    requires !s.halted
    ensures var r, sold := Release(s, y, q, price, fee), PT.Sold(PositionOf(s, y), q, price, fee);
            && (r.halted <==> sold.LogicError?)
            && (sold.Ok? ==> r == s.(positions := s.positions[y := sold.value], history := r.history))
  {
    hide PT.Sold, ClosingGain;
  }

  /** It makes no difference whether the tracker exists before shares are moved. */
  lemma TrackerMadeFirst(s: State, y: Symbol, q: real, price: real, fee: real)
    ensures Receive(WithTracker(s, y), y, q, price, fee) == Receive(s, y, q, price, fee)
    ensures Release(WithTracker(s, y), y, q, price, fee) == Release(s, y, q, price, fee)
  {
    hide PT.Bought, PT.Sold, ClosingGain;
    var p := PT.Bought(PositionOf(s, y), 1, q, price, fee);
    assert y !in s.positions ==> s.positions[y := PT.FRESH][y := p] == s.positions[y := p];
    var r := PT.Sold(PositionOf(s, y), q, price, fee);
    if r.Ok? && y !in s.positions {
      assert s.positions[y := PT.FRESH][y := r.value] == s.positions[y := r.value];
    }
  }

  lemma ReceiveGoesOn(s: State, y: Symbol, q: real, price: real, fee: real)
    ensures Receive(s, y, q, price, fee).halted == s.halted
  {
    hide PT.Bought;
  }

  /** ProcessOrder is the matcher followed by the order update. */
  lemma MatchedThenDelivered(s: State, o: Order, tick: Tick)
    requires Running(s) && Pending(o, o.symbol, s.nextId) && ValidTick(tick)
    ensures var v := Judge(s, o, tick);
            var t, f := StateAfter(s, o, v), OrderAfter(s, o, v);
            && !Deliver(t, f).halted && Deliver(t, f).log == s.log
            && (v.Ignore? ==> t == s && f == o)
            && f.status != Cancelled
            && ProcessOrder(s, o, tick)
               == if v.Ignore? then Processed(s, o, [])
                  else if f.Finished() then Spawned(Deliver(t, f).(log := s.log + [f]), f)
                  else Spawned(Deliver(t, f), f)
  {
    hide JudgeLimit, JudgeMarket;
    var v := Judge(s, o, tick);
    if v.Execute? {
      Executed(s, o, tick);
      ExecutedThenDelivered(s, o, tick);
    } else {
      hide FilledOrder, Receive, Release;
    }
  }

  lemma ExecutedThenDelivered(s: State, o: Order, tick: Tick)
    requires Running(s) && Judge(s, o, tick).Execute?
    ensures var v := Judge(s, o, tick);
            && StateAfter(s, o, v) == BeforeDelivery(s, o, tick)
            && OrderAfter(s, o, v) == FillOf(s, o, tick)
  {
    hide FilledOrder, FeeHistory, JudgeLimit, JudgeMarket;
  }

  /** The divisions that make a child order are by quantities that are not zero. */
  lemma ChildDivisors(s: State, o: Order, tick: Tick)
    requires Running(s) && Pending(o, o.symbol, s.nextId) && ValidTick(tick)
    ensures var f := OrderAfter(s, o, Judge(s, o, tick));
            !AlmostEq(f.unfilledQuantity, 0.0) ==>
              f.quantity != 0.0 && f.filledQuantity / f.quantity != 0.0
  {
    hide FilledOrder, JudgeLimit, JudgeMarket;
    if Judge(s, o, tick).Execute? {
      Executed(s, o, tick);
      ExecutedThenDelivered(s, o, tick);
      var f := FillOf(s, o, tick);
      PartOfWhole(f.filledQuantity, f.quantity);
    }
  }
}
