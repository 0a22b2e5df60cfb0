/** What the matcher does with one order on one tick, in terms of the order, the tick and the state
    alone: whether the order is filled, refused or left waiting, and everything a fill changes. */
module Matching {
  import opened Approx
  import opened CerebroStruct
  import opened PositionTracker
  import opened Account
  import opened BrokerSpec
  import opened BrokerCore
  import opened OrderSums
  import opened Overdraft
  import opened FillTerms

  // ---- Exchanges ---------------------------------------------------------------------------

  /** The symbols with a matcher: whatever stands before the first dot, behind it stands one of the
      two exchanges; or there is no dot, and the exchange is all. */
  lemma {:induction false} HasMatcherIs(y: Symbol, code: string, exchange: string)
    requires '.' !in code
    ensures HasMatcher(code + "." + exchange) <==> exchange == "SH" || exchange == "SZ"
    ensures HasMatcher(code) <==> code == "SH" || code == "SZ"
    decreases |code|
  {
    AfterFirstDot(code, exchange);
  }

  lemma {:induction false} AfterFirstDot(code: string, exchange: string)
    requires '.' !in code
    ensures Exchange(code + "." + exchange) == exchange
    decreases |code|
  {
    var y := code + "." + exchange;
    assert y[|code|] == '.';
    if code == "" {
      assert y[1..] == exchange;
    } else {
      assert y[0] == code[0] && y[1..] == code[1..] + "." + exchange;
      assert '.' !in code[1..];
      AfterFirstDot(code[1..], exchange);
    }
  }

  // ---- Filled, refused or waiting ----------------------------------------------------------

  /** The order reaches a matcher that knows its type. */
  predicate Taken(o: Order)
  {
    HasMatcher(o.symbol) && !o.kind.NoType?
  }

  /** The price that a purchase must be covered at: its limit, or the last price. */
  function Reference(o: Order, tick: Tick): (price: real)
  {
    if o.kind.Limit? then o.price else tick.last
  }

  /** Nothing speaks against the order: price limits, cash before commission, closable shares. */
  predicate Acceptable(s: State, o: Order, tick: Tick)
  {
    match o.action
    case Buy =>
      && BuyInLimits(o, tick)
      && (Reference(o, tick) + s.slippage as real * 0.01) * o.quantity <= s.account.cash + 0.0000005
    case Sell => SellInLimits(o, tick) && o.quantity <= PositionOf(s, o.symbol).closable
    case _ => false
  }

  /** The last price has reached the limit. */
  predicate Reached(o: Order, tick: Tick)
  {
    o.kind.Limit? ==> if o.action.Buy? then tick.last <= o.price + 0.0000005 else o.price <= tick.last + 0.0000005
  }

  /** Why an order that is not acceptable is refused. */
  function Refusal(o: Order, tick: Tick): (reason: Reason)
  {
    match o.action
    case Buy => if BuyInLimits(o, tick) then InsufficientFunds else OverLimitUp
    case Sell => if SellInLimits(o, tick) then InsufficientClosable else OverLimitDown
    case _ => UnknownAction
  }

  lemma BuyLimits(o: Order, tick: Tick)
    requires o.price >= 0.0 && tick.last >= 0.0
    ensures IsOverLimitUp(o, tick) <==> !BuyInLimits(o, tick)
  {
  }

  lemma SellLimits(o: Order, tick: Tick)
    requires o.price >= 0.0 && tick.last >= 0.0
    ensures IsOverLimitDown(o, tick) <==> !SellInLimits(o, tick)
  {
  }

  lemma Tolerant(x: real, y: real)
    ensures AlmostGt(x, y) <==> x > y + 0.0000005
    ensures AlmostLt(x, y) <==> x < y - 0.0000005
  {
  }

  /** The verdict, in plain terms. */
  lemma VerdictIs(s: State, o: Order, tick: Tick)
    requires Running(s) && Pending(o, o.symbol, s.nextId) && ValidTick(tick)
    ensures var v := Judge(s, o, tick);
            && (v.Ignore? <==> !Taken(o))
            && (v.Reject? <==> Taken(o) && !Acceptable(s, o, tick))
            && (v.Wait? <==> Taken(o) && Acceptable(s, o, tick) && !Reached(o, tick))
            && (v.Reject? ==> v.reason == Refusal(o, tick))
  {
    hide HasMatcher, Outlay, AlmostGt, AlmostLt, AlmostEq, IsOverLimitUp, IsOverLimitDown, BuyInLimits, SellInLimits,
      Running;
    BuyLimits(o, tick);
    SellLimits(o, tick);
    var cash, closable := s.account.cash, PositionOf(s, o.symbol).closable;
    OutlayWithoutFee(o, Reference(o, tick), s.slippage, s.rate);
    Tolerant(Outlay(o, Reference(o, tick), s.slippage, s.rate), cash);
    Tolerant(o.price, tick.last);
    EnoughClosable(s, o);
  }

  lemma EnoughClosable(s: State, o: Order)
    requires Running(s) && Pending(o, o.symbol, s.nextId)
    ensures AlmostGt(o.quantity, PositionOf(s, o.symbol).closable) <==> o.quantity > PositionOf(s, o.symbol).closable
  {
    PositionSound(s, o.symbol);
    GridIsExact(o.quantity, PositionOf(s, o.symbol).closable);
  }

  /** Exactly when an order is filled, when it is refused and why, and when it waits. */
  lemma OrderIsMatched(s: State, o: Order, tick: Tick)
    requires Running(s) && Pending(o, o.symbol, s.nextId) && ValidTick(tick)
    ensures var f := ProcessOrder(s, o, tick).order;
            && (f.status.Filled? <==> Taken(o) && Acceptable(s, o, tick) && Reached(o, tick))
            && (f.status.Rejected? <==> Taken(o) && !Acceptable(s, o, tick))
            && (f.status.PendingNew? <==> !Taken(o) || (Acceptable(s, o, tick) && !Reached(o, tick)))
            && (f.status.Rejected? ==> f == o.(status := Rejected, reason := Refusal(o, tick)))
            && (f.status.PendingNew? ==> f == o)
  {
    hide ProcessOrder, Judge, Taken, Acceptable, Reached, Refusal, Running;
    VerdictIs(s, o, tick);
    FilledIsExecuted(s, o, tick);
    if !Judge(s, o, tick).Execute? {
      UnexecutedOrder(s, o, tick);
    }
  }

  lemma UnexecutedOrder(s: State, o: Order, tick: Tick)
    requires Running(s) && Pending(o, o.symbol, s.nextId) && ValidTick(tick)
    requires !Judge(s, o, tick).Execute?
    ensures var p, v := ProcessOrder(s, o, tick), Judge(s, o, tick);
            && p.order == (if v.Reject? then o.(status := Rejected, reason := v.reason) else o)
            && p.state.account == s.account
  {
    hide Judge, FilledOrder, ChildOf;
  }

  /** An order that is not filled moves neither money nor shares. */
  lemma NothingMoves(s: State, o: Order, tick: Tick, y: Symbol)
    requires Running(s) && Pending(o, o.symbol, s.nextId) && ValidTick(tick)
    requires !ProcessOrder(s, o, tick).order.status.Filled?
    ensures ProcessOrder(s, o, tick).state.account == s.account
    ensures PositionOf(ProcessOrder(s, o, tick).state, y) == PositionOf(s, y)
    ensures ProcessOrder(s, o, tick).children == []
  {
    hide ProcessOrder, Judge, Running, Pending;
    FilledIsExecuted(s, o, tick);
    UnexecutedOrder(s, o, tick);
    UnexecutedLists(s, o, tick);
    PositionsAfterOrder(s, o, tick, y);
  }

  // ---- What a fill changes -----------------------------------------------------------------

  /** Purchases and market sales are filled at the last price, limit sales at the bid; slippage is
      added to all of them. */
  function FillPrice(s: State, o: Order, tick: Tick): (price: real)
  {
    (if o.action.Sell? && o.kind.Limit? then tick.bid else tick.last) + s.slippage as real * 0.01
  }

  /** As much as the other side of the book offers. */
  function FillQuantity(o: Order, tick: Tick): (q: real)
  {
    var volume := if o.action.Buy? then tick.askVolume else tick.bidVolume;
    if o.quantity < volume then o.quantity else volume
  }

  /** The fee that a fill and the order for the rest share: the carried one, or the commission on
      what is filled when nothing worth mentioning is carried. */
  function WholeFee(s: State, o: Order, tick: Tick): (fee: real)
  {
    if o.transactionCost <= 0.0000005 then FillPrice(s, o, tick) * FillQuantity(o, tick) * s.rate
    else o.transactionCost
  }

  /** The part of what is filled. */
  function FillFee(s: State, o: Order, tick: Tick): (fee: real)
    requires o.quantity != 0.0
  {
    WholeFee(s, o, tick) * (FillQuantity(o, tick) / o.quantity)
  }

  lemma ExecutionTerms(s: State, o: Order, tick: Tick)
    requires Running(s) && Pending(o, o.symbol, s.nextId) && ValidTick(tick) && Judge(s, o, tick).Execute?
    ensures o.action.Buy? || o.action.Sell?
    ensures var v := Judge(s, o, tick);
            && v.price == FillPrice(s, o, tick)
            && Min(v.volume, o.quantity) == FillQuantity(o, tick)
            && BaseFee(o, s.rate, v.price, v.volume) == WholeFee(s, o, tick)
  {
    hide HasMatcher, Outlay, IsOverLimitUp, IsOverLimitDown, Running;
  }

  /** The order that a fill leaves. */
  predicate FilledAs(s: State, o: Order, tick: Tick, f: Order)
  {
    && SameIdentity(o, f) && f.status.Filled? && f.reason.NoReason? && o.quantity != 0.0
    && f.filledPrice == FillPrice(s, o, tick)
    && f.filledQuantity == FillQuantity(o, tick)
    && f.unfilledQuantity == o.quantity - f.filledQuantity
    && f.transactionCost == FillFee(s, o, tick)
    && f.lastPositionPrice == (if o.action.Sell? then PositionOf(s, o.symbol).avgPrice else o.lastPositionPrice)
  }

  lemma FillIs(s: State, o: Order, tick: Tick)
    requires Running(s) && Pending(o, o.symbol, s.nextId) && ValidTick(tick) && Judge(s, o, tick).Execute?
    ensures FilledAs(s, o, tick, FillOf(s, o, tick))
  {
    hide Judge, OnGrid, BaseFee, WholeFee, FillPrice, FillQuantity, Running, Min;
    var v := Judge(s, o, tick);
    ExecutionTerms(s, o, tick);
    ExecuteFacts(s, o, tick);
    assert s.rate >= 0.0 by { RateSign(s); }
    FilledFacts(o, s.rate, v.price, v.volume, PositionOf(s, o.symbol).avgPrice);
  }

  lemma RateSign(s: State)
    requires Running(s)
    ensures s.rate >= 0.0
  {
  }

  /** The order for the rest. */
  function RestOf(f: Order, id: int, fee: real): (c: Order)
  {
    Order(id, f.symbol, f.action, f.kind, PendingNew, f.price, f.unfilledQuantity, 0.0, 0.0, 0.0, fee, Finite(0.0),
          NoReason, Some(f.id), f.root)
  }

  /** How the account pays for a fill. */
  function PaidFor(a: Account, f: Order): (r: Account)
  {
    var value := f.filledPrice * f.filledQuantity;
    if f.action.Buy? then
      a.(cash := a.cash - value - f.transactionCost, marketValue := a.marketValue + value,
         transactionCost := a.transactionCost + f.transactionCost)
    else
      a.(cash := a.cash + value - f.transactionCost, marketValue := a.marketValue - value,
         transactionCost := a.transactionCost + f.transactionCost)
  }

  lemma PaidIs(s: State, f: Order)
    ensures Paid(s, f).account == PaidFor(s.account, f)
  {
  }

  /** Everything that a fill does to order, log, children and account. */
  lemma FillChanges(s: State, o: Order, tick: Tick)
    requires Running(s) && Pending(o, o.symbol, s.nextId) && ValidTick(tick)
    requires ProcessOrder(s, o, tick).order.status.Filled?
    ensures var p, f := ProcessOrder(s, o, tick), ProcessOrder(s, o, tick).order;
            && FilledAs(s, o, tick, f)
            && p.state.log == s.log + [f]
            && p.state.account == PaidFor(s.account, f)
            && (f.unfilledQuantity == 0.0 ==> p.children == [])
            && (f.unfilledQuantity != 0.0 ==>
                  p.children == [RestOf(f, s.nextId, WholeFee(s, o, tick) - f.transactionCost)])
  {
    hide ProcessOrder, Judge, FilledAs, FillOf, Running, BaseFee, WholeFee, Ratio, OnGrid;
    FilledIsExecuted(s, o, tick);
    ExecutionTerms(s, o, tick);
    ExecutedFill(s, o, tick);
    FillIs(s, o, tick);
    Executed(s, o, tick);
    ExecutedLists(s, o, tick);
    PaidIs(s, FillOf(s, o, tick));
    ExecutedStateIs(s, o, tick);
  }

  lemma ExecutedStateIs(s: State, o: Order, tick: Tick)
    requires Running(s) && Pending(o, o.symbol, s.nextId) && ValidTick(tick) && Judge(s, o, tick).Execute?
    ensures ProcessOrder(s, o, tick).state.account == Paid(s, FillOf(s, o, tick)).account
  {
    hide ProcessOrder, Judge, FillOf, AfterDelivery, Paid, Running, Pending, ValidTick;
    Executed(s, o, tick);
  }

  /** What a fill does to the position of its symbol; no other position changes. */
  ghost predicate Moved(p: Position, r: Position, f: Order)
  {
    var q, value := f.filledQuantity, f.filledPrice * f.filledQuantity;
    if f.action.Buy? then
      && r.quantity == p.quantity + q && r.closable == p.closable
      && Basis(r) == Basis(p) + value
      && r.commissions == (if p.quantity == 0.0 then f.transactionCost else p.commissions + f.transactionCost)
    else
      && r.quantity == p.quantity - q && r.closable == p.closable - q
      && Basis(r) == (if r.quantity == 0.0 then 0.0 else Basis(p) - value)
      && r.commissions == p.commissions + f.transactionCost
  }

  lemma FillMoves(s: State, o: Order, tick: Tick, y: Symbol)
    requires Running(s) && Pending(o, o.symbol, s.nextId) && ValidTick(tick)
    requires ProcessOrder(s, o, tick).order.status.Filled?
    ensures var p := ProcessOrder(s, o, tick);
            if y == o.symbol then Moved(PositionOf(s, y), PositionOf(p.state, y), p.order)
            else PositionOf(p.state, y) == PositionOf(s, y)
  {
    hide ProcessOrder, Judge, FillOf, BeforeDelivery, Running, ValidTick, Deliver, Bought, Sold, Moved, Basis, OnGrid;
    FilledIsExecuted(s, o, tick);
    var u, f := BeforeDelivery(s, o, tick), FillOf(s, o, tick);
    PositionsAfterOrder(s, o, tick, y);
    ExecutedFill(s, o, tick);
    BeforeDeliveryFacts(s, o, tick);
    DeliverFacts(u, f);
    ExecutedLists(s, o, tick);
    if y == o.symbol {
      PositionSound(u, y);
      if o.action.Buy? {
        BoughtMoves(PositionOf(u, y), f);
      } else {
        SoldMoves(PositionOf(u, y), f);
      }
    }
  }

  lemma BoughtMoves(p: Position, f: Order)
    requires Sound(p) && OnGrid(f.filledQuantity) && f.filledQuantity > 0.0 && f.action.Buy?
    ensures Moved(p, Bought(p, 1, f.filledQuantity, f.filledPrice, f.transactionCost), f)
  {
    hide Bought, Basis, OnGrid;
    EmptyIs(p);
    Turned(f.filledPrice, f.filledQuantity);
    BoughtBasis(p, f.filledQuantity, f.filledPrice, f.transactionCost);
  }

  lemma SoldMoves(p: Position, f: Order)
    requires Sound(p) && OnGrid(f.filledQuantity) && 0.0 < f.filledQuantity <= p.closable && f.action.Sell?
    ensures Sold(p, f.filledQuantity, f.filledPrice, f.transactionCost).Ok?
    ensures Moved(p, Sold(p, f.filledQuantity, f.filledPrice, f.transactionCost).value, f)
  {
    hide Sold, Basis, OnGrid;
    Turned(f.filledPrice, f.filledQuantity);
    SoldBasis(p, f.filledQuantity, f.filledPrice, f.transactionCost);
  }

  lemma Turned(x: real, y: real)
    ensures x * y == y * x
  {
  }

  lemma EmptyIs(p: Position)
    requires Sound(p)
    ensures Empty(p) <==> p.quantity == 0.0
  {
    GridIsExact(p.quantity, p.quantity);
  }

  /** Which tracker an order leaves behind: a sale makes one when it gets past the price limit, a
      purchase when it is filled. */
  lemma TrackersAfter(s: State, o: Order, tick: Tick)
    requires Running(s) && Pending(o, o.symbol, s.nextId) && ValidTick(tick)
    ensures var p := ProcessOrder(s, o, tick);
            var made := if o.action.Sell? then Taken(o) && SellInLimits(o, tick) else p.order.status.Filled?;
            p.state.positions.Keys == s.positions.Keys + if made then {o.symbol} else {}
  {
    hide ProcessOrder, Judge, Taken, SellInLimits, Acceptable, Reached, Running, Pending;
    VerdictIs(s, o, tick);
    FilledIsExecuted(s, o, tick);
    if o.action.Sell? {
      SaleVerdicts(s, o, tick);
    }
    if Judge(s, o, tick).Execute? {
      ExecutedKeys(s, o, tick);
    } else {
      UnexecutedKeys(s, o, tick);
    }
  }

  lemma SaleVerdicts(s: State, o: Order, tick: Tick)
    requires Running(s) && Pending(o, o.symbol, s.nextId) && ValidTick(tick) && o.action.Sell?
    ensures Judge(s, o, tick) == Ignore || Judge(s, o, tick) == Reject(OverLimitDown)
       <==> !(Taken(o) && SellInLimits(o, tick))
  {
    hide Judge, HasMatcher, SellInLimits, Reached, Running;
    VerdictIs(s, o, tick);
  }

  lemma ExecutedKeys(s: State, o: Order, tick: Tick)
    requires Running(s) && Pending(o, o.symbol, s.nextId) && ValidTick(tick) && Judge(s, o, tick).Execute?
    ensures ProcessOrder(s, o, tick).state.positions.Keys == s.positions.Keys + {o.symbol}
  {
    hide ProcessOrder, Judge, FilledOrder, Running, ValidTick, Bought, Sold;
    Executed(s, o, tick);
    ExecutedFill(s, o, tick);
    DeliveredKeys(BeforeDelivery(s, o, tick), FillOf(s, o, tick));
  }

  lemma DeliveredKeys(s: State, f: Order)
    requires f.status.Filled? && (f.action.Buy? || f.action.Sell?)
    ensures Deliver(s, f).positions.Keys == s.positions.Keys + {f.symbol}
  {
    hide Bought, Sold;
  }

  lemma UnexecutedKeys(s: State, o: Order, tick: Tick)
    requires Running(s) && Pending(o, o.symbol, s.nextId) && ValidTick(tick) && !Judge(s, o, tick).Execute?
    ensures ProcessOrder(s, o, tick).state.positions.Keys == Looked(s, o, Judge(s, o, tick)).positions.Keys
  {
    hide Judge, FilledOrder, ChildOf, Looked;
  }

  function TradeOf(f: Order): (t: Trade)
  {
    if f.action.Buy? then Got(f.filledQuantity, f.filledPrice, f.transactionCost)
    else Gave(f.filledQuantity, f.filledPrice, f.transactionCost)
  }

  /** A fill is recorded among the trades of its symbol; there are none while nothing is held. */
  lemma TradeRecorded(s: State, o: Order, tick: Tick)
    requires Running(s) && Pending(o, o.symbol, s.nextId) && ValidTick(tick)
    requires ProcessOrder(s, o, tick).order.status.Filled?
    ensures var p := ProcessOrder(s, o, tick);
            var before := if PositionOf(s, o.symbol).quantity == 0.0 then [] else TradesOf(s.history, o.symbol);
            TradesOf(p.state.history, o.symbol)
            == if PositionOf(p.state, o.symbol).quantity == 0.0 then [] else before + [TradeOf(p.order)]
  {
    hide ProcessOrder, Judge, FilledOrder, Running, ValidTick, Deliver;
    FilledIsExecuted(s, o, tick);
    Executed(s, o, tick);
    ExecutedFill(s, o, tick);
    ExecutedLists(s, o, tick);
    BeforeDeliveryFacts(s, o, tick);
    PositionsAfterOrder(s, o, tick, o.symbol);
    DeliveredTrades(BeforeDelivery(s, o, tick), FillOf(s, o, tick));
  }

  lemma SaleRecorded(s: State, y: Symbol, q: real, price: real, fee: real)
    requires Sold(PositionOf(s, y), q, price, fee).Ok? && !AlmostZero(q)
    ensures var r := Release(s, y, q, price, fee);
            TradesOf(r.history, y) == if Empty(PositionOf(r, y)) then [] else TradesOf(s.history, y) + [Gave(q, price, fee)]
  {
    hide Sold, ClosingGain;
  }

  lemma DeliveredTrades(s: State, f: Order)
    requires Running(s) && f.status.Filled? && (f.action.Buy? || f.action.Sell?)
    requires OnGrid(f.filledQuantity) && f.filledQuantity > 0.0
    requires f.action.Sell? ==> f.filledQuantity <= PositionOf(s, f.symbol).closable
    ensures var r := Deliver(s, f);
            var before := if PositionOf(s, f.symbol).quantity == 0.0 then [] else TradesOf(s.history, f.symbol);
            TradesOf(r.history, f.symbol)
            == if PositionOf(r, f.symbol).quantity == 0.0 then [] else before + [TradeOf(f)]
  {
    hide Bought, Sold, Release;
    var p, r := PositionOf(s, f.symbol), Deliver(s, f);
    PositionSound(s, f.symbol);
    DeliverFacts(s, f);
    PositionSound(r, f.symbol);
    EmptyIs(p);
    EmptyIs(PositionOf(r, f.symbol));
    GridIsExact(f.filledQuantity, p.quantity);
    if f.action.Sell? {
      SoldBasis(p, f.filledQuantity, f.filledPrice, f.transactionCost);
      SaleRecorded(s, f.symbol, f.filledQuantity, f.filledPrice, f.transactionCost);
    } else {
      BoughtBasis(p, f.filledQuantity, f.filledPrice, f.transactionCost);
    }
  }

  // ---- First come, first served ------------------------------------------------------------

  function FinishedOf(orders: seq<Order>): (r: seq<Order>)
    decreases |orders|
  {
    if orders == [] then []
    else
      var n := |orders| - 1;
      FinishedOf(orders[..n]) + if orders[n].Finished() then [orders[n]] else []
  }

  /** The orders of a queue are served, and logged, in their order. */
  lemma {:induction false} LoggedInOrder(s: State, orders: seq<Order>, tick: Tick, y: Symbol)
    requires Running(s) && QueueOk(orders, y, s.nextId) && ValidTick(tick)
    ensures Sweep(s, orders, tick).state.log == s.log + FinishedOf(Sweep(s, orders, tick).visited)
    decreases |orders|
  {
    hide ProcessOrder, Running, Pending;
    if orders != [] {
      var n := |orders| - 1;
      QueuePrefix(orders, y, s.nextId);
      SweepCore(s, orders[..n], tick, y);
      LoggedInOrder(s, orders[..n], tick, y);
      var w := Sweep(s, orders[..n], tick);
      LaterPending(orders[n], y, s.nextId, w.state.nextId);
      StillRunning(w.state);
      ProcessOrderCore(w.state, orders[n], tick);
      var p := ProcessOrder(w.state, orders[n], tick);
      assert (w.visited + [p.order])[..n] == w.visited;
    }
  }

  lemma LaterPending(o: Order, y: Symbol, a: int, b: int)
    requires Pending(o, y, a) && a <= b
    ensures Pending(o, o.symbol, b)
  {
  }

  lemma StillRunning(s: State)
    requires Running(s)
    ensures !s.halted
  {
  }

  /** The first order of a queue is judged against the state before the pass; the last one against
      the state that all others have left. */
  lemma {:induction false} ServedInTurn(s: State, orders: seq<Order>, tick: Tick, y: Symbol, i: nat)
    requires Running(s) && QueueOk(orders, y, s.nextId) && ValidTick(tick) && i < |orders|
    ensures Sweep(s, orders, tick).visited[i]
         == ProcessOrder(Sweep(s, orders[..i], tick).state, orders[i], tick).order
    decreases |orders|
  {
    hide ProcessOrder, Running, Pending;
    var n := |orders| - 1;
    QueuePrefix(orders, y, s.nextId);
    SweepCore(s, orders[..n], tick, y);
    StillRunning(Sweep(s, orders[..n], tick).state);
    if i < n {
      ServedInTurn(s, orders[..n], tick, y, i);
      assert orders[..n][..i] == orders[..i];
    }
  }
}
