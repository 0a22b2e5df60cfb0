/** The simulated brokerage as a state machine: what one call of the broker does to its whole
    state.  The classes of module Broker are proved to do exactly these steps. */
module BrokerSpec {
  import opened Approx
  import opened CerebroStruct
  import opened PositionTracker
  import opened Account

  /** One change of an open position: shares got (price 0.0 for dividend shares) or sold. */
  datatype Trade = Got(quantity: real, price: real, fee: real) | Gave(quantity: real, price: real, fee: real)

  datatype Root = Root(symbol: Symbol, quantity: real)

  /** History variables: what crossed the account's boundary, what closed positions earned, and
      where every order comes from.  No step reads them.
      - closedGains: over the sells that emptied a position, (price - average price) * quantity
      - trades: per symbol, the trades since the position was last empty
      - roots: the orders that entered a queue, by id, with symbol and quantity
      - home: the symbol of every order ever issued
      - firstFee: the commission computed at the first fill of each chain
      - repriced: for each chain in which a child order's carried fee was replaced, by how much that
        raised the fees of the chain
      - largest: the largest quantity ever ordered */
  datatype History = History(
    deposits: real,
    withdrawals: real,
    dividends: real,
    closedGains: real,
    trades: map<Symbol, seq<Trade>>,
    roots: map<int, Root>,
    home: map<int, Symbol>,
    firstFee: map<int, real>,
    repriced: map<int, real>,
    largest: real)

  datatype State = State(
    account: Account,
    slippage: int,
    rate: real,
    queues: map<Symbol, seq<Order>>,
    log: seq<Order>,
    positions: map<Symbol, Position>,
    nextId: int,
    halted: bool,
    history: History)

  /** A request handed to the broker; `done` is set for a deposit that is only recorded. */
  datatype Request = Request(
    symbol: Symbol,
    action: Action,
    kind: OrderType,
    price: real,
    quantity: real,
    done: bool)

  datatype Event = Commit(request: Request) | OnTick(tick: Tick) | Settle(klines: seq<Kline>)

  /** The first order id that the backtest hands out. */
  const FIRST_ID := 1000000

  function Initial(slippage: int, rate: real): (s: State)
  {
    State(EMPTY, slippage, rate, map[], [], map[], FIRST_ID, false,
          History(0.0, 0.0, 0.0, 0.0, map[], map[], map[], map[], map[], 0.0))
  }

  function QueueOf(s: State, y: Symbol): (q: seq<Order>)
  {
    if y in s.queues then s.queues[y] else []
  }

  function PositionOf(s: State, y: Symbol): (p: Position)
  {
    if y in s.positions then s.positions[y] else FRESH
  }

  function TradesOf(h: History, y: Symbol): (t: seq<Trade>)
  {
    if y in h.trades then h.trades[y] else []
  }

  /** get_long_tracker with auto_create: a tracker exists afterwards. */
  function WithTracker(s: State, y: Symbol): (r: State)
  {
    if y in s.positions then s else s.(positions := s.positions[y := FRESH])
  }

  // ---- Matching -------------------------------------------------------------------------

  function Slip(slippage: int): (r: real)
  {
    slippage as real * PRICE_UNIT
  }

  function Commission(o: Order, rate: real): (r: real)
  {
    (o.filledPrice * o.filledQuantity) * rate
  }

  /** What a purchase is expected to take, checked against the cash. */
  function Outlay(o: Order, price: real, slippage: int, rate: real): (r: real)
  {
    (price + Slip(slippage)) * o.quantity + Commission(o, rate)
  }

  predicate LockedUp(tick: Tick)
  {
    !AlmostZero(tick.limitUp) && AlmostGe(tick.last, tick.limitUp, PRICE_UNIT)
  }

  predicate LockedDown(tick: Tick)
  {
    !AlmostZero(tick.limitDown) && AlmostLe(tick.last, tick.limitDown, PRICE_UNIT)
  }

  predicate IsOverLimitUp(o: Order, tick: Tick)
  {
    if AlmostZero(tick.limitUp) then false
    else if AlmostGe(tick.last, tick.limitUp, PRICE_UNIT) then true
    else if AlmostZero(o.price, PRICE_UNIT) then false
    else AlmostGt(o.price, tick.limitUp, PRICE_UNIT)
  }

  predicate IsOverLimitDown(o: Order, tick: Tick)
  {
    if AlmostZero(tick.limitDown) then false
    else if AlmostLe(tick.last, tick.limitDown, PRICE_UNIT) then true
    else if AlmostZero(o.price, PRICE_UNIT) then false
    else AlmostLt(o.price, tick.limitDown, PRICE_UNIT)
  }

  /** What the matcher decides about an order: nothing (`Ignore` is a non-zero return code),
      leave it pending, reject it, or fill it at a price against a volume. */
  datatype Verdict = Ignore | Wait | Reject(reason: Reason) | Execute(price: real, volume: real)

  function JudgeLimit(o: Order, tick: Tick, cash: real, closable: real, slippage: int, rate: real): (v: Verdict)
  {
    match o.action
    case Buy =>
      if IsOverLimitUp(o, tick) then Reject(OverLimitUp)
      else if AlmostGt(Outlay(o, o.price, slippage, rate), cash) then
        Reject(InsufficientFunds)
      else if AlmostLt(o.price, tick.last) then Wait
      else Execute(tick.last + Slip(slippage), tick.askVolume)
    case Sell =>
      if IsOverLimitDown(o, tick) then Reject(OverLimitDown)
      else if AlmostGt(o.quantity, closable) then Reject(InsufficientClosable)
      else if AlmostGt(o.price, tick.last) then Wait
      else Execute(tick.bid + Slip(slippage), tick.bidVolume)
    case _ => Reject(UnknownAction)
  }

  function JudgeMarket(o: Order, tick: Tick, cash: real, closable: real, slippage: int, rate: real): (v: Verdict)
  {
    match o.action
    case Buy =>
      if IsOverLimitUp(o, tick) then Reject(OverLimitUp)
      else if AlmostGt(Outlay(o, tick.last, slippage, rate), cash) then
        Reject(InsufficientFunds)
      else Execute(tick.last + Slip(slippage), tick.askVolume)
    case Sell =>
      if IsOverLimitDown(o, tick) then Reject(OverLimitDown)
      else if AlmostGt(o.quantity, closable) then Reject(InsufficientClosable)
      else Execute(tick.last + Slip(slippage), tick.bidVolume)
    case _ => Reject(UnknownAction)
  }

  /** The exchange part of a symbol: what follows the first dot, or the whole symbol. */
  function Exchange(y: Symbol): (e: string)
  {
    if '.' in y then AfterDot(y) else y
  }

  function AfterDot(y: Symbol): (e: string)
    requires '.' in y
  {
    if y[0] == '.' then y[1..] else AfterDot(y[1..])
  }

  predicate HasMatcher(y: Symbol)
  {
    Exchange(y) in {"SH", "SZ"}
  }

  function Judge(s: State, o: Order, tick: Tick): (v: Verdict)
  {
    if !HasMatcher(o.symbol) then Ignore
    else
      var cash, closable := s.account.cash, PositionOf(s, o.symbol).closable;
      match o.kind
      case Market => JudgeMarket(o, tick, cash, closable, s.slippage, s.rate)
      case Limit => JudgeLimit(o, tick, cash, closable, s.slippage, s.rate)
      case NoType => Ignore
  }

  /** Division of quantities and fees; the divisors are order and fill quantities, which are
      never zero in a reachable state. */
  function Ratio(x: real, y: real): (r: real)
  {
    if y == 0.0 then 0.0 else x / y
  }

  /** The fee a fill starts from: the one the order carries, or else a fresh commission. */
  function BaseFee(o: Order, rate: real, price: real, volume: real): (fee: real)
  {
    if AlmostEq(o.transactionCost, 0.0) then price * Min(volume, o.quantity) * rate
    else o.transactionCost
  }

  function FilledOrder(o: Order, rate: real, price: real, volume: real, avg: Double): (r: Order)
  {
    var fq := Min(volume, o.quantity);
    var fee := BaseFee(o, rate, price, volume);
    var f := o.(filledPrice := price, filledQuantity := fq, status := Filled,
                transactionCost := fee,
                lastPositionPrice := if o.action.Sell? then avg else o.lastPositionPrice);
    if AlmostEq(o.quantity, fq) then f
    else f.(unfilledQuantity := o.quantity - fq, transactionCost := fee * Ratio(fq, o.quantity))
  }

  function ChildOf(o: Order, id: int): (c: Order)
  {
    var part := Ratio(o.filledQuantity, o.quantity);
    Order(id, o.symbol, o.action, o.kind, PendingNew, o.price, o.unfilledQuantity, 0.0, 0.0, 0.0,
          Ratio(o.transactionCost, part) * (1.0 - part), Finite(0.0), NoReason, Some(o.id), o.root)
  }

  // ---- Position and account updates -----------------------------------------------------

  function SetTrades(h: History, y: Symbol, t: seq<Trade>): (r: History)
  {
    h.(trades := h.trades[y := t])
  }

  /** The tracker of `y` receives shares. */
  function Receive(s: State, y: Symbol, q: real, price: real, fee: real): (r: State)
  {
    var p := PositionOf(s, y);
    var before := if Empty(p) then [] else TradesOf(s.history, y);
    s.(positions := s.positions[y := Bought(p, 1, q, price, fee)],
       history := if AlmostZero(q) then s.history
                  else SetTrades(s.history, y, before + [Got(q, price, fee)]))
  }

  /** What a sale earned over the average price, counted when it empties the position. */
  function ClosingGain(before: Position, after: Position, q: real, price: real): (r: real)
  {
    if !Empty(before) && Empty(after) && before.avgPrice.Finite? then (price - before.avgPrice.value) * q else 0.0
  }

  /** The tracker of `y` gives shares up; `halted` records the exception of an empty position. */
  function Release(s: State, y: Symbol, q: real, price: real, fee: real): (r: State)
  {
    var p := PositionOf(s, y);
    match Sold(p, q, price, fee)
    case LogicError => s.(positions := s.positions[y := p], halted := true)
    case Ok(p') =>
      var h := s.history.(closedGains := s.history.closedGains + ClosingGain(p, p', q, price));
      s.(positions := s.positions[y := p'],
         history := if AlmostZero(q) then h
                    else SetTrades(h, y, if Empty(p') then [] else TradesOf(h, y) + [Gave(q, price, fee)]))
  }

  /** on_order_update. */
  function Deliver(s: State, o: Order): (r: State)
  {
    if o.Special() || !o.status.Filled? then s
    else match o.action
         case Buy => Receive(s, o.symbol, o.filledQuantity, o.filledPrice, o.transactionCost)
         case Sell => Release(s, o.symbol, o.filledQuantity, o.filledPrice, o.transactionCost)
         case SellShort => WithTracker(s, o.symbol)
         case BuyToCover => WithTracker(s, o.symbol)
         case _ => s
  }

  // ---- One order on one tick ------------------------------------------------------------

  datatype Processed = Processed(state: State, order: Order, children: seq<Order>)

  /** The matcher's own tracker look-up, which every sell reaches that is not refused for its
      price limit. */
  function Looked(s: State, o: Order, v: Verdict): (r: State)
  {
    if o.action.Sell? && v != Ignore && v != Reject(OverLimitDown) then WithTracker(s, o.symbol)
    else s
  }

  /** By how much replaced fees have raised the fees of a chain. */
  function Surcharge(h: History, r: int): (fee: real)
  {
    if r in h.repriced then h.repriced[r] else 0.0
  }

  function FeeHistory(h: History, o: Order, rate: real, price: real, volume: real): (r: History)
  {
    if o.parent.None? then h.(firstFee := h.firstFee[o.root := BaseFee(o, rate, price, volume)])
    else if AlmostEq(o.transactionCost, 0.0) then
      var more := Surcharge(h, o.root) + BaseFee(o, rate, price, volume) - o.transactionCost;
      h.(repriced := h.repriced[o.root := more])
    else h
  }

  function Notional(f: Order): (r: real)
  {
    f.filledPrice * f.filledQuantity
  }

  function Paid(s: State, f: Order): (r: State)
  {
    var value := Notional(f);
    s.(account := if f.action.Buy? then CashToMarketValue(s.account, value, f.transactionCost)
                  else MarketValueToCash(s.account, value, f.transactionCost))
  }

  function Spawned(s: State, f: Order): (r: Processed)
  {
    if AlmostEq(f.unfilledQuantity, 0.0) then Processed(s, f, [])
    else
      var h := s.history.(home := s.history.home[s.nextId := f.symbol]);
      Processed(s.(nextId := s.nextId + 1, history := h), f, [ChildOf(f, s.nextId)])
  }

  function ProcessOrder(s: State, o: Order, tick: Tick): (r: Processed)
  {
    if o.Finished() then Processed(s.(log := s.log + [o]), o, [])
    else
      var v := Judge(s, o, tick);
      var t := Looked(s, o, v);
      match v
      case Ignore => Processed(t, o, [])
      case Wait => Processed(t, o, [])
      case Reject(reason) =>
        var f := o.(status := Rejected, reason := reason);
        Spawned(t.(log := t.log + [f]), f)
      case Execute(price, volume) =>
        var f := FilledOrder(o, s.rate, price, volume, PositionOf(t, o.symbol).avgPrice);
        var u := t.(history := FeeHistory(t.history, o, s.rate, price, volume));
        var d := Deliver(Paid(u, f), f);
        if d.halted then Processed(d, f, [])
        else Spawned(d.(log := d.log + [f]), f)
  }

  // ---- One tick --------------------------------------------------------------------------

  /** A queue pass: the state, the visited orders in place, and the new child orders. */
  datatype Swept = Swept(state: State, visited: seq<Order>, children: seq<Order>)

  function Sweep(s: State, orders: seq<Order>, tick: Tick): (r: Swept)
    ensures |r.visited| == |orders|
    decreases |orders|
  {
    if orders == [] then Swept(s, [], [])
    else
      var n := |orders| - 1;
      var w := Sweep(s, orders[..n], tick);
      if w.state.halted then Swept(w.state, w.visited + [orders[n]], w.children)
      else
        var p := ProcessOrder(w.state, orders[n], tick);
        Swept(p.state, w.visited + [p.order], w.children + p.children)
  }

  function Unfinished(orders: seq<Order>): (r: seq<Order>)
    decreases |orders|
  {
    if orders == [] then []
    else
      var n := |orders| - 1;
      if orders[n].Finished() then Unfinished(orders[..n]) else Unfinished(orders[..n]) + [orders[n]]
  }

  function ProcessNormalOrder(s: State, tick: Tick): (r: State)
  {
    if tick.symbol !in s.queues then s
    else
      var w := Sweep(s, s.queues[tick.symbol], tick);
      var left := if w.state.halted then w.visited else Unfinished(w.visited) + w.children;
      w.state.(queues := w.state.queues[tick.symbol := left])
  }

  function MarkPosition(s: State, y: Symbol, last: real): (r: State)
  {
    if y in s.positions then s.(positions := s.positions[y := Marked(s.positions[y], last)]) else s
  }

  /** Sum over all trackers. */
  ghost function Total(m: map<Symbol, Position>, f: Position -> real): (r: real)
    decreases |m|
  {
    if m == map[] then 0.0
    else
      var y :| y in m;
      f(m[y]) + Total(m - {y}, f)
  }

  function Pnl(p: Position): (r: real)
  {
    p.positionPnl
  }

  ghost function Valued(s: State): (r: State)
  {
    s.(account := Revalued(s.account, Total(s.positions, Pnl), Total(s.positions, Basis)))
  }

  /** The state when the orders of a tick have been processed. */
  function AfterOrders(s: State, tick: Tick): (r: State)
  {
    var a := if Empty(PositionOf(s, tick.symbol)) then s else MarkPosition(s, tick.symbol, tick.last);
    ProcessNormalOrder(a, tick)
  }

  ghost function TickStep(s: State, tick: Tick): (r: State)
  {
    var b := AfterOrders(s, tick);
    if b.halted then b else Valued(MarkPosition(b, tick.symbol, tick.last))
  }

  // ---- Commit and settle -----------------------------------------------------------------

  function NewOrder(s: State, q: Request): (o: Order)
  {
    Order(s.nextId, q.symbol, q.action, q.kind, if q.done then Filled else PendingNew, q.price, q.quantity,
          0.0, 0.0, 0.0, 0.0, Finite(0.0), NoReason, None, s.nextId)
  }

  /** The money a deposit or withdrawal moves. */
  function Amount(o: Order): (r: real)
  {
    o.price * o.quantity
  }

  predicate SpecialFails(s: State, o: Order)
  {
    o.action.Withdraw? && !CanWithdraw(s.account, Amount(o))
  }

  /** A dividend: shares at price zero, then cash.  Without shares there is no cash either. */
  function DividendStep(s: State, o: Order): (r: State)
  {
    if AlmostZero(o.quantity) then WithTracker(s, o.symbol)
    else
      var t := Receive(s, o.symbol, o.quantity, 0.0, o.transactionCost);
      t.(account := AddCash(t.account, o.price, o.transactionCost),
         history := t.history.(dividends := t.history.dividends + o.price))
  }

  function DepositStep(s: State, o: Order): (r: State)
  {
    s.(account := AddCash(s.account, Amount(o), 0.0),
       history := s.history.(deposits := s.history.deposits + Amount(o)))
  }

  function WithdrawStep(s: State, o: Order): (r: State)
  {
    if SpecialFails(s, o) then s
    else s.(account := s.account.(cash := s.account.cash - Amount(o)),
            history := s.history.(withdrawals := s.history.withdrawals + Amount(o)))
  }

  function SpecialStep(s: State, o: Order): (r: State)
  {
    match o.action
    case Dividend => DividendStep(s, o)
    case Deposit => DepositStep(s, o)
    case Withdraw => WithdrawStep(s, o)
    case _ => s
  }

  function CommitOrder(s: State, o: Order): (r: State)
  {
    if !o.status.PendingNew? then s.(log := s.log + [o])
    else if !o.Special() then
      var h := s.history.(roots := s.history.roots[o.id := Root(o.symbol, o.quantity)],
                          largest := if s.history.largest < o.quantity then o.quantity else s.history.largest);
      s.(queues := s.queues[o.symbol := QueueOf(s, o.symbol) + [o]], history := h)
    else
      var t := SpecialStep(s, o);
      t.(log := t.log + [o.(status := if SpecialFails(s, o) then Rejected else Filled)])
  }

  /** The next id is taken from the generator. */
  function Issued(s: State, y: Symbol): (r: State)
  {
    s.(nextId := s.nextId + 1, history := s.history.(home := s.history.home[s.nextId := y]))
  }

  function CommitStep(s: State, q: Request): (r: State)
  {
    CommitOrder(Issued(s, q.symbol), NewOrder(s, q))
  }

  function SettlePositions(s: State, klines: seq<Kline>): (r: State)
    decreases |klines|
  {
    if klines == [] then s
    else
      var n := |klines| - 1;
      var t := SettlePositions(s, klines[..n]);
      var y := klines[n].symbol;
      if y in t.positions then
        t.(positions := t.positions[y := Settled(t.positions[y], klines[n].close)])
      else t
  }

  // ---- Runs ------------------------------------------------------------------------------

  ghost function Step(s: State, e: Event): (r: State)
  {
    if s.halted then s
    else match e
         case Commit(q) => CommitStep(s, q)
         case OnTick(tick) => TickStep(s, tick)
         case Settle(klines) => Valued(SettlePositions(s, klines))
  }

  ghost function Run(s: State, events: seq<Event>): (r: State)
    decreases |events|
  {
    if events == [] then s
    else
      var n := |events| - 1;
      Step(Run(s, events[..n]), events[n])
  }

  /** What the surroundings promise.  Quantities lie on the tolerance grid and are positive for
      orders that are queued; amounts and prices are not negative; a side of the book whose
      price is not locked at its limit has volume. */
  ghost predicate ValidRequest(q: Request)
  {
    && OnGrid(q.quantity) && q.price >= 0.0
    && (if q.action.Cancel? || q.action.Amend? || q.action.Dividend? || q.action.Deposit? || q.action.Withdraw?
        then q.quantity >= 0.0 else q.quantity > 0.0)
    && (q.done ==> q.action.Deposit?)
  }

  ghost predicate ValidTick(tick: Tick)
  {
    && tick.last >= 0.0 && tick.bid >= 0.0
    && OnGrid(tick.askVolume) && OnGrid(tick.bidVolume)
    && (tick.askVolume > 0.0 || LockedUp(tick))
    && (tick.bidVolume > 0.0 || LockedDown(tick))
  }

  ghost predicate ValidEvent(e: Event)
  {
    match e
    case Commit(q) => ValidRequest(q)
    case OnTick(tick) => ValidTick(tick)
    case Settle(_) => true
  }

  ghost predicate ValidEvents(events: seq<Event>)
  {
    forall e <- events :: ValidEvent(e)
  }

  /** The states that some run of a new broker gets to. */
  ghost predicate Reachable(s: State)
  {
    exists slippage: int, rate: real, events: seq<Event> ::
      slippage >= 0 && rate >= 0.0 && ValidEvents(events) && s == Run(Initial(slippage, rate), events)
  }
}
