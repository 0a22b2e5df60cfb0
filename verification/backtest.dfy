/** The backtest's day loop.  Strategies are modelled as arbitrary orders at every point where the
    program calls them, so what holds here holds for every strategy. */
module Backtest {
  import opened Arithmetic
  import opened Approx
  import opened CerebroStruct
  import opened BrokerSpec
  import opened BrokerCore
  import opened Broker

  datatype DividendRecord = DividendRecord(roundLot: int, cash: real, share: real)

  /** What the strategies order before a tick, and the tick. */
  datatype Moment = Moment(orders: seq<Request>, tick: Tick)

  /** One trading day: orders before the opening, the dividends of the day, orders at the opening,
      the ticks, orders at the close, and the daily klines if there are any. */
  datatype Day = Day(
    preMarket: seq<Request>,
    dividends: map<Symbol, DividendRecord>,
    opening: seq<Request>,
    moments: seq<Moment>,
    closing: seq<Request>,
    klines: Option<seq<Kline>>)

  ghost predicate ValidDividend(d: DividendRecord)
  {
    d.roundLot > 0 && d.cash >= 0.0 && d.share >= 0.0 && OnGrid(d.share)
  }

  ghost predicate ValidOrders(orders: seq<Request>)
  {
    forall q <- orders :: ValidRequest(q)
  }

  ghost predicate ValidDay(d: Day)
  {
    && ValidOrders(d.preMarket) && ValidOrders(d.opening) && ValidOrders(d.closing)
    && (forall y <- d.dividends :: ValidDividend(d.dividends[y]))
    && (forall m <- d.moments :: ValidOrders(m.orders) && ValidTick(m.tick))
  }

  /** How many lots of shares get the dividend: the fraction is cut off. */
  function Lots(quantity: real, roundLot: int): (n: int)
    requires roundLot > 0
  {
    (quantity / roundLot as real).Floor
  }

  function DividendRequest(y: Symbol, d: DividendRecord, lots: int): (q: Request)
  {
    var cash := d.cash * lots as real;
    Request(y, Dividend, if cash == 0.0 then Market else Limit, cash, d.share * lots as real, false)
  }

  /** process_dividend as a step: a dividend for the whole lots that are held. */
  ghost function AfterDividend(s: State, dividends: map<Symbol, DividendRecord>, y: Symbol): (r: State)
  {
    if y in dividends && y in s.positions && dividends[y].roundLot > 0 then
      var d := dividends[y];
      Step(s, Event.Commit(DividendRequest(y, d, Lots(s.positions[y].quantity, d.roundLot))))
    else s
  }

  /** A dividend pays for whole lots, and never for more shares than are held. */
  lemma LotsHeld(quantity: real, roundLot: int)
    requires roundLot > 0 && quantity >= 0.0
    ensures Lots(quantity, roundLot) >= 0
    ensures Lots(quantity, roundLot) as real * roundLot as real <= quantity
          < (Lots(quantity, roundLot) + 1) as real * roundLot as real
  {
    var lot := roundLot as real;
    var x := quantity / lot;
    QuotientTimes(quantity, lot);
    var n := x.Floor;
    if x < 0.0 {
      Scaling(-x, lot);
    }
    Scaling(x - n as real, lot);
    Scaling((n + 1) as real - x, lot);
    assert (x - n as real) * lot == quantity - n as real * lot;
    assert ((n + 1) as real - x) * lot == (n + 1) as real * lot - quantity;
    if (n + 1) as real * lot == quantity {
      QuotientIs((n + 1) as real, lot, quantity);
    }
  }

  lemma {:induction false} GridTimes(x: real, n: nat)
    requires OnGrid(x)
    ensures OnGrid(x * n as real)
  {
    var a: int :| x == GridPoint(a);
    assert x * n as real == GridPoint(a * n) by {
      assert (a * n) as real == a as real * n as real;
    }
  }

  lemma DividendIsValid(y: Symbol, d: DividendRecord, lots: int)
    requires ValidDividend(d) && lots >= 0
    ensures ValidRequest(DividendRequest(y, d, lots))
  {
    GridTimes(d.share, lots);
    Scaling(d.share, lots as real);
    Scaling(d.cash, lots as real);
  }

  /** The cash of a dividend order: all of it, or none when there are no shares. */
  lemma DividendCash(s: State, q: Request)
    requires ValidRequest(q) && q.action.Dividend? && !q.done
    ensures CommitStep(s, q).account.cash == s.account.cash + (if q.quantity == 0.0 then 0.0 else q.price)
  {
    hide Receive;
    var t := Issued(s, q.symbol);
    GridIsExact(q.quantity, q.quantity);
    ReceiveCash(t, q.symbol, q.quantity, 0.0, 0.0);
  }

  lemma ReceiveCash(s: State, y: Symbol, q: real, price: real, fee: real)
    ensures Receive(s, y, q, price, fee).account == s.account
  {
    hide PT.Bought;
  }

  /** A dividend reaches the account exactly when it also hands out shares, or is for no cash. */
  lemma DividendReachesCash(s: State, dividends: map<Symbol, DividendRecord>, y: Symbol)
    requires Core(s) && y in dividends && y in s.positions && ValidDividend(dividends[y])
    ensures var d := dividends[y];
            var lots := Lots(s.positions[y].quantity, d.roundLot) as real;
            var credited := AfterDividend(s, dividends, y).account.cash - s.account.cash;
            credited == d.cash * lots <==> (d.share * lots != 0.0 || d.cash * lots == 0.0)
  {
    hide CommitStep, Core, Lots, ValidRequest, PT.Sound;
    var d := dividends[y];
    var lots := Lots(s.positions[y].quantity, d.roundLot);
    SoundAt(s, y);
    NotHalted(s);
    LotsHeld(s.positions[y].quantity, d.roundLot);
    DividendIsValid(y, d, lots);
    DividendCash(s, DividendRequest(y, d, lots));
  }

  // ---- A day as a run ----------------------------------------------------------------------

  ghost function Submitted(s: State, orders: seq<Request>): (r: State)
    decreases |orders|
  {
    if orders == [] then s
    else
      var n := |orders| - 1;
      Step(Submitted(s, orders[..n]), Event.Commit(orders[n]))
  }

  ghost function Replayed(s: State, moments: seq<Moment>): (r: State)
    decreases |moments|
  {
    if moments == [] then s
    else
      var n := |moments| - 1;
      Step(Submitted(Replayed(s, moments[..n]), moments[n].orders), Event.OnTick(moments[n].tick))
  }

  /** The dividends of the symbols of `ys`, one after the other. */
  ghost function AfterDividends(s: State, dividends: map<Symbol, DividendRecord>, ys: seq<Symbol>): (r: State)
    decreases |ys|
  {
    if ys == [] then s
    else
      var n := |ys| - 1;
      AfterDividend(AfterDividends(s, dividends, ys[..n]), dividends, ys[n])
  }

  /** A trading day in which the trackers `ys` get their dividends. */
  ghost function AfterDay(s: State, day: Day, ys: seq<Symbol>): (r: State)
  {
    var morning := Submitted(AfterDividends(Submitted(s, day.preMarket), day.dividends, ys), day.opening);
    var closed := Submitted(Replayed(morning, day.moments), day.closing);
    if day.klines.Some? then Step(closed, Event.Settle(day.klines.value)) else closed
  }

  ghost function AfterDays(s: State, days: seq<Day>, visits: seq<seq<Symbol>>): (r: State)
    requires |visits| == |days|
    decreases |days|
  {
    if days == [] then s
    else
      var n := |days| - 1;
      AfterDay(AfterDays(s, days[..n], visits[..n]), days[n], visits[n])
  }

  /** A day's dividends go once to every tracker there is before the opening. */
  ghost predicate EveryTracker(s: State, day: Day, ys: seq<Symbol>)
  {
    Distinct(ys) && forall y :: y in ys <==> y in Submitted(s, day.preMarket).positions
  }

  ghost predicate EveryDay(s: State, days: seq<Day>, visits: seq<seq<Symbol>>)
    requires |visits| == |days|
    decreases |days|
  {
    days == [] ||
      var n := |days| - 1;
      EveryDay(s, days[..n], visits[..n]) && EveryTracker(AfterDays(s, days[..n], visits[..n]), days[n], visits[n])
  }

  lemma SubmittedSnoc(s: State, orders: seq<Request>, q: Request)
    ensures Submitted(s, orders + [q]) == Step(Submitted(s, orders), Event.Commit(q))
  {
    hide Step;
    assert (orders + [q])[..|orders|] == orders;
  }

  lemma ReplayedSnoc(s: State, moments: seq<Moment>, m: Moment)
    ensures Replayed(s, moments + [m]) == Step(Submitted(Replayed(s, moments), m.orders), Event.OnTick(m.tick))
  {
    hide Step, Submitted;
    assert (moments + [m])[..|moments|] == moments;
  }

  lemma DividendsSnoc(s: State, dividends: map<Symbol, DividendRecord>, ys: seq<Symbol>, y: Symbol)
    ensures AfterDividends(s, dividends, ys + [y]) == AfterDividend(AfterDividends(s, dividends, ys), dividends, y)
  {
    hide AfterDividend;
    assert (ys + [y])[..|ys|] == ys;
  }

  lemma DaysSnoc(s: State, days: seq<Day>, visits: seq<seq<Symbol>>, day: Day, ys: seq<Symbol>)
    requires |visits| == |days|
    ensures AfterDays(s, days + [day], visits + [ys]) == AfterDay(AfterDays(s, days, visits), day, ys)
    ensures EveryDay(s, days + [day], visits + [ys])
       <==> EveryDay(s, days, visits) && EveryTracker(AfterDays(s, days, visits), day, ys)
  {
    hide AfterDay, EveryTracker;
    assert (days + [day])[..|days|] == days && (visits + [ys])[..|days|] == visits;
  }

  predicate Distinct(ys: seq<Symbol>)
  {
    forall i, j :: 0 <= i < j < |ys| ==> ys[i] != ys[j]
  }

  /** The shares that a dividend hands out for a position. */
  function NewShares(p: PT.Position, dividends: map<Symbol, DividendRecord>, y: Symbol): (q: real)
  {
    if y in dividends && dividends[y].roundLot > 0 then
      dividends[y].share * Lots(p.quantity, dividends[y].roundLot) as real
    else 0.0
  }

  lemma DividendShares(s: State, q: Request)
    requires Core(s) && ValidRequest(q) && q.action.Dividend? && !q.done && q.symbol in s.positions
    ensures var t := CommitStep(s, q);
            && t.positions.Keys == s.positions.Keys
            && (forall x <- s.positions :: x != q.symbol ==> t.positions[x] == s.positions[x])
            && t.positions[q.symbol].quantity == s.positions[q.symbol].quantity + q.quantity
            && t.positions[q.symbol].closable == s.positions[q.symbol].closable
  {
    hide PT.Bought;
    GridIsExact(q.quantity, q.quantity);
    PT.BoughtBasis(s.positions[q.symbol], q.quantity, 0.0, 0.0);
  }

  lemma OneDividend(s: State, dividends: map<Symbol, DividendRecord>, y: Symbol)
    requires Core(s) && y in s.positions
    requires forall x <- dividends :: ValidDividend(dividends[x])
    ensures var t := AfterDividend(s, dividends, y);
            && Core(t) && t.positions.Keys == s.positions.Keys
            && (forall x <- s.positions :: x != y ==> t.positions[x] == s.positions[x])
            && t.positions[y].quantity == s.positions[y].quantity + NewShares(s.positions[y], dividends, y)
            && t.positions[y].closable == s.positions[y].closable
  {
    hide CommitStep, Core, Lots, PT.Sound, ValidRequest;
    if y in dividends {
      var d := dividends[y];
      assert ValidDividend(d);
      var lots := Lots(s.positions[y].quantity, d.roundLot);
      SoundAt(s, y);
      NotHalted(s);
      LotsHeld(s.positions[y].quantity, d.roundLot);
      DividendIsValid(y, d, lots);
      DividendShares(s, DividendRequest(y, d, lots));
      CommitCore(s, DividendRequest(y, d, lots));
    }
  }

  /** The dividends of a day: every tracker gets the shares for the lots that were held before
      any of them was paid, exactly once, and none of them can be sold before the settlement. */
  lemma {:induction false} DividendsPaidOnce(s: State, dividends: map<Symbol, DividendRecord>, ys: seq<Symbol>)
    requires Core(s) && Distinct(ys) && forall y <- ys :: y in s.positions
    requires forall x <- dividends :: ValidDividend(dividends[x])
    ensures Core(AfterDividends(s, dividends, ys)) && PaidOnce(s, AfterDividends(s, dividends, ys), dividends, ys)
    decreases |ys|
  {
    hide AfterDividend, Core, NewShares, ValidDividend;
    if ys != [] {
      var n := |ys| - 1;
      assert forall y <- ys[..n] :: y in ys;
      DividendsPaidOnce(s, dividends, ys[..n]);
      var t := AfterDividends(s, dividends, ys[..n]);
      assert ys[n] !in ys[..n];
      OneDividend(t, dividends, ys[n]);
      PaidOneMore(s, t, AfterDividend(t, dividends, ys[n]), dividends, ys[..n], ys[n]);
      assert ys == ys[..n] + [ys[n]];
    }
  }

  ghost predicate PaidOnce(s: State, t: State, dividends: map<Symbol, DividendRecord>, ys: seq<Symbol>)
  {
    && t.positions.Keys == s.positions.Keys
    && forall y <- s.positions ::
         && t.positions[y].quantity
            == s.positions[y].quantity + (if y in ys then NewShares(s.positions[y], dividends, y) else 0.0)
         && t.positions[y].closable == s.positions[y].closable
  }

  lemma PaidOneMore(s: State, t: State, u: State, dividends: map<Symbol, DividendRecord>, ys: seq<Symbol>, y: Symbol)
    requires PaidOnce(s, t, dividends, ys) && y !in ys && y in s.positions
    requires u.positions.Keys == t.positions.Keys
    requires forall x <- t.positions :: x != y ==> u.positions[x] == t.positions[x]
    requires u.positions[y].quantity == t.positions[y].quantity + NewShares(t.positions[y], dividends, y)
    requires u.positions[y].closable == t.positions[y].closable
    ensures PaidOnce(s, u, dividends, ys + [y])
  {
    hide NewShares;
    SameQuantity(s.positions[y], t.positions[y], dividends, y);
    assert forall x :: x in ys + [y] <==> x in ys || x == y;
  }

  lemma SameQuantity(p: PT.Position, q: PT.Position, dividends: map<Symbol, DividendRecord>, y: Symbol)
    requires p.quantity == q.quantity
    ensures NewShares(p, dividends, y) == NewShares(q, dividends, y)
  {
  }

  lemma ReachableStep(s: State, e: Event)
    requires Reachable(s) && ValidEvent(e)
    ensures Reachable(Step(s, e))
  {
    hide Step, ValidEvent;
    var slippage: int, rate: real, events: seq<Event> :|
      slippage >= 0 && rate >= 0.0 && ValidEvents(events) && s == Run(Initial(slippage, rate), events);
    var more := events + [e];
    assert more[..|more| - 1] == events;
    assert Run(Initial(slippage, rate), more) == Step(s, e);
    assert forall x <- more :: x in events || x == e;
    assert ValidEvents(more);
  }

  /** What deposit_cash submits. */
  function DepositRequest(cash: real): (q: Request)
  {
    Request("Deposit Funds", Deposit, Market, cash, 1.0, false)
  }

  ghost function Started(slippage: int, rate: real, cash: real, state: int): (s: State)
  {
    if state == 0 then Step(Initial(slippage, rate), Event.Commit(DepositRequest(cash))) else Initial(slippage, rate)
  }

  /** A new backtest begins with the starting cash, its first order recorded; one that goes on from
      another state begins with nothing. */
  lemma StartedWith(slippage: int, rate: real, cash: real, state: int)
    ensures var s := Started(slippage, rate, cash, state);
            && s.account.cash == (if state == 0 then cash else 0.0)
            && s.nextId == (if state == 0 then 1000001 else 1000000)
            && |s.log| == (if state == 0 then 1 else 0)
            && (state == 0 ==> s.log[0].status.Filled? && s.log[0].action.Deposit? && s.log[0].id == 1000000)
            && s.positions == map[] && s.queues == map[] && s.slippage == slippage && s.rate == rate
  {
  }

  /** The dividend order is a market order when there is no cash. */
  lemma DividendKind(y: Symbol, d: DividendRecord, lots: int)
    ensures DividendRequest(y, d, lots).kind == if d.cash * lots as real == 0.0 then Market else Limit
  {
  }

  lemma StartingCash(cash: real)
    requires cash >= 0.0
    ensures ValidRequest(DepositRequest(cash))
  {
    assert 1.0 == GridPoint(1000000);
  }

  lemma InitialReachable(slippage: int, rate: real)
    requires slippage >= 0 && rate >= 0.0
    ensures Reachable(Initial(slippage, rate))
  {
    assert ValidEvents([]) && Run(Initial(slippage, rate), []) == Initial(slippage, rate);
  }

  class CerebroBacktest {
    const broker: CerebroBroker

    /** init: a new account and broker whose ids begin at FIRST_ID, and the starting cash, unless the
        backtest goes on from another state. */
    constructor (slippage: int, rate: real, cash: real, state: int)
      requires slippage >= 0 && rate >= 0.0 && cash >= 0.0
      ensures Ready() && fresh(broker) && fresh(broker.account) && fresh(broker.trackers.Values)
      ensures broker.State() == Started(slippage, rate, cash, state)
    {
      hide Step, Core, Reachable, Initial, ValidRequest, DepositRequest;
      var account := new CerebroAccountWrap(slippage, rate);
      broker := new CerebroBroker(account);
      new;
      InitialReachable(slippage, rate);
      if state == 0 {
        StartingCash(cash);
        ReachableStep(broker.State(), Event.Commit(DepositRequest(cash)));
        var id := broker.Submit(DepositRequest(cash));
        assert forall t <- broker.trackers.Values :: fresh(t);
      }
    }

    /** The broker is in a state that the invariants are proved of. */
    ghost predicate Ready()
      reads this, broker, broker.account, broker.trackers.Values
    {
      broker.Valid() && Reachable(broker.State())
    }

    method SubmitAll(orders: seq<Request>)
      requires Ready() && ValidOrders(orders)
      modifies broker, broker.account, broker.trackers.Values
      ensures Ready() && broker.Grows()
      ensures broker.State() == Submitted(old(broker.State()), orders)
    {
      hide Reachable, Step, Core, ValidRequest;
      ghost var before := broker.State();
      for i := 0 to |orders|
        invariant Ready() && broker.Grows()
        invariant broker.State() == Submitted(before, orders[..i])
      {
        assert orders[i] in orders;
        ghost var s := broker.State();
        var id := broker.Submit(orders[i]);
        ReachableStep(s, Event.Commit(orders[i]));
        SubmittedSnoc(before, orders[..i], orders[i]);
        assert orders[..i + 1] == orders[..i] + [orders[i]];
      }
      assert orders[..|orders|] == orders;
    }

    /** process_dividend: nothing without a record or a tracker, else a dividend for whole lots. */
    method ProcessDividend(dividends: map<Symbol, DividendRecord>, y: Symbol)
      requires Ready() && forall x <- dividends :: ValidDividend(dividends[x])
      modifies broker, broker.account, broker.trackers.Values
      ensures Ready() && broker.Grows()
      ensures broker.State() == AfterDividend(old(broker.State()), dividends, y)
    {
      hide Reachable, Step, Core, ValidRequest, Lots, DividendRequest;
      ghost var s := broker.State();
      if y !in dividends || y !in broker.trackers {
        return;
      }
      var d := dividends[y];
      assert ValidDividend(d);
      var held := broker.trackers[y].position.quantity;
      SoundAt(s, y);
      var lots := Lots(held, d.roundLot);
      LotsHeld(held, d.roundLot);
      DividendIsValid(y, d, lots);
      var id := broker.Submit(DividendRequest(y, d, lots));
      ReachableStep(s, Event.Commit(DividendRequest(y, d, lots)));
    }

    /** Every tracker that exists when the day begins is visited once. */
    method ProcessDividends(dividends: map<Symbol, DividendRecord>) returns (ghost visited: seq<Symbol>)
      requires Ready() && forall x <- dividends :: ValidDividend(dividends[x])
      modifies broker, broker.account, broker.trackers.Values
      ensures Ready() && broker.Grows()
      ensures Distinct(visited) && (forall y :: y in visited <==> y in old(broker.trackers))
      ensures broker.State() == AfterDividends(old(broker.State()), dividends, visited)
    {
      hide Reachable, Step, Core, ValidDividend, AfterDividend;
      ghost var before := broker.State();
      var symbols := broker.trackers.Keys;
      visited := [];
      while symbols != {}
        invariant Ready() && broker.Grows()
        invariant Distinct(visited) && (forall y :: y in visited <==> y in old(broker.trackers) && y !in symbols)
        invariant symbols <= old(broker.trackers).Keys
        invariant broker.State() == AfterDividends(before, dividends, visited)
        decreases symbols
      {
        var y :| y in symbols;
        ProcessDividend(dividends, y);
        DividendsSnoc(before, dividends, visited, y);
        visited := visited + [y];
        symbols := symbols - {y};
      }
    }

    method Replay(moments: seq<Moment>)
      requires Ready() && forall m <- moments :: ValidOrders(m.orders) && ValidTick(m.tick)
      modifies broker, broker.account, broker.trackers.Values
      ensures Ready() && broker.Grows()
      ensures broker.State() == Replayed(old(broker.State()), moments)
    {
      hide Reachable, Step, Core, ValidOrders, ValidTick, Submitted;
      ghost var before := broker.State();
      for i := 0 to |moments|
        invariant Ready() && broker.Grows()
        invariant broker.State() == Replayed(before, moments[..i])
      {
        assert moments[i] in moments;
        SubmitAll(moments[i].orders);
        ghost var s := broker.State();
        broker.OnTick(moments[i].tick);
        ReachableStep(s, Event.OnTick(moments[i].tick));
        ReplayedSnoc(before, moments[..i], moments[i]);
        assert moments[..i + 1] == moments[..i] + [moments[i]];
      }
      assert moments[..|moments|] == moments;
    }

    method OpenDay(day: Day) returns (ghost visited: seq<Symbol>)
      requires Ready() && ValidDay(day)
      modifies broker, broker.account, broker.trackers.Values
      ensures Ready() && broker.Grows()
      ensures EveryTracker(old(broker.State()), day, visited)
      ensures broker.State()
           == Submitted(AfterDividends(Submitted(old(broker.State()), day.preMarket), day.dividends, visited), day.opening)
    {
      hide Reachable, Core, ValidOrders, ValidDividend, ValidTick, Step, Submitted, AfterDividends, Distinct;
      SubmitAll(day.preMarket);
      visited := ProcessDividends(day.dividends);
      SubmitAll(day.opening);
    }

    method SettleDay(klines: seq<Kline>)
      requires Ready()
      modifies broker, broker.account, broker.trackers.Values
      ensures Ready() && broker.Grows()
      ensures broker.State() == Step(old(broker.State()), Event.Settle(klines))
      ensures broker.State().account.marketValue == Total(broker.State().positions, PT.Basis)
    {
      hide Reachable, Core, Step;
      ghost var s := broker.State();
      broker.Settle(klines);
      ReachableStep(s, Event.Settle(klines));
      NotHalted(s);
      SettledIsValued(s, klines);
    }

    method RunDay(day: Day) returns (ghost visited: seq<Symbol>)
      requires Ready() && ValidDay(day)
      modifies broker, broker.account, broker.trackers.Values
      ensures Ready() && broker.Grows()
      ensures broker.State() == AfterDay(old(broker.State()), day, visited)
      ensures EveryTracker(old(broker.State()), day, visited)
      ensures day.klines.Some? ==>
                broker.State().account.marketValue == Total(broker.State().positions, PT.Basis)
    {
      hide Reachable, Core, ValidOrders, ValidDividend, ValidTick, Step, Submitted, AfterDividends, Replayed, EveryTracker, Total;
      visited := OpenDay(day);
      Replay(day.moments);
      SubmitAll(day.closing);
      if day.klines.Some? {
        SettleDay(day.klines.value);
      }
    }

    /** A whole backtest: every invariant proved of reachable states holds when it ends. */
    method RunAll(days: seq<Day>) returns (ghost visits: seq<seq<Symbol>>)
      requires Ready() && forall d <- days :: ValidDay(d)
      modifies broker, broker.account, broker.trackers.Values
      ensures Ready() && broker.Grows()
      ensures |visits| == |days| && broker.State() == AfterDays(old(broker.State()), days, visits)
      ensures EveryDay(old(broker.State()), days, visits)
    {
      hide Reachable, Core, ValidDay, AfterDay, EveryTracker;
      ghost var before := broker.State();
      visits := [];
      for i := 0 to |days|
        invariant Ready() && broker.Grows()
        invariant |visits| == i && broker.State() == AfterDays(before, days[..i], visits)
        invariant EveryDay(before, days[..i], visits)
      {
        assert days[i] in days;
        ghost var visited := RunDay(days[i]);
        DaysSnoc(before, days[..i], visits, days[i], visited);
        assert days[..i + 1] == days[..i] + [days[i]];
        visits := visits + [visited];
      }
      assert days[..|days|] == days;
    }
  }

  lemma NotHalted(s: State)
    requires Core(s)
    ensures !s.halted
  {
  }

  lemma SoundAt(s: State, y: Symbol)
    requires Core(s) && y in s.positions
    ensures s.positions[y].quantity >= 0.0
  {
  }

  lemma SettledIsValued(s: State, klines: seq<Kline>)
    requires !s.halted
    ensures Step(s, Event.Settle(klines)).account.marketValue
         == Total(Step(s, Event.Settle(klines)).positions, PT.Basis)
  {
    hide SettlePositions;
  }
}
