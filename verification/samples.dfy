/** Runs that end in a state one would not expect: the failing inputs of the properties that the
    broker does not have. */
module SampleRuns {
  import opened Approx
  import opened CerebroStruct
  import opened PositionTracker
  import opened Account
  import opened BrokerSpec
  import opened BrokerCore
  import opened OrderSums
  import opened OrderBook
  import opened Overdraft
  import opened Progress
  import opened TPlusOne
  import opened FillTerms
  import opened Backtest
  import opened TradingDay

  const STOCK: Symbol := "1.SH"

  lemma StockHasMatcher()
    ensures HasMatcher(STOCK)
  {
    assert AfterDot("1.SH") == AfterDot("1.SH"[1..]) == "SH";
  }

  function Buying(kind: OrderType, price: real, quantity: real): (q: Request)
  {
    Request(STOCK, Buy, kind, price, quantity, false)
  }

  /** A tick without price limits. */
  function Quote(last: real, volume: real): (t: Tick)
  {
    Tick(STOCK, last, 0.0, 0.0, last, volume, volume)
  }

  // ---- One step at a time ------------------------------------------------------------------

  /** A state with money, no position and no order. */
  ghost predicate Funded(s: State, rate: real, cash: real)
  {
    && Reachable(s) && s.slippage == 0 && s.rate == rate && s.account == EMPTY.(cash := cash)
    && s.queues == map[] && s.positions == map[] && s.nextId == FIRST_ID + 1
    && |s.log| == 1 && s.log[0].Special() && s.log[0].root == FIRST_ID
    && s.history.largest == 0.0 && s.history.roots == map[]
  }

  lemma Deposited(rate: real, cash: real)
    requires rate >= 0.0 && cash >= 0.0
    ensures Funded(Step(Initial(0, rate), Commit(DepositRequest(cash))), rate, cash)
  {
    hide Reachable;
    InitialReachable(0, rate);
    StartingCash(cash);
    ReachableStep(Initial(0, rate), Commit(DepositRequest(cash)));
  }

  /** A state in which one order waits. */
  ghost predicate Waiting(s: State, o: Order)
  {
    && Reachable(s) && Core(s) && QueueOf(s, STOCK) == [o] && o.symbol == STOCK && o.action.Buy?
  }

  lemma Ordered(s: State, rate: real, cash: real, q: Request)
    requires Funded(s, rate, cash) && ValidRequest(q) && q.symbol == STOCK && q.action.Buy? && !q.done
    ensures var t, o := Step(s, Commit(q)), NewOrder(s, q);
            && Waiting(t, o)
            && t.slippage == 0 && t.rate == rate && t.account == s.account && t.positions == map[] && t.log == s.log
            && t.history.largest == q.quantity && t.history.roots == map[o.id := Root(STOCK, q.quantity)]
  {
    hide Reachable, Core, ValidRequest;
    ReachableCore(s);
    ReachableStep(s, Commit(q));
    ReachableCore(Step(s, Commit(q)));
    assert q.quantity > 0.0 by { PositiveQuantity(q); }
    NotHalted(s);
  }

  lemma PositiveQuantity(q: Request)
    requires ValidRequest(q) && q.action.Buy?
    ensures q.quantity > 0.0
  {
  }

  /** What the tick that fills the waiting order does. */
  ghost predicate Filled(s: State, o: Order, tick: Tick, t: State, f: Order)
  {
    && f == FilledOrder(o, s.rate, tick.last + Slip(s.slippage), tick.askVolume, Finite(0.0))
    && t.account.cash == s.account.cash - f.filledPrice * f.filledQuantity - f.transactionCost
    && t.account.transactionCost == s.account.transactionCost + f.transactionCost
    && t.log == s.log + [f]
    && QueueOf(t, STOCK) == (if AlmostEq(f.unfilledQuantity, 0.0) then [] else [ChildOf(f, s.nextId)])
    && PositionOf(t, STOCK).quantity == PositionOf(s, STOCK).quantity + f.filledQuantity
    && t.rate == s.rate && t.slippage == s.slippage && t.history.largest == s.history.largest
    && t.history.roots == s.history.roots
  }

  lemma MarkingQuiet(s: State, o: Order, tick: Tick)
    requires Core(s) && o.action.Buy?
    ensures var a := Marking(s, tick);
            && Judge(a, o, tick) == Judge(s, o, tick) && a.account == s.account && a.rate == s.rate
            && a.slippage == s.slippage && a.history == s.history && a.nextId == s.nextId && a.log == s.log
            && PositionOf(a, tick.symbol).quantity == PositionOf(s, tick.symbol).quantity
  {
    hide Outlay, HasMatcher, IsOverLimitUp, IsOverLimitDown;
  }

  /** What processing an order that is executed leaves, apart from positions. */
  lemma ExecutedState(a: State, o: Order, tick: Tick)
    requires Running(a) && Pending(o, o.symbol, a.nextId) && ValidTick(tick)
    requires Judge(a, o, tick).Execute?
    ensures var p, f := ProcessOrder(a, o, tick), FillOf(a, o, tick);
            && p.order == f && p.state.log == a.log + [f]
            && p.children == (if AlmostEq(f.unfilledQuantity, 0.0) then [] else [ChildOf(f, a.nextId)])
            && p.state.account == Paid(a, f).account && p.state.rate == a.rate && p.state.slippage == a.slippage
            && p.state.history.roots == a.history.roots && p.state.history.largest == a.history.largest
  {
    hide ProcessOrder, FillOf, Judge, AfterDelivery, ChildOf, AlmostEq, Paid, Running, Pending, ValidTick;
    Executed(a, o, tick);
    OrderRegister(a, o, tick);
  }

  lemma BoughtQuantity(a: State, o: Order, tick: Tick)
    requires Running(a) && Pending(o, o.symbol, a.nextId) && ValidTick(tick)
    requires Judge(a, o, tick).Execute? && o.action.Buy?
    ensures PositionOf(ProcessOrder(a, o, tick).state, o.symbol).quantity
         == PositionOf(a, o.symbol).quantity + FillOf(a, o, tick).filledQuantity
  {
    hide ProcessOrder, FillOf, Judge, BeforeDelivery, Running, ValidTick, Deliver, Bought;
    var u, f := BeforeDelivery(a, o, tick), FillOf(a, o, tick);
    PositionsAfterOrder(a, o, tick, o.symbol);
    ExecutedFill(a, o, tick);
    BeforeDeliveryFacts(a, o, tick);
    DeliverFacts(u, f);
    PositionSound(u, o.symbol);
    BoughtBasis(PositionOf(u, o.symbol), f.filledQuantity, f.filledPrice, f.transactionCost);
  }

  /** A queue pass over one order leaves the state of that order. */
  lemma NormalState(a: State, o: Order, tick: Tick)
    requires Core(a) && ValidTick(tick) && QueueOf(a, tick.symbol) == [o]
    ensures var b, p := ProcessNormalOrder(a, tick), ProcessOrder(a, o, tick);
            && b.account == p.state.account && b.rate == p.state.rate && b.slippage == p.state.slippage
            && b.history == p.state.history && !b.halted
  {
    hide ProcessOrder;
    NormalOne(a, o, tick);
    SweepOne(a, o, tick);
  }

  lemma ValuedMarks(b: State, y: Symbol, last: real)
    ensures var t := Valued(MarkPosition(b, y, last));
            && t.account.cash == b.account.cash && t.account.transactionCost == b.account.transactionCost
            && t.log == b.log && t.queues == b.queues && t.rate == b.rate && t.slippage == b.slippage
            && t.history == b.history && PositionOf(t, y).quantity == PositionOf(b, y).quantity
  {
  }

  lemma AvgUnread(o: Order, rate: real, price: real, volume: real, avg: Double)
    requires o.action.Buy?
    ensures FilledOrder(o, rate, price, volume, avg) == FilledOrder(o, rate, price, volume, Finite(0.0))
  {
    hide BaseFee, Ratio, AlmostEq, Min;
  }

  lemma TickFills(s: State, o: Order, tick: Tick)
    requires Waiting(s, o) && ValidTick(tick) && tick.symbol == STOCK && Judge(s, o, tick).Execute?
    ensures Filled(s, o, tick, Step(s, OnTick(tick)), FillOf(Marking(s, tick), o, tick))
  {
    hide Judge, Marking, ProcessOrder, FilledOrder, ChildOf, ValidTick, Core, Reachable, ProcessNormalOrder, AlmostEq,
      Marked, Valued, MarkPosition, Pending, Running;
    var a := Marking(s, tick);
    MarkingFacts(s, tick);
    MarkingQuiet(s, o, tick);
    CoreRuns(s);
    CoreRuns(a);
    var f := FillOf(a, o, tick);
    NormalOne(a, o, tick);
    NormalState(a, o, tick);
    ExecutedState(a, o, tick);
    BoughtQuantity(a, o, tick);
    BuyVerdict(a, o, tick);
    AvgUnread(o, a.rate, tick.last + Slip(a.slippage), tick.askVolume, PositionOf(a, STOCK).avgPrice);
    ValuedMarks(AfterOrders(s, tick), STOCK, tick.last);
    BoughtTerms(a, o, tick);
    NotHalted(s);
  }

  lemma BoughtTerms(a: State, o: Order, tick: Tick)
    requires Running(a) && Pending(o, o.symbol, a.nextId) && ValidTick(tick)
    requires o.action.Buy? && Judge(a, o, tick).Execute?
    ensures var f := FillOf(a, o, tick);
            && Paid(a, f).account.cash == a.account.cash - f.filledPrice * f.filledQuantity - f.transactionCost
            && Paid(a, f).account.transactionCost == a.account.transactionCost + f.transactionCost
            && f.status.Filled?
  {
    hide FillOf, Judge, Pending, Running, ValidTick;
    ExecutedFill(a, o, tick);
  }

  // ---- Deposit, buy, tick ------------------------------------------------------------------

  function BuyRun(cash: real, q: Request, tick: Tick): (events: seq<Event>)
  {
    [Commit(DepositRequest(cash)), Commit(q), OnTick(tick)]
  }

  lemma ThreeSteps(s: State, a: Event, b: Event, c: Event)
    ensures Run(s, [a, b, c]) == Step(Step(Step(s, a), b), c)
  {
    hide Step;
    assert [a, b, c][..2] == [a, b] && [a, b][..1] == [a] && [a][..0] == [];
    assert Run(s, []) == s;
    assert Run(s, [a]) == Step(s, a);
    assert Run(s, [a, b]) == Step(Step(s, a), b);
  }

  /** The conditions under which the run fills the whole order: it is covered before commission, and
      its limit is reached, up to the tolerance. */
  predicate Fillable(cash: real, kind: OrderType, price: real, quantity: real, last: real)
  {
    && cash >= 0.0 && price >= 0.0 && last >= 0.0 && quantity > 0.0
    && (|| (kind.Market? && last * quantity <= cash + 0.0000005)
        || (kind.Limit? && price * quantity <= cash + 0.0000005 && last <= price + 0.0000005))
  }

  lemma WillExecute(s: State, o: Order, cash: real, last: real, volume: real)
    requires Pending(o, STOCK, s.nextId) && o.action.Buy?
    requires s.slippage == 0 && s.account.cash == cash && Fillable(cash, o.kind, o.price, o.quantity, last)
    ensures Judge(s, o, Quote(last, volume)).Execute?
  {
    StockHasMatcher();
    hide HasMatcher, Outlay;
    OutlayWithoutFee(o, last, 0, s.rate);
    OutlayWithoutFee(o, o.price, 0, s.rate);
  }

  lemma WholeFill(o: Order, rate: real, price: real, avg: Double)
    requires o.quantity > 0.0 && o.transactionCost == 0.0 && o.unfilledQuantity == 0.0
    ensures var f := FilledOrder(o, rate, price, o.quantity, avg);
            && f.filledQuantity == o.quantity && f.filledPrice == price && f.unfilledQuantity == 0.0
            && AlmostEq(f.unfilledQuantity, 0.0)
            && f.transactionCost == price * o.quantity * rate
  {
  }

  lemma BuyRunEnds(rate: real, cash: real, kind: OrderType, price: real, quantity: real, last: real)
    requires rate >= 0.0 && OnGrid(quantity) && Fillable(cash, kind, price, quantity, last)
    ensures ValidEvents(BuyRun(cash, Buying(kind, price, quantity), Quote(last, quantity)))
    ensures var t := Run(Initial(0, rate), BuyRun(cash, Buying(kind, price, quantity), Quote(last, quantity)));
            && Reachable(t) && t.slippage == 0
            && t.account.cash == cash - last * quantity - last * quantity * rate
            && t.account.transactionCost == last * quantity * rate
            && t.history.largest == quantity && PositionOf(t, STOCK).quantity == quantity
            && QueueOf(t, STOCK) == []
  {
    hide Step, Reachable, Core, Judge, FilledOrder, Fillable, Run, ChildOf, PositionOf, AlmostEq;
    var q, tick := Buying(kind, price, quantity), Quote(last, quantity);
    var s1 := Step(Initial(0, rate), Commit(DepositRequest(cash)));
    var s2, o := Step(s1, Commit(q)), NewOrder(s1, q);
    var s3 := Step(s2, OnTick(tick));
    FillableMeans(cash, kind, price, quantity, last);
    StartingCash(cash);
    Deposited(rate, cash);
    Ordered(s1, rate, cash, q);
    WaitingPending(s2, o);
    WillExecute(s2, o, cash, last, quantity);
    TickFills(s2, o, tick);
    WholeFill(o, rate, last + Slip(0), Finite(0.0));
    NoPosition(s2);
    ReachableStep(s2, OnTick(tick));
    ThreeSteps(Initial(0, rate), Commit(DepositRequest(cash)), Commit(q), OnTick(tick));
  }

  lemma FillableMeans(cash: real, kind: OrderType, price: real, quantity: real, last: real)
    requires OnGrid(quantity) && Fillable(cash, kind, price, quantity, last)
    ensures cash >= 0.0 && ValidRequest(Buying(kind, price, quantity)) && ValidTick(Quote(last, quantity))
  {
  }

  lemma WaitingPending(s: State, o: Order)
    requires Waiting(s, o)
    ensures Pending(o, STOCK, s.nextId)
  {
    assert o in s.queues[STOCK];
  }

  lemma NoPosition(s: State)
    ensures s.positions == map[] ==> PositionOf(s, STOCK) == FRESH
  {
  }

  // ---- The failing inputs ------------------------------------------------------------------

  /** Ten in cash, one share at ten: the commission takes the cash below zero. */
  lemma CashBelowZero()
    ensures var run := BuyRun(10.0, Buying(Market, 0.0, 1.0), Quote(10.0, 1.0));
            && ValidEvents(run)
            && Run(Initial(0, 0.001), run).account.cash == -0.01
  {
    hide Run, ValidEvents;
    assert 1.0 == GridPoint(1000000);
    BuyRunEnds(0.001, 10.0, Market, 0.0, 1.0, 10.0);
  }

  /** The bound on the overdraft is attained: the cash check and the limit check each give away half
      the tolerance, which for one share is 0.000001 together. */
  lemma OverdraftIsSharp()
    ensures var run := BuyRun(9.9999995, Buying(Limit, 10.0, 1.0), Quote(10.0000005, 1.0));
            var t := Run(Initial(0, 0.001), run);
            && ValidEvents(run) && Reachable(t)
            && t.account.cash + t.account.transactionCost == -0.000001
            && t.history.largest == 1.0 && Slack(t.history) == 0.000001
  {
    hide Run, ValidEvents;
    assert 1.0 == GridPoint(1000000);
    BuyRunEnds(0.001, 9.9999995, Limit, 10.0, 1.0, 10.0000005);
  }

  /** Ten shares are held and pay five in cash per ten shares, and none of it is credited. */
  lemma CashDividendLost()
    ensures var run := BuyRun(1000.0, Buying(Market, 0.0, 10.0), Quote(10.0, 10.0));
            var s := Run(Initial(0, 0.001), run);
            var dividends := map[STOCK := DividendRecord(10, 5.0, 0.0)];
            && ValidEvents(run) && Reachable(s) && ValidDividend(dividends[STOCK])
            && STOCK in s.positions && s.positions[STOCK].quantity == 10.0
            && Lots(s.positions[STOCK].quantity, 10) == 1
            && AfterDividend(s, dividends, STOCK).account.cash == s.account.cash
  {
    hide Run, ValidEvents, AfterDividend, Reachable;
    assert 10.0 == GridPoint(10000000);
    BuyRunEnds(0.001, 1000.0, Market, 0.0, 10.0, 10.0);
    var s := Run(Initial(0, 0.001), BuyRun(1000.0, Buying(Market, 0.0, 10.0), Quote(10.0, 10.0)));
    NothingForCash(s, DividendRecord(10, 5.0, 0.0));
  }

  lemma NothingForCash(s: State, d: DividendRecord)
    requires Reachable(s) && STOCK in s.positions && d == DividendRecord(10, 5.0, 0.0)
    ensures ValidDividend(d)
    ensures AfterDividend(s, map[STOCK := d], STOCK).account.cash == s.account.cash
  {
    hide Reachable, Core, CommitStep, Lots, ValidRequest;
    ReachableCore(s);
    NotHalted(s);
    SoundAt(s, STOCK);
    assert ValidDividend(d) by { ZeroOnGrid(); }
    var lots := Lots(s.positions[STOCK].quantity, 10);
    LotsHeld(s.positions[STOCK].quantity, 10);
    DividendIsValid(STOCK, d, lots);
    DividendCash(s, DividendRequest(STOCK, d, lots));
  }

  // ---- A fee that changes along its chain --------------------------------------------------

  /** Two shares are bought on two ticks.  The first fill costs so little that the child order's
      share of the commission is below the tolerance. */
  function TwoTicks(): (events: seq<Event>)
  {
    BuyRun(1000.0, Buying(Market, 0.0, 2.0), Quote(0.001, 1.0)) + [OnTick(Quote(10.0, 1.0))]
  }

  lemma FirstHalf(o: Order, id: int, avg: Double)
    requires o.quantity == 2.0 && o.transactionCost == 0.0 && o.unfilledQuantity == 0.0 && o.parent.None?
    ensures var f := FilledOrder(o, 0.0001, 0.001, 1.0, avg);
            var c := ChildOf(f, id);
            && f.filledPrice * f.filledQuantity == 0.001 && f.transactionCost == 0.00000005
            && !AlmostEq(f.unfilledQuantity, 0.0) && f.status.Filled? && f.parent.None?
            && Commission(f, 0.0001) == 0.0000001
            && c.quantity == 1.0 && c.transactionCost == 0.00000005 && c.unfilledQuantity == 0.0
            && SameIdentity(o, f)
            && c.symbol == o.symbol && c.action == o.action && c.kind == o.kind && c.price == o.price && c.root == o.root
  {
  }

  lemma SecondHalf(c: Order, avg: Double)
    requires c.quantity == 1.0 && c.transactionCost == 0.00000005
    ensures var f := FilledOrder(c, 0.0001, 10.0, 1.0, avg);
            f.transactionCost == 0.001 && f.root == c.root && f.unfilledQuantity == c.unfilledQuantity
  {
  }

  lemma Halves(s: State, last: real, o: Order)
    requires Waiting(s, o) && s.slippage == 0 && s.account.cash >= 100.0
    requires o.kind.Market? && last >= 0.0 && last * o.quantity <= 100.0
    ensures Judge(s, o, Quote(last, 1.0)).Execute?
  {
    hide Judge;
    WaitingPending(s, o);
    WillExecute(s, o, s.account.cash, last, 1.0);
  }

  lemma QuoteValid(last: real)
    requires last >= 0.0
    ensures ValidTick(Quote(last, 1.0))
  {
    assert 1.0 == GridPoint(1000000);
  }

  lemma FirstTick(s: State, o: Order)
    requires Waiting(s, o) && s.slippage == 0 && s.rate == 0.0001 && s.account.cash == 1000.0
    requires o.kind.Market? && o.quantity == 2.0 && o.parent.None?
    ensures var t := Step(s, OnTick(Quote(0.001, 1.0)));
            var f := FilledOrder(o, 0.0001, 0.001, 1.0, Finite(0.0));
            var c := ChildOf(f, s.nextId);
            && Waiting(t, c) && t.log == s.log + [f] && t.slippage == 0 && t.rate == 0.0001
            && t.account.cash >= 100.0 && t.history.roots == s.history.roots
            && c.kind.Market? && c.quantity == 1.0 && c.transactionCost == 0.00000005 && c.root == o.root
            && f.transactionCost == 0.00000005 && SameIdentity(o, f) && f.status.Filled?
            && Commission(f, 0.0001) == 0.0000001
  {
    hide Step, Reachable, Core, Judge, FilledOrder, ChildOf, Commission, ValidTick;
    var tick := Quote(0.001, 1.0);
    QuoteValid(0.001);
    WaitingPending(s, o);
    Halves(s, 0.001, o);
    TickFills(s, o, tick);
    ReachableStep(s, OnTick(tick));
    ReachableCore(Step(s, OnTick(tick)));
    assert o.transactionCost == 0.0 && o.unfilledQuantity == 0.0;
    FirstHalf(o, s.nextId, Finite(0.0));
  }

  lemma SecondTick(s: State, c: Order)
    requires Waiting(s, c) && s.slippage == 0 && s.rate == 0.0001 && s.account.cash >= 100.0
    requires c.kind.Market? && c.quantity == 1.0 && c.transactionCost == 0.00000005
    ensures var t := Step(s, OnTick(Quote(10.0, 1.0)));
            && |t.log| == |s.log| + 1 && t.log[..|s.log|] == s.log
            && t.log[|s.log|].transactionCost == 0.001 && t.log[|s.log|].root == c.root
            && QueueOf(t, STOCK) == [] && Reachable(t) && t.rate == 0.0001 && t.history.roots == s.history.roots
  {
    hide Step, Reachable, Core, Judge, FilledOrder, ChildOf, ValidTick;
    var tick := Quote(10.0, 1.0);
    QuoteValid(10.0);
    WaitingPending(s, c);
    Halves(s, 10.0, c);
    TickFills(s, c, tick);
    ReachableStep(s, OnTick(tick));
    SecondHalf(c, Finite(0.0));
  }

  lemma ThreeFees(m: Measure, a: Order, b: Order, c: Order)
    ensures Sum(m, [a, b, c]) == Weight(m, a) + Weight(m, b) + Weight(m, c)
  {
    hide Weight;
    SumOne(m, a);
    SumSnoc(m, [a], b);
    SumSnoc(m, [a, b], c);
    assert [a] + [b] == [a, b] && [a, b] + [c] == [a, b, c];
  }

  /** The fees of the chain end up ten thousand times as high as the commission of the first fill. */
  lemma ChainFeeChanges()
    ensures var t := Run(Initial(0, 0.0001), TwoTicks());
            && ValidEvents(TwoTicks()) && Reachable(t) && |t.log| == 3
            && var f := t.log[1];
               && f.status.Filled? && f.parent.None? && !f.Special() && f.id in t.history.roots
               && Commission(f, t.rate) == 0.0000001
               && Sum(ChainFee(f.id), t.log) + Sum(ChainFee(f.id), QueueOf(t, STOCK)) == 0.00100005
  {
    hide Step, Run, Reachable, FilledOrder, ChildOf, Commission, ValidTick, Sum;
    assert 2.0 == GridPoint(2000000);
    var q := Buying(Market, 0.0, 2.0);
    var s1 := Step(Initial(0, 0.0001), Commit(DepositRequest(1000.0)));
    var s2, o := Step(s1, Commit(q)), NewOrder(s1, q);
    var s3 := Step(s2, OnTick(Quote(0.001, 1.0)));
    StartingCash(1000.0);
    Deposited(0.0001, 1000.0);
    Ordered(s1, 0.0001, 1000.0, q);
    FirstTick(s2, o);
    var f := FilledOrder(o, 0.0001, 0.001, 1.0, Finite(0.0));
    var c := ChildOf(f, s2.nextId);
    SecondTick(s3, c);
    var t := Step(s3, OnTick(Quote(10.0, 1.0)));
    ThreeSteps(Initial(0, 0.0001), Commit(DepositRequest(1000.0)), Commit(q), OnTick(Quote(0.001, 1.0)));
    RunSnoc(Initial(0, 0.0001), BuyRun(1000.0, q, Quote(0.001, 1.0)), OnTick(Quote(10.0, 1.0)));
    assert t == Run(Initial(0, 0.0001), TwoTicks());
    QuoteValid(0.001);
    QuoteValid(10.0);
    assert t.log[1] == f && t.log == [t.log[0], f, t.log[2]];
    ThreeFees(ChainFee(f.id), t.log[0], f, t.log[2]);
    SumNone(ChainFee(f.id));
  }

  // ---- A sale below its limit --------------------------------------------------------------

  function Selling(price: real, quantity: real): (q: Request)
  {
    Request(STOCK, Sell, Limit, price, quantity, false)
  }

  /** Ten shares can be sold, and nothing waits. */
  ghost predicate Holding(s: State)
  {
    && Reachable(s) && s.slippage == 0 && QueueOf(s, STOCK) == []
    && PositionOf(s, STOCK).closable == 10.0
  }

  lemma Settling(s: State)
    requires Reachable(s) && s.slippage == 0 && QueueOf(s, STOCK) == [] && PositionOf(s, STOCK).quantity == 10.0
    ensures Holding(Step(s, Settle([Kline(STOCK, 10.0)])))
  {
    hide Reachable, Core, Total, Settled;
    var klines := [Kline(STOCK, 10.0)];
    ReachableCore(s);
    NotHalted(s);
    SettleCore(s, klines);
    assert klines[0] in klines;
    SettleFrees(s, klines, STOCK);
    ReachableStep(s, Settle(klines));
  }

  lemma Offering(s: State)
    requires Holding(s)
    ensures var t, o := Step(s, Commit(Selling(10.0, 10.0))), NewOrder(s, Selling(10.0, 10.0));
            && Reachable(t) && t.slippage == 0 && QueueOf(t, STOCK) == [o] && PositionOf(t, STOCK).closable == 10.0
  {
    hide Reachable, Core;
    SaleValid();
    ReachableCore(s);
    NotHalted(s);
    ReachableStep(s, Commit(Selling(10.0, 10.0)));
  }

  lemma SaleValid()
    ensures ValidRequest(Selling(10.0, 10.0)) && ValidTick(LowBid())
  {
    assert 10.0 == GridPoint(10000000);
  }

  /** The last price is ten, the bid is five. */
  function LowBid(): (t: Tick)
  {
    Tick(STOCK, 10.0, 0.0, 0.0, 5.0, 10.0, 10.0)
  }

  lemma SaleVerdict(s: State, o: Order)
    requires s.slippage == 0 && PositionOf(s, STOCK).closable == 10.0
    requires o.symbol == STOCK && o.action.Sell? && o.kind.Limit? && o.price == 10.0 && o.quantity == 10.0
    ensures Judge(s, o, LowBid()) == Execute(5.0, 10.0) && !Honoured(s, o, LowBid(), o.price)
  {
    StockHasMatcher();
    hide HasMatcher;
    assert o.(price := o.price) == o;
  }

  lemma SaleExecuted(s: State, o: Order)
    requires Reachable(s) && s.slippage == 0 && QueueOf(s, STOCK) == [o] && PositionOf(s, STOCK).closable == 10.0
    requires o.symbol == STOCK && o.action.Sell? && o.kind.Limit? && o.price == 10.0 && o.quantity == 10.0
    ensures var t := Step(s, OnTick(LowBid()));
            && Reachable(t) && |t.log| == |s.log| + 1
            && var f := t.log[|s.log|];
               && f.id == o.id && f.status.Filled? && f.action.Sell? && f.kind.Limit?
               && f.price == 10.0 && f.filledPrice == 5.0 && f.filledQuantity == 10.0
  {
    hide Reachable, Core, Judge, ProcessOrder, FillOf, Marking, ValidTick, TickStep, FeeAdded, Running, Pending;
    SaleValid();
    ReachableCore(s);
    CoreRuns(s);
    NotHalted(s);
    var a := Marking(s, LowBid());
    MarkingFacts(s, LowBid());
    CoreRuns(a);
    MarkingSlippage(s, LowBid());
    SaleVerdict(a, o);
    NormalOne(a, o, LowBid());
    TickQueue(s, LowBid(), o);
    ExecutedLists(a, o, LowBid());
    ReachableStep(s, OnTick(LowBid()));
  }

  lemma MarkingSlippage(s: State, tick: Tick)
    ensures Marking(s, tick).slippage == s.slippage
  {
    hide Marked, Empty;
  }

  /** Ten shares are bought and settled, and offered at ten.  The last price reaches the limit, and
      they are sold at the bid of five. */
  lemma SaleBelowLimit()
    ensures var run := BuyRun(1000.0, Buying(Market, 0.0, 10.0), Quote(10.0, 10.0))
                       + [Settle([Kline(STOCK, 10.0)])] + [Commit(Selling(10.0, 10.0))] + [OnTick(LowBid())];
            var t := Run(Initial(0, 0.001), run);
            && ValidEvents(run) && Reachable(t) && t.log != []
            && var f := t.log[|t.log| - 1];
               && f.status.Filled? && f.action.Sell? && f.kind.Limit?
               && f.price == 10.0 && f.filledPrice == 5.0 && f.filledQuantity == 10.0
  {
    hide Run, Step, Reachable, ValidRequest, ValidTick;
    assert 10.0 == GridPoint(10000000);
    BuyRunEnds(0.001, 1000.0, Market, 0.0, 10.0, 10.0);
    var bought := BuyRun(1000.0, Buying(Market, 0.0, 10.0), Quote(10.0, 10.0));
    var s := Run(Initial(0, 0.001), bought);
    var offer := Selling(10.0, 10.0);
    SaleValid();
    Settling(s);
    var held := Step(s, Settle([Kline(STOCK, 10.0)]));
    Offering(held);
    SaleExecuted(Step(held, Commit(offer)), NewOrder(held, offer));
    RunSnoc(Initial(0, 0.001), bought, Settle([Kline(STOCK, 10.0)]));
    RunSnoc(Initial(0, 0.001), bought + [Settle([Kline(STOCK, 10.0)])], Commit(offer));
    RunSnoc(Initial(0, 0.001), bought + [Settle([Kline(STOCK, 10.0)])] + [Commit(offer)], OnTick(LowBid()));
  }
}
