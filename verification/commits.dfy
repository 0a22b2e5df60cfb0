/** What becomes of a request when it is committed, in plain terms: queued, recorded, or carried out at
    once. */
module Commits {
  import opened Approx
  import opened CerebroStruct
  import opened PositionTracker
  import opened Account
  import opened BrokerSpec
  import opened BrokerCore
  import opened Matching
  import opened Broker

  /** The order of a request, with a status. */
  function OrderOf(q: Request, id: int, status: Status): (o: Order)
  {
    Order(id, q.symbol, q.action, q.kind, status, q.price, q.quantity, 0.0, 0.0, 0.0, 0.0, Finite(0.0), NoReason, None,
          id)
  }

  predicate IsSpecial(q: Request)
  {
    q.action.Cancel? || q.action.Amend? || q.action.Dividend? || q.action.Deposit? || q.action.Withdraw?
  }

  /** Besides history, nothing has changed but the log, which has one more order, and the ids. */
  predicate OnlyLogged(s: State, t: State, o: Order)
  {
    && t.log == s.log + [o] && t.nextId == s.nextId + 1
    && t.account == s.account && t.positions == s.positions && t.queues == s.queues
    && t.slippage == s.slippage && t.rate == s.rate && t.halted == s.halted
  }

  /** The same, but the account may have changed. */
  predicate OnlyPaid(s: State, t: State, a: Account, o: Order)
  {
    t.account == a && OnlyLogged(s, t.(account := s.account), o)
  }

  /** An order goes to the end of the queue of its symbol, and nothing else happens. */
  lemma OrderIsQueued(s: State, q: Request)
    requires !IsSpecial(q) && !q.done
    ensures var t := CommitStep(s, q);
            && t.queues == s.queues[q.symbol := QueueOf(s, q.symbol) + [OrderOf(q, s.nextId, PendingNew)]]
            && t.log == s.log && t.account == s.account && t.positions == s.positions && t.nextId == s.nextId + 1
            && t.slippage == s.slippage && t.rate == s.rate && t.halted == s.halted
  {
  }

  /** A deposit that is done already is only recorded. */
  lemma DoneIsRecorded(s: State, q: Request)
    requires q.done
    ensures OnlyLogged(s, CommitStep(s, q), OrderOf(q, s.nextId, Filled))
  {
  }

  /** A deposit adds price times quantity to the cash, without a fee. */
  lemma DepositIsPaid(s: State, q: Request)
    requires q.action.Deposit? && !q.done
    ensures OnlyPaid(s, CommitStep(s, q), s.account.(cash := s.account.cash + q.price * q.quantity),
                     OrderOf(q, s.nextId, Filled))
  {
  }

  /** A withdrawal takes price times quantity if the cash covers that, and is refused otherwise. */
  lemma WithdrawalIsPaid(s: State, q: Request)
    requires q.action.Withdraw? && !q.done
    ensures if q.price * q.quantity <= s.account.cash + 0.0000005 then
              OnlyPaid(s, CommitStep(s, q), s.account.(cash := s.account.cash - q.price * q.quantity),
                       OrderOf(q, s.nextId, Filled))
            else OnlyLogged(s, CommitStep(s, q), OrderOf(q, s.nextId, Rejected))
  {
  }

  /** Cancelling and amending do nothing, and count as done. */
  lemma CancelDoesNothing(s: State, q: Request)
    requires (q.action.Cancel? || q.action.Amend?) && !q.done
    ensures OnlyLogged(s, CommitStep(s, q), OrderOf(q, s.nextId, Filled))
  {
  }

  /** What a dividend does to the position of its symbol: more shares for the same money, none of
      them closable. */
  ghost predicate Diluted(p: Position, r: Position, quantity: real)
  {
    && r.quantity == p.quantity + quantity && r.closable == p.closable && Basis(r) == Basis(p)
    && r.positionPnl == p.positionPnl
    && r.commissions == (if p.quantity == 0.0 && quantity != 0.0 then 0.0 else p.commissions)
  }

  /** A dividend, of shares and cash, or of nothing when it is without shares. */
  lemma DividendIsPaid(s: State, q: Request)
    requires Running(s) && ValidRequest(q) && q.action.Dividend?
    ensures var t := CommitStep(s, q);
            && OnlyLogged(s, t.(account := s.account, positions := s.positions), OrderOf(q, s.nextId, Filled))
            && t.account == s.account.(cash := s.account.cash + if q.quantity == 0.0 then 0.0 else q.price)
            && t.positions.Keys == s.positions.Keys + {q.symbol}
            && Diluted(PositionOf(s, q.symbol), PositionOf(t, q.symbol), q.quantity)
            && (forall y <- s.positions :: y != q.symbol ==> t.positions[y] == s.positions[y])
  {
    hide Bought, Diluted;
    var p := PositionOf(s, q.symbol);
    PositionSound(s, q.symbol);
    GridIsExact(q.quantity, p.quantity);
    DilutedBy(p, q.quantity);
  }

  lemma DilutedBy(p: Position, quantity: real)
    requires Sound(p) && OnGrid(quantity) && quantity >= 0.0
    ensures Diluted(p, if AlmostZero(quantity) then p else Bought(p, 1, quantity, 0.0, 0.0), quantity)
  {
    GridIsExact(quantity, p.quantity);
    if quantity != 0.0 {
      BoughtBasis(p, quantity, 0.0, 0.0);
      BoughtQuantities(p, quantity, 0.0, 0.0);
    }
  }

  // ---- buy and sell ------------------------------------------------------------------------

  /** An order of buy or sell without a price trades at once when nothing speaks against it; one
      with a price waits for that price. */
  lemma TradeMeets(s: State, y: Symbol, action: Action, quantity: real, price: real, tick: Tick)
    requires Core(s) && (action.Buy? || action.Sell?) && OnGrid(quantity) && quantity > 0.0 && price >= 0.0
    requires HasMatcher(y) && ValidTick(tick)
    ensures var t := CommitStep(s, TradeRequest(y, action, quantity, price));
            var o := OrderOf(Request(y, action, if price == 0.0 then Market else Limit, price, quantity, false), s.nextId,
                             PendingNew);
            && Core(t) && Pending(o, y, t.nextId) && QueueOf(t, y) == QueueOf(s, y) + [o]
            && (ProcessOrder(t, o, tick).order.status.Filled? <==>
                  && Acceptable(t, o, tick)
                  && (price == 0.0
                      || if action.Buy? then tick.last <= price + 0.0000005 else price <= tick.last + 0.0000005))
  {
    hide HasMatcher, Acceptable, ProcessOrder, CommitStep, Pending, ValidTick, Core;
    var q := TradeRequest(y, action, quantity, price);
    assert ValidRequest(q);
    CommitCore(s, q);
    OrderIsQueued(s, q);
    var t, o := CommitStep(s, q), OrderOf(q, s.nextId, PendingNew);
    LastIsPending(t, y, o);
    OrderIsMatched(t, o, tick);
  }

  lemma LastIsPending(s: State, y: Symbol, o: Order)
    requires Core(s) && y in s.queues && s.queues[y] != [] && s.queues[y][|s.queues[y]| - 1] == o
    ensures Pending(o, y, s.nextId) && Running(s) && o.symbol == y
  {
    assert o in s.queues[y];
  }
}
