/** The cash account behind a broker. */
module Account {
  import opened Approx

  /** `marketValue` is the cost basis of the open positions as the account sees it;
      `transactionCost` is the sum of all fees charged. */
  datatype Account = Account(
    cash: real,
    frozenCash: real,
    marketValue: real,
    transactionCost: real,
    dailyPnl: real)

  const EMPTY := Account(0.0, 0.0, 0.0, 0.0, 0.0)

  function AddCash(a: Account, cash: real, fee: real): (r: Account)
  {
    a.(cash := a.cash + cash - fee, transactionCost := a.transactionCost + fee)
  }

  /** A withdrawal; None when the cash does not cover it. */
  predicate CanWithdraw(a: Account, cash: real)
  {
    !AlmostLt(a.cash, cash)
  }

  function CashToMarketValue(a: Account, value: real, fee: real): (r: Account)
  {
    a.(cash := a.cash - value - fee, transactionCost := a.transactionCost + fee,
       marketValue := a.marketValue + value)
  }

  function MarketValueToCash(a: Account, value: real, fee: real): (r: Account)
  {
    a.(cash := a.cash + value - fee, transactionCost := a.transactionCost + fee,
       marketValue := a.marketValue - value)
  }

  function Revalued(a: Account, pnl: real, value: real): (r: Account)
  {
    a.(dailyPnl := pnl, marketValue := value)
  }

  /** Every transfer charges its fee once, on top of what it moves, and touches nothing else. */
  lemma TransfersChargeFees(a: Account, value: real, fee: real)
    ensures AddCash(a, value, fee)
         == a.(cash := AddCash(a, value, fee).cash, transactionCost := a.transactionCost + fee)
    ensures AddCash(a, value, fee).cash + fee == a.cash + value
    ensures forall r :: r == CashToMarketValue(a, value, fee) || r == MarketValueToCash(a, value, fee) ==>
              && r == a.(cash := r.cash, marketValue := r.marketValue, transactionCost := a.transactionCost + fee)
              && r.cash + r.marketValue + fee == a.cash + a.marketValue
    ensures CashToMarketValue(a, value, fee).marketValue - a.marketValue == value
         == a.marketValue - MarketValueToCash(a, value, fee).marketValue
  {
  }
}
