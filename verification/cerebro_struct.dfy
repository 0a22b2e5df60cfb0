/** The records of cerebro/cerebro_struct.h that the simulated brokerage works on. */
module CerebroStruct {

  type Symbol = string

  datatype Option<+T> = None | Some(value: T)

  /** A C++ double that may be the result of a division by zero (infinite or not a number). */
  datatype Double = Finite(value: real) | NonFinite

  datatype Action =
    | NoAction
    | Buy
    | Sell
    | BuyToCover
    | SellShort
    | Cancel
    | Amend
    | Dividend
    | Deposit
    | Withdraw

  datatype OrderType = NoType | Market | Limit

  datatype Status = PendingNew | Filled | Cancelled | Rejected

  datatype Reason =
    | NoReason
    | OverLimitUp
    | OverLimitDown
    | InsufficientFunds
    | InsufficientClosable
    | UnknownAction

  /** An order.  `parent` is the id kept under "primary_order_id" by a child order.  `root` is a
      history variable: the id of the order that the chain of partial fills started from. */
  datatype Order = Order(
    id: int,
    symbol: Symbol,
    action: Action,
    kind: OrderType,
    status: Status,
    price: real,
    quantity: real,
    filledPrice: real,
    filledQuantity: real,
    unfilledQuantity: real,
    transactionCost: real,
    lastPositionPrice: Double,
    reason: Reason,
    parent: Option<int>,
    root: int)
  {
    predicate Finished()
    {
      status.Rejected? || status.Cancelled? || status.Filled?
    }

    predicate Special()
    {
      action.Cancel? || action.Amend? || action.Dividend? || action.Deposit? || action.Withdraw?
    }
  }

  /** The part of a market snapshot that matching reads: last price, price limits (zero when
      there is none) and the top of the book. */
  datatype Tick = Tick(
    symbol: Symbol,
    last: real,
    limitUp: real,
    limitDown: real,
    bid: real,
    bidVolume: real,
    askVolume: real)

  datatype Kline = Kline(symbol: Symbol, close: real)
}
