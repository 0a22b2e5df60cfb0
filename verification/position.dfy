/** The position of one symbol and its tracker: cost basis, commissions and the quantity that
    may be sold today. */
module PositionTracker {
  import opened Arithmetic
  import opened Approx
  import opened CerebroStruct

  datatype Position = Position(
    quantity: real,
    avgPrice: Double,
    closable: real,
    commissions: real,
    positionPnl: real)

  datatype Outcome<+T> = Ok(value: T) | LogicError

  const FRESH := Position(0.0, Finite(0.0), 0.0, 0.0, 0.0)

  /** Division of doubles. */
  function Quotient(x: real, y: real): (r: Double)
  {
    if y == 0.0 then NonFinite else Finite(x / y)
  }

  predicate Empty(p: Position)
  {
    AlmostZero(p.quantity)
  }

  /** What an open position cost; an empty one is left out of every sum. */
  function Basis(p: Position): (b: real)
  {
    if Empty(p) then 0.0
    else match p.avgPrice
         case Finite(a) => a * p.quantity
         case NonFinite => 0.0
  }

  function AverageAfterBuy(p: Position, q: real, price: real): (r: Double)
  {
    match p.avgPrice
    case Finite(a) => Quotient(a * p.quantity + q * price, p.quantity + q)
    case NonFinite => NonFinite
  }

  function AverageAfterSell(p: Position, q: real, price: real): (r: Double)
  {
    match p.avgPrice
    case Finite(a) => Quotient(a * p.quantity - q * price, p.quantity - q)
    case NonFinite => NonFinite
  }

  function Bought(p: Position, tplus: nat, q: real, price: real, fee: real): (r: Position)
  {
    if AlmostZero(q) then p
    else
      var closable := if tplus == 0 then p.closable + q else p.closable;
      if AlmostEq(p.quantity, 0.0) then
        p.(avgPrice := Finite(price), quantity := q, commissions := fee, closable := closable)
      else
        p.(avgPrice := AverageAfterBuy(p, q, price), quantity := p.quantity + q, commissions := p.commissions + fee,
           closable := closable)
  }

  function Sold(p: Position, q: real, price: real, fee: real): (r: Outcome<Position>)
  {
    if AlmostZero(q) then Ok(p)
    else if AlmostEq(p.quantity, 0.0) then LogicError
    else
      var left := p.quantity - q;
      Ok(p.(avgPrice := AverageAfterSell(p, q, price), quantity := left, commissions := p.commissions + fee,
            closable := p.closable - q,
            positionPnl := if AlmostZero(left) then 0.0 else p.positionPnl))
  }

  function Marked(p: Position, last: real): (r: Position)
  {
    if AlmostZero(p.quantity) then p
    else match p.avgPrice
         case Finite(a) => p.(positionPnl := (last - a - p.commissions / p.quantity) * p.quantity)
         case NonFinite => p
  }

  function Settled(p: Position, close: real): (r: Position)
  {
    var m := Marked(p, close);
    m.(closable := m.quantity)
  }

  /** What every reachable position satisfies: no more can be sold than is held, and a held
      position has a usable average price. */
  ghost predicate Sound(p: Position)
  {
    && OnGrid(p.quantity) && OnGrid(p.closable)
    && 0.0 <= p.closable <= p.quantity
    && (p.quantity != 0.0 ==> p.avgPrice.Finite?)
    && (p.quantity == 0.0 ==> p.positionPnl == 0.0)
  }

  lemma BuyAverage(p: Position, q: real, price: real)
    requires p.avgPrice.Finite? && p.quantity + q != 0.0
    ensures AverageAfterBuy(p, q, price).Finite?
    ensures AverageAfterBuy(p, q, price).value * (p.quantity + q) == p.avgPrice.value * p.quantity + q * price
  {
    QuotientTimes(p.avgPrice.value * p.quantity + q * price, p.quantity + q);
  }

  lemma SellAverage(p: Position, q: real, price: real)
    requires p.avgPrice.Finite? && p.quantity != q
    ensures AverageAfterSell(p, q, price).Finite?
    ensures AverageAfterSell(p, q, price).value * (p.quantity - q) == p.avgPrice.value * p.quantity - q * price
  {
    QuotientTimes(p.avgPrice.value * p.quantity - q * price, p.quantity - q);
  }

  lemma BoughtQuantities(p: Position, q: real, price: real, fee: real)
    requires Sound(p) && OnGrid(q) && q > 0.0
    ensures var r := Bought(p, 1, q, price, fee);
            && OnGrid(r.quantity) && r.quantity == p.quantity + q
            && r.closable == p.closable && r.positionPnl == p.positionPnl
            && r.avgPrice == (if p.quantity == 0.0 then Finite(price) else AverageAfterBuy(p, q, price))
            && r.commissions == (if Empty(p) then fee else p.commissions + fee)
  {
    hide AverageAfterBuy;
    GridIsExact(p.quantity, q);
  }

  /** A purchase raises the cost basis by exactly what was paid. */
  lemma BoughtBasis(p: Position, q: real, price: real, fee: real)
    requires Sound(p) && OnGrid(q) && q >= 0.0
    ensures Sound(Bought(p, 1, q, price, fee))
    ensures Basis(Bought(p, 1, q, price, fee)) == Basis(p) + q * price
    ensures Bought(p, 1, q, price, fee).quantity == p.quantity + q
    ensures Bought(p, 1, q, price, fee).closable == p.closable
    ensures q > 0.0 ==> Bought(p, 1, q, price, fee).commissions == (if Empty(p) then fee else p.commissions + fee)
  {
    hide AverageAfterBuy;
    if q == 0.0 {
      GridIsExact(p.quantity, q);
    } else {
      BoughtQuantities(p, q, price, fee);
      BoughtMore(p, Bought(p, 1, q, price, fee), q, price);
    }
  }

  lemma BoughtMore(p: Position, r: Position, q: real, price: real)
    requires Sound(p) && OnGrid(q) && q > 0.0
    requires OnGrid(r.quantity) && r.quantity == p.quantity + q
    requires r.avgPrice == (if p.quantity == 0.0 then Finite(price) else AverageAfterBuy(p, q, price))
    ensures r.avgPrice.Finite? && Basis(r) == Basis(p) + q * price
  {
    hide AverageAfterBuy;
    GridIsExact(p.quantity, r.quantity);
    if p.quantity != 0.0 {
      BuyAverage(p, q, price);
    }
  }

  lemma SoldQuantities(p: Position, q: real, price: real, fee: real)
    requires Sound(p) && OnGrid(q) && 0.0 < q <= p.closable
    ensures Sold(p, q, price, fee).Ok?
    ensures var r := Sold(p, q, price, fee).value;
            && OnGrid(r.quantity) && OnGrid(r.closable)
            && r.quantity == p.quantity - q && r.closable == p.closable - q
            && r.commissions == p.commissions + fee
            && r.avgPrice == AverageAfterSell(p, q, price)
            && (r.quantity == 0.0 ==> r.positionPnl == 0.0)
  {
    hide AverageAfterSell;
    GridIsExact(p.quantity, q);
    GridIsExact(p.closable, q);
    GridIsExact(p.quantity - q, q);
  }

  /** A sale within the closable quantity never throws, and lowers the cost basis by exactly
      the proceeds, unless it empties the position: then the whole basis goes. */
  lemma SoldBasis(p: Position, q: real, price: real, fee: real)
    requires Sound(p) && OnGrid(q) && 0.0 < q <= p.closable
    ensures Sold(p, q, price, fee).Ok?
    ensures var r := Sold(p, q, price, fee).value;
            && Sound(r)
            && r.quantity == p.quantity - q
            && r.closable == p.closable - q && r.commissions == p.commissions + fee
            && Basis(r) == if q == p.quantity then 0.0 else Basis(p) - q * price
  {
    hide AverageAfterSell, Sold;
    SoldQuantities(p, q, price, fee);
    GridIsExact(p.quantity, p.quantity - q);
    if q != p.quantity {
      SellAverage(p, q, price);
    }
  }

  /** A tracker without a waiting day may sell what it buys at once; in all else it buys alike. */
  lemma BoughtToday(p: Position, tplus: nat, q: real, price: real, fee: real)
    requires Sound(p) && OnGrid(q) && q > 0.0
    ensures var r := Bought(p, tplus, q, price, fee);
            && r.closable == p.closable + (if tplus == 0 then q else 0.0)
            && r == Bought(p, 1, q, price, fee).(closable := r.closable)
            && r.positionPnl == p.positionPnl
  {
    hide AverageAfterBuy;
    GridIsExact(p.quantity, q);
  }

  /** Exactly when a sale throws, and what it does to the shown profit. */
  lemma SaleThrows(p: Position, q: real, price: real, fee: real)
    requires Sound(p) && OnGrid(q)
    ensures Sold(p, q, price, fee).LogicError? <==> p.quantity == 0.0 && q != 0.0
    ensures Sold(p, q, price, fee).Ok? ==>
              Sold(p, q, price, fee).value.positionPnl == if q == p.quantity then 0.0 else p.positionPnl
  {
    hide AverageAfterSell;
    GridIsExact(p.quantity, q);
    GridIsExact(p.quantity - q, q);
  }

  lemma MarkedKeeps(p: Position, last: real)
    requires Sound(p)
    ensures Sound(Marked(p, last))
    ensures Basis(Marked(p, last)) == Basis(p)
    ensures Marked(p, last) == p.(positionPnl := Marked(p, last).positionPnl)
  {
    GridIsExact(p.quantity, p.quantity);
  }
}
