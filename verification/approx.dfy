/** Comparison of doubles up to a tolerance, as util/common.h defines it.  Doubles are modelled
    as exact reals; the tolerances are the program's own. */
module Approx {

  /** The tolerance used when a call names none. */
  const EPSILON: real := 0.000001

  /** The price step of both exchanges, used as the tolerance of the price-limit checks. */
  const PRICE_UNIT: real := 0.01

  function Abs(x: real): (r: real)
  {
    if x < 0.0 then -x else x
  }

  function Min(x: real, y: real): (r: real)
  {
    if y < x then y else x
  }

  predicate AlmostEq(x: real, y: real, epsilon: real := EPSILON)
  {
    Abs(x - y) <= epsilon * 0.5
  }

  predicate AlmostZero(x: real, epsilon: real := EPSILON)
  {
    AlmostEq(x, 0.0, epsilon)
  }

  predicate AlmostLt(x: real, y: real, epsilon: real := EPSILON)
  {
    x < y && !AlmostEq(x, y, epsilon)
  }

  predicate AlmostLe(x: real, y: real, epsilon: real := EPSILON)
  {
    x <= y || AlmostEq(x, y, epsilon)
  }

  predicate AlmostGt(x: real, y: real, epsilon: real := EPSILON)
  {
    x > y && !AlmostEq(x, y, epsilon)
  }

  predicate AlmostGe(x: real, y: real, epsilon: real := EPSILON)
  {
    x >= y || AlmostEq(x, y, epsilon)
  }

  /** The n-th multiple of EPSILON. */
  function GridPoint(n: int): (x: real)
  {
    n as real * EPSILON
  }

  /** Multiples of EPSILON: the share quantities that the tolerance can tell apart. */
  ghost predicate OnGrid(x: real)
  {
    exists n: int :: x == GridPoint(n)
  }

  /** On grid points the tolerant comparisons are the exact ones, and the grid is closed under
      the arithmetic that the broker does on quantities. */
  lemma GridIsExact(x: real, y: real)
    requires OnGrid(x) && OnGrid(y)
    ensures OnGrid(x + y) && OnGrid(x - y) && OnGrid(Min(x, y))
    ensures AlmostEq(x, y) <==> x == y
    ensures AlmostGt(x, y) <==> x > y
    ensures AlmostZero(x) <==> x == 0.0
    ensures AlmostZero(y) <==> y == 0.0
  {
    var a: int :| x == GridPoint(a);
    var b: int :| y == GridPoint(b);
    assert x + y == GridPoint(a + b);
    assert x - y == GridPoint(a - b);
    PointsApart(a, b);
    PointsApart(a, 0);
    PointsApart(b, 0);
  }

  /** Different grid points are further apart than the tolerance. */
  lemma PointsApart(a: int, b: int)
    ensures AlmostEq(GridPoint(a), GridPoint(b)) <==> a == b
    ensures GridPoint(a) == GridPoint(b) <==> a == b
    ensures GridPoint(0) == 0.0
  {
    if a > b {
      assert (a - b) as real >= 1.0;
    } else if a < b {
      assert (b - a) as real >= 1.0;
    }
  }

  lemma ZeroOnGrid()
    ensures OnGrid(0.0)
  {
    assert 0.0 == GridPoint(0);
  }
}
