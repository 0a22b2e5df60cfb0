/** Losses in per cent, and how they compare. */
module PercentLoss {
  import opened Arithmetic

  /** The loss from one value to another, in per cent of the first. */
  function Loss(a: real, b: real): (d: real)
    requires a > 0.0
  {
    100.0 * (a - b) / a
  }

  lemma LossIs(a: real, b: real)
    requires a > 0.0
    ensures Loss(a, b) == 100.0 - 100.0 * (b / a)
    ensures Loss(a, a) == 0.0
  {
    var q := b / a;
    assert q * a == b;
    assert (100.0 - 100.0 * q) * a == 100.0 * (a - b);
    QuotientIs(100.0 - 100.0 * q, a, 100.0 * (a - b));
  }

  /** Falling from higher to lower loses at least as much. */
  lemma DeeperLoss(a: real, b: real, high: real, low: real)
    requires 0.0 < a <= high && 0.0 < low <= b
    ensures Loss(a, b) <= Loss(high, low)
  {
    hide Loss;
    LossIs(a, b);
    LossIs(high, low);
    SmallerPart(a, b, high, low);
  }

  lemma SmallerPart(a: real, b: real, high: real, low: real)
    requires 0.0 < a <= high && 0.0 < low <= b
    ensures low / high <= b / a
  {
    var q := b / a;
    assert q * a == b;
    if q < 0.0 {
      Scaling(-q, a);
      assert false;
    }
    Scaling(q, high - a);
    assert q * (high - a) == q * high - q * a;
    Below(low, high, q);
  }

  lemma Grows(x: real, y: real)
    requires x > 0.0 && y > 0.0
    ensures x * y > 0.0
  {
  }

  lemma Below(x: real, y: real, q: real)
    requires y > 0.0 && x <= q * y
    ensures x / y <= q
  {
    var r := x / y;
    assert r * y == x;
    assert (r - q) * y == r * y - q * y;
    if r > q {
      Grows(r - q, y);
      assert false;
    }
  }
}
