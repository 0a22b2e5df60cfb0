/** Products and quotients of reals. */
module Arithmetic {

  lemma Scaling(x: real, y: real)
    requires x >= 0.0 && y >= 0.0
    ensures x * y >= 0.0
  {
  }

  lemma TimesOver(x: real, y: real)
    requires y != 0.0
    ensures (x * y) / y == x
  {
  }

  lemma QuotientIs(part: real, y: real, x: real)
    requires y != 0.0 && part * y == x
    ensures x / y == part
  {
    TimesOver(part, y);
  }

  lemma Distribute(x: real, y: real)
    ensures x * (1.0 - y) == x - x * y
    ensures (1.0 - y) * x == x - y * x
  {
  }

  lemma QuotientTimes(x: real, y: real)
    requires y != 0.0
    ensures (x / y) * y == x
  {
  }
}
