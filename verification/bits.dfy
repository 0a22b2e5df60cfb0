/** Bitwise operations on unsigned words, as functions on natural numbers, and the arithmetic that
    shifts, masks and unions of disjoint fields amount to. */
module Bits {

  function Pow2(n: nat): (p: nat)
    ensures p > 0
  {
    if n == 0 then 1 else 2 * Pow2(n - 1)
  }

  function And(a: nat, b: nat): (r: nat)
    decreases a
  {
    if a == 0 then 0 else 2 * And(a / 2, b / 2) + (if a % 2 == 1 && b % 2 == 1 then 1 else 0)
  }

  function Or(a: nat, b: nat): (r: nat)
    decreases a + b
  {
    if a == 0 && b == 0 then 0
    else 2 * Or(a / 2, b / 2) + (if a % 2 == 1 || b % 2 == 1 then 1 else 0)
  }

  function Xor(a: nat, b: nat): (r: nat)
    decreases a + b
  {
    if a == 0 && b == 0 then 0
    else 2 * Xor(a / 2, b / 2) + (if a % 2 != b % 2 then 1 else 0)
  }

  /** Complement in a word of `n` bits. */
  function Not(a: nat, n: nat): (r: nat)
  {
    Xor(a, Pow2(n) - 1)
  }

  function Shl(a: nat, n: nat): (r: nat)
  {
    if n == 0 then a else 2 * Shl(a, n - 1)
  }

  function Shr(a: nat, n: nat): (r: nat)
    decreases n
  {
    if n == 0 then a else Shr(a / 2, n - 1)
  }

  lemma {:induction false} ShlIs(a: nat, n: nat)
    ensures Shl(a, n) == a * Pow2(n)
  {
    if n > 0 {
      ShlIs(a, n - 1);
      assert a * (2 * Pow2(n - 1)) == 2 * (a * Pow2(n - 1));
    }
  }

  lemma {:induction false} ShrIs(a: nat, n: nat)
    ensures Shr(a, n) == a / Pow2(n)
    decreases n
  {
    if n > 0 {
      ShrIs(a / 2, n - 1);
      HalfQuotient(a, Pow2(n - 1));
    }
  }

  lemma {:induction false} Pow2Add(m: nat, n: nat)
    ensures Pow2(m + n) == Pow2(m) * Pow2(n)
    decreases m
  {
    if m > 0 {
      Pow2Add(m - 1, n);
      assert Pow2(m + n) == 2 * Pow2(m - 1 + n);
      assert 2 * (Pow2(m - 1) * Pow2(n)) == (2 * Pow2(m - 1)) * Pow2(n);
    }
  }

  lemma {:induction false} OrZero(a: nat)
    ensures Or(a, 0) == a && Or(0, a) == a
    decreases a
  {
    if a > 0 {
      OrZero(a / 2);
    }
  }

  /** A union of a field at bit `n` and a value below it is their sum. */
  lemma {:induction false} OrDisjoint(a: nat, n: nat, b: nat)
    requires b < Pow2(n)
    ensures Or(Shl(a, n), b) == Shl(a, n) + b == Or(b, Shl(a, n))
    decreases n
  {
    if n == 0 {
      OrZero(a);
    } else {
      assert Shl(a, n) / 2 == Shl(a, n - 1);
      OrDisjoint(a, n - 1, b / 2);
    }
  }

  /** Flipping the top bit of an n+1 bit word. */
  lemma {:induction false} XorTop(a: nat, n: nat)
    requires a < Pow2(n + 1)
    ensures Xor(a, Pow2(n)) == if a < Pow2(n) then a + Pow2(n) else a - Pow2(n)
    decreases n
  {
    if n == 0 {
      assert Xor(0, 0) == 0;
    } else {
      XorTop(a / 2, n - 1);
      assert Pow2(n) / 2 == Pow2(n - 1) && Pow2(n) % 2 == 0;
      assert a < Pow2(n) <==> a / 2 < Pow2(n - 1);
      assert Xor(a, Pow2(n)) == 2 * Xor(a / 2, Pow2(n - 1)) + a % 2;
    }
  }

  /** The complement of an n bit word is what is missing from all ones. */
  lemma {:induction false} NotIs(a: nat, n: nat)
    requires a < Pow2(n)
    ensures Not(a, n) == Pow2(n) - 1 - a
    decreases n
  {
    if n == 0 {
    } else {
      NotIs(a / 2, n - 1);
      var ones := Pow2(n) - 1;
      assert ones / 2 == Pow2(n - 1) - 1 && ones % 2 == 1;
      assert Xor(a, ones) == 2 * Xor(a / 2, ones / 2) + (1 - a % 2);
    }
  }

  /** Masking with the low n bits is the remainder. */
  lemma {:induction false} AndLow(a: nat, n: nat)
    ensures And(a, Pow2(n) - 1) == a % Pow2(n)
    decreases n
  {
    if n == 0 {
      AndZero(a);
    } else {
      var ones := Pow2(n) - 1;
      assert ones / 2 == Pow2(n - 1) - 1 && ones % 2 == 1;
      AndLow(a / 2, n - 1);
      HalfRemainder(a, Pow2(n - 1));
      if a > 0 {
        assert And(a, ones) == 2 * And(a / 2, ones / 2) + a % 2;
      }
    }
  }

  lemma HalfRemainder(a: nat, p: nat)
    requires p > 0
    ensures a % (2 * p) == 2 * ((a / 2) % p) + a % 2
  {
    var q, r := (a / 2) / p, (a / 2) % p;
    assert a / 2 == p * q + r;
    assert a == (2 * p) * q + (2 * r + a % 2);
    Remainder(a, 2 * p, q, 2 * r + a % 2);
  }

  lemma Remainder(a: nat, m: nat, q: nat, r: nat)
    requires a == m * q + r && r < m
    ensures a % m == r && a / m == q
  {
    var d := a / m - q;
    assert a == m * (a / m) + a % m;
    assert m * (a / m) - m * q == m * d;
    if d > 0 {
      AtLeast(m, d);
      assert false;
    }
    if d < 0 {
      AtLeast(m, -d);
      assert false;
    }
  }

  lemma AtLeast(m: int, d: int)
    requires m > 0 && d > 0
    ensures m * d >= m
  {
    assert m * d == m + m * (d - 1);
  }

  lemma {:induction false} AndZero(a: nat)
    ensures And(a, 0) == 0
    decreases a
  {
    if a > 0 {
      AndZero(a / 2);
    }
  }

  /** Masking with n bits at bit k. */
  lemma {:induction false} AndField(a: nat, n: nat, k: nat)
    ensures And(a, Shl(Pow2(n) - 1, k)) == Shl(Shr(a, k) % Pow2(n), k)
    decreases k
  {
    if k == 0 {
      AndLow(a, n);
    } else {
      var m := Pow2(n) - 1;
      assert Shl(m, k) / 2 == Shl(m, k - 1) && Shl(m, k) % 2 == 0;
      AndField(a / 2, n, k - 1);
      if a == 0 {
        assert And(0, Shl(m, k - 1)) == 0;
      }
    }
  }

  lemma HalfQuotient(a: nat, p: nat)
    requires p > 0
    ensures (a / 2) / p == a / (2 * p)
  {
    var q, r := (a / 2) / p, (a / 2) % p;
    assert a / 2 == p * q + r;
    assert a == (2 * p) * q + (2 * r + a % 2);
    Remainder(a, 2 * p, q, 2 * r + a % 2);
  }
}
