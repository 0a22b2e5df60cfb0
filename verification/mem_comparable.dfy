/** The mem-comparable encodings of KeyEncoder: unsigned words whose order is the order of the
    integers and floating-point numbers they stand for. */
module MemComparable {
  import opened Bits
  import opened KeyEncoder

  // ---- Signed integers ---------------------------------------------------------------------

  predicate InRange(x: int, n: nat)
    requires n > 0
  {
    0 - Pow2(n - 1) <= x < Pow2(n - 1)
  }

  /** The two's complement word of a signed integer, and back. */
  function ToUnsigned(x: int, n: nat): (u: nat)
    requires n > 0 && InRange(x, n)
  {
    if x < 0 then x + Pow2(n) else x
  }

  function ToSigned(u: nat, n: nat): (x: int)
    requires n > 0
  {
    if u < Pow2(n - 1) then u else u - Pow2(n)
  }

  /** encode_i8, _i16, _i32 and _i64 for n = 8, 16, 32 and 64: the sign bit is flipped. */
  function EncodeInt(x: int, n: nat): (u: nat)
    requires n > 0 && InRange(x, n)
  {
    Xor(ToUnsigned(x, n), Pow2(n - 1))
  }

  function DecodeInt(u: nat, n: nat): (x: int)
    requires n > 0
  {
    ToSigned(Xor(u, Pow2(n - 1)), n)
  }

  /** Flipping the sign bit moves the integers up to the unsigned words, in order; flipping it
      again moves them back. */
  lemma EncodeIntIs(x: int, n: nat)
    requires n > 0 && InRange(x, n)
    ensures EncodeInt(x, n) == x + Pow2(n - 1) < Pow2(n)
    ensures DecodeInt(EncodeInt(x, n), n) == x
  {
    hide Xor;
    XorTop(ToUnsigned(x, n), n - 1);
    XorTop(x + Pow2(n - 1), n - 1);
  }

  lemma IntOrder(x: int, y: int, n: nat)
    requires n > 0 && InRange(x, n) && InRange(y, n)
    ensures EncodeInt(x, n) < EncodeInt(y, n) <==> x < y
    ensures EncodeInt(x, n) == EncodeInt(y, n) <==> x == y
  {
    EncodeIntIs(x, n);
    EncodeIntIs(y, n);
  }

  // ---- Floating-point numbers --------------------------------------------------------------

  /** A binary interchange format of section 3.4 of IEEE 754-2008: word size and the number of
      fraction bits; the bits between fraction and sign are the exponent. */
  datatype Format = Format(bits: nat, fraction: nat)
  {
    predicate Valid()
    {
      bits == fraction + ExponentBits() + 1 && ExponentBits() > 0
    }

    function ExponentBits(): (n: int)
    {
      bits - 1 - fraction
    }

    /** The bit pattern of positive infinity. */
    function Infinity(): (m: nat)
      requires Valid()
    {
      (Pow2(ExponentBits()) - 1) * Pow2(fraction)
    }

    function Sign(): (s: nat)
      requires Valid()
    {
      Pow2(bits - 1)
    }
  }

  const FLOAT32 := Format(32, 23)
  const FLOAT64 := Format(64, 52)

  function SizeOf(w: nat, t: Format): (m: nat)
    requires t.Valid()
  {
    w % t.Sign()
  }

  predicate IsNaN(w: nat, t: Format)
    requires t.Valid()
  {
    SizeOf(w, t) > t.Infinity()
  }

  /** Exponent and fraction field of a size. */
  function Fields(m: nat, fraction: nat): (r: (nat, nat))
    ensures m == Pow2(fraction) * r.0 + r.1 && r.1 < Pow2(fraction)
  {
    QuotientIsNat(m, Pow2(fraction));
    (m / Pow2(fraction), m % Pow2(fraction))
  }

  lemma QuotientIsNat(m: nat, p: nat)
    requires p > 0
    ensures m / p >= 0 && m == p * (m / p) + m % p && 0 <= m % p < p
  {
    var q := m / p;
    if q < 0 {
      AtLeast(p, -q);
      assert false;
    }
  }

  /** The size of a number, in units of the smallest positive one; infinity is beyond all. */
  function Magnitude(m: nat, fraction: nat): (v: nat)
  {
    var (e, f) := Fields(m, fraction);
    if e == 0 then f else (Pow2(fraction) + f) * Pow2(e - 1)
  }

  /** The number that a pattern stands for, in the same units. */
  function Number(w: nat, t: Format): (v: int)
    requires t.Valid()
  {
    if w < t.Sign() then Magnitude(SizeOf(w, t), t.fraction) else 0 - Magnitude(SizeOf(w, t), t.fraction)
  }

  /** The comparison "in > 0" of section 5.11 of IEEE 754-2008: false for NaN. */
  predicate IsPositive(w: nat, t: Format)
    requires t.Valid()
  {
    !IsNaN(w, t) && Number(w, t) > 0
  }

  /** encode_f32 and encode_f64. */
  function EncodeFloat(w: nat, t: Format): (u: nat)
    requires t.Valid()
  {
    if IsPositive(w, t) then Or(w, t.Sign()) else Not(w, t.bits)
  }

  /** decode_f32 and decode_f64. */
  function DecodeFloat(u: nat, t: Format): (w: nat)
    requires t.Valid()
  {
    if Shr(And(u, t.Sign()), t.bits - 1) > 0 then And(u, Not(t.Sign(), t.bits)) else Not(u, t.bits)
  }

  lemma {:induction false} Pow2Grows(m: nat, n: nat)
    requires m <= n
    ensures Pow2(m) <= Pow2(n)
    decreases n
  {
    if m < n {
      Pow2Grows(m, n - 1);
    }
  }

  lemma Times(x: nat, y: nat, p: nat)
    requires x <= y
    ensures x * p <= y * p
    ensures x < y && p > 0 ==> x * p < y * p
  {
    assert y * p - x * p == (y - x) * p;
    if x < y && p > 0 {
      AtLeast(p, y - x);
    }
  }

  lemma FieldsGrow(p: nat, e: nat, f: nat, g: nat, h: nat)
    requires f < p && h < p && p * e + f < p * g + h
    ensures e < g || (e == g && f < h)
  {
    if e > g {
      assert p * e - p * g == p * (e - g);
      AtLeast(p, e - g);
      assert false;
    }
  }

  /** The sizes of numbers grow with their patterns. */
  lemma MagnitudeGrows(m: nat, k: nat, fraction: nat)
    requires m < k
    ensures Magnitude(m, fraction) < Magnitude(k, fraction)
  {
    hide Pow2, Fields;
    var p := Pow2(fraction);
    var (e, f) := Fields(m, fraction);
    var (g, h) := Fields(k, fraction);
    FieldsGrow(p, e, f, g, h);
    if e == g {
      if e > 0 {
        Times(p + f, p + h, Pow2(e - 1));
      }
    } else {
      MagnitudeBelow(m, fraction);
      Pow2Grows(e, g - 1);
      Times(Pow2(e), Pow2(g - 1), p);
      Times(p, p + h, Pow2(g - 1));
      Turn(p, Pow2(g - 1));
    }
  }

  lemma Turn(x: nat, y: nat)
    ensures x * y == y * x
  {
  }

  lemma MagnitudeBelow(m: nat, fraction: nat)
    ensures Magnitude(m, fraction) < Pow2(Fields(m, fraction).0) * Pow2(fraction)
  {
    hide Fields;
    var p := Pow2(fraction);
    var (e, f) := Fields(m, fraction);
    if e > 0 {
      var q := Pow2(e - 1);
      hide Pow2;
      Doubled(p, f, q);
    }
  }

  lemma Doubled(p: nat, f: nat, q: nat)
    requires f < p && q > 0
    ensures (p + f) * q < (2 * q) * p
  {
    Times(p + f, 2 * p, q);
    assert (2 * p) * q == (2 * q) * p;
  }

  lemma MagnitudeOfZero(fraction: nat)
    ensures Magnitude(0, fraction) == 0
  {
    hide Pow2;
    Remainder(0, Pow2(fraction), 0, 0);
  }

  lemma MagnitudeSign(m: nat, fraction: nat)
    ensures Magnitude(m, fraction) == 0 <==> m == 0
  {
    MagnitudeOfZero(fraction);
    if m > 0 {
      MagnitudeGrows(0, m, fraction);
    }
  }

  /** The pattern is its sign bit and its size. */
  lemma SplitSign(w: nat, t: Format)
    requires t.Valid() && w < Pow2(t.bits)
    ensures SizeOf(w, t) == if w < t.Sign() then w else w - t.Sign()
    ensures Pow2(t.bits) == 2 * t.Sign()
  {
    var s := t.Sign();
    if w < s {
      Remainder(w, s, 0, w);
    } else {
      Remainder(w, s, 1, w - s);
    }
  }

  /** In arithmetic terms: positive numbers go to the upper half of the words, everything else is
      turned around. */
  lemma EncodeFloatIs(w: nat, t: Format)
    requires t.Valid() && w < Pow2(t.bits)
    ensures EncodeFloat(w, t) == if IsPositive(w, t) then w + t.Sign() else Pow2(t.bits) - 1 - w
    ensures IsPositive(w, t) <==> !IsNaN(w, t) && 0 < w < t.Sign()
  {
    hide Or, Not, Magnitude;
    SplitSign(w, t);
    MagnitudeSign(SizeOf(w, t), t.fraction);
    NotIs(w, t.bits);
    ShlIs(1, t.bits - 1);
    if w < t.Sign() {
      OrDisjoint(1, t.bits - 1, w);
    }
  }

  lemma DecodeFloatIs(u: nat, t: Format)
    requires t.Valid() && u < Pow2(t.bits)
    ensures DecodeFloat(u, t) == if u >= t.Sign() then u - t.Sign() else Pow2(t.bits) - 1 - u
  {
    hide And, Not, Shr, Shl;
    SplitSign(u, t);
    var k := t.bits - 1;
    NotIs(u, t.bits);
    NotIs(t.Sign(), t.bits);
    AndLow(u, k);
    ShlIs(1, k);
    assert Pow2(1) == 2;
    AndField(u, 1, k);
    ShrIs(u, k);
    var top := Shr(u, k) % 2;
    ShrShl(top, k, k);
    assert Shl(top, 0) == top by { ShlIs(top, 0); }
    TopBit(u, t.Sign());
  }

  lemma TopBit(u: nat, s: nat)
    requires s > 0 && u < 2 * s
    ensures (u / s) % 2 == if u >= s then 1 else 0
  {
    if u < s {
      Remainder(u, s, 0, u);
    } else {
      Remainder(u, s, 1, u - s);
    }
  }

  /** A comparable pattern: not NaN, and not positive zero, which the encoder misplaces. */
  predicate Ordered(w: nat, t: Format)
    requires t.Valid()
  {
    w < Pow2(t.bits) && !IsNaN(w, t) && w != 0
  }

  /** Unsigned order of the encodings is numeric order, for all numbers but positive zero; equal
      encodings are equal patterns.  Negative zero lies between the negative and the positive
      numbers. */
  lemma FloatOrder(w: nat, v: nat, t: Format)
    requires t.Valid() && Ordered(w, t) && Ordered(v, t)
    ensures EncodeFloat(w, t) < EncodeFloat(v, t) <==> Number(w, t) < Number(v, t)
    ensures EncodeFloat(w, t) == EncodeFloat(v, t) <==> w == v
    ensures Number(w, t) == Number(v, t) <==> w == v
  {
    hide EncodeFloat, Magnitude, Pow2;
    EncodeFloatIs(w, t);
    EncodeFloatIs(v, t);
    SplitSign(w, t);
    SplitSign(v, t);
    NumberOrder(w, v, t);
    NumberOrder(v, w, t);
  }

  lemma NumberOrder(w: nat, v: nat, t: Format)
    requires t.Valid() && w < Pow2(t.bits) && v < Pow2(t.bits)
    ensures w < v < t.Sign() ==> Number(w, t) < Number(v, t)
    ensures t.Sign() <= w < v ==> Number(v, t) < Number(w, t)
    ensures 0 < w < t.Sign() ==> Number(w, t) > 0
    ensures w >= t.Sign() ==> Number(w, t) <= 0
  {
    hide Magnitude, Pow2;
    SplitSign(w, t);
    SplitSign(v, t);
    MagnitudeSign(SizeOf(w, t), t.fraction);
    if SizeOf(w, t) < SizeOf(v, t) {
      MagnitudeGrows(SizeOf(w, t), SizeOf(v, t), t.fraction);
    }
  }

  /** Exactly when the encoding puts a smaller number before a larger one: unless the smaller one
      is positive zero. */
  lemma FloatOrderFailsAtZero(w: nat, v: nat, t: Format)
    requires t.Valid() && w < Pow2(t.bits) && v < Pow2(t.bits) && !IsNaN(w, t) && !IsNaN(v, t)
    ensures Number(w, t) < Number(v, t) ==> (EncodeFloat(w, t) < EncodeFloat(v, t) <==> w != 0)
  {
    hide EncodeFloat, Magnitude, Pow2;
    EncodeFloatIs(w, t);
    EncodeFloatIs(v, t);
    SplitSign(w, t);
    SplitSign(v, t);
    NumberOrder(w, v, t);
    NumberOrder(v, w, t);
    MagnitudeOfZero(t.fraction);
  }

  /** Exactly when decoding gives the number back: for every negative pattern, and for every
      positive one that is neither zero nor NaN. */
  lemma FloatRoundTrip(w: nat, t: Format)
    requires t.Valid() && w < Pow2(t.bits)
    ensures EncodeFloat(w, t) < Pow2(t.bits)
    ensures DecodeFloat(EncodeFloat(w, t), t) == w <==> w >= t.Sign() || (w != 0 && !IsNaN(w, t))
  {
    assert t.Sign() == 2 * Pow2(t.bits - 2);
    hide EncodeFloat, DecodeFloat, Magnitude, Pow2;
    EncodeFloatIs(w, t);
    SplitSign(w, t);
    DecodeFloatIs(EncodeFloat(w, t), t);
  }

  /** Positive zero gets the largest key of all, and decodes to NaN. */
  lemma PositiveZero(t: Format)
    requires t.Valid()
    ensures EncodeFloat(0, t) == Pow2(t.bits) - 1
    ensures t.fraction > 0 ==> IsNaN(DecodeFloat(EncodeFloat(0, t), t), t)
  {
    hide EncodeFloat, DecodeFloat, Magnitude;
    EncodeFloatIs(0, t);
    SplitSign(0, t);
    var u := Pow2(t.bits) - 1;
    DecodeFloatIs(u, t);
    SplitSign(t.Sign() - 1, t);
    Pow2Add(t.ExponentBits(), t.fraction);
    assert (Pow2(t.ExponentBits()) - 1) * Pow2(t.fraction)
        == Pow2(t.ExponentBits()) * Pow2(t.fraction) - Pow2(t.fraction);
  }

  /** Where the encoder puts a number: positive zero goes behind infinity. */
  function Place(w: nat, t: Format): (p: int)
    requires t.Valid()
  {
    if w == 0 then Number(t.Infinity(), t) + 1 else Number(w, t)
  }

  lemma InfinityBelowSign(t: Format)
    requires t.Valid() && t.fraction > 0
    ensures 0 < t.Infinity() < t.Sign() - 1
  {
    var e, f := t.ExponentBits(), t.fraction;
    Pow2Add(e, f);
    assert Pow2(e) == 2 * Pow2(e - 1) && Pow2(f) == 2 * Pow2(f - 1);
    hide Pow2;
    LessOne(Pow2(e), Pow2(f));
  }

  lemma LessOne(x: nat, p: nat)
    requires x >= 2 && p >= 2
    ensures 0 < (x - 1) * p == x * p - p
  {
    AtLeast(p, x - 1);
  }

  /** Unsigned order of the encodings of all numbers. */
  lemma FloatPlace(w: nat, v: nat, t: Format)
    requires t.Valid() && t.fraction > 0
    requires w < Pow2(t.bits) && v < Pow2(t.bits) && !IsNaN(w, t) && !IsNaN(v, t)
    ensures EncodeFloat(w, t) < EncodeFloat(v, t) <==> Place(w, t) < Place(v, t)
    ensures EncodeFloat(w, t) == EncodeFloat(v, t) <==> w == v
  {
    hide EncodeFloat, Number, Pow2, SizeOf;
    InfinityBelowSign(t);
    if w != 0 && v != 0 {
      FloatOrder(w, v, t);
    } else {
      BehindInfinity(w, t);
      BehindInfinity(v, t);
    }
  }

  lemma BehindInfinity(w: nat, t: Format)
    requires t.Valid() && t.fraction > 0 && w < Pow2(t.bits) && !IsNaN(w, t)
    ensures EncodeFloat(0, t) == Pow2(t.bits) - 1
    ensures w != 0 ==> EncodeFloat(w, t) < EncodeFloat(0, t) && Number(w, t) <= Number(t.Infinity(), t)
  {
    hide EncodeFloat, Magnitude, Pow2;
    InfinityBelowSign(t);
    SplitSign(w, t);
    SplitSign(t.Infinity(), t);
    PositiveZero(t);
    EncodeFloatIs(w, t);
    NumberOrder(w, t.Infinity(), t);
    NumberOrder(t.Infinity(), w, t);
  }

  /** A positive NaN and the tiny number whose key it gets. */
  predicate Collide(w: nat, v: nat, t: Format)
    requires t.Valid()
  {
    IsNaN(w, t) && !IsNaN(v, t) && w < t.Sign() && 0 < v < t.Sign() && w + v == t.Sign() - 1
  }

  /** Exactly which patterns, NaN included, have the same key. */
  lemma FloatKeysEqual(w: nat, v: nat, t: Format)
    requires t.Valid() && t.fraction > 0 && w < Pow2(t.bits) && v < Pow2(t.bits)
    ensures EncodeFloat(w, t) == EncodeFloat(v, t) <==> w == v || Collide(w, v, t) || Collide(v, w, t)
  {
    hide EncodeFloat, Magnitude, Pow2;
    InfinityBelowSign(t);
    SplitSign(w, t);
    SplitSign(v, t);
    EncodeFloatIs(w, t);
    EncodeFloatIs(v, t);
  }

  /** The last but one of the positive NaNs has the key of the smallest positive number. */
  lemma NaNSharesKey(t: Format)
    requires t.Valid() && t.fraction > 1
    ensures IsNaN(t.Sign() - 2, t) && !IsNaN(1, t)
    ensures EncodeFloat(t.Sign() - 2, t) == EncodeFloat(1, t)
  {
    assert Pow2(t.fraction) == 4 * Pow2(t.fraction - 2);
    assert t.Infinity() == t.Sign() - Pow2(t.fraction) by {
      Pow2Add(t.ExponentBits(), t.fraction);
      hide Pow2;
      assert Pow2(t.ExponentBits()) > 0;
    }
    hide EncodeFloat, Magnitude, Pow2;
    InfinityBelowSign(t);
    SplitSign(t.Sign() - 2, t);
    SplitSign(1, t);
    FloatKeysEqual(t.Sign() - 2, 1, t);
  }

  // ---- The numbers of the two formats ------------------------------------------------------

  /** Infinity of single and of double precision. */
  lemma Infinities()
    ensures FLOAT32.Infinity() == 0x7F80_0000 && FLOAT32.Sign() == 0x8000_0000
    ensures FLOAT64.Infinity() == 0x7FF0_0000_0000_0000 && FLOAT64.Sign() == 0x8000_0000_0000_0000
  {
    SmallPowers();
    hide Pow2;
    Pow2Add(11, 12);
    Pow2Add(8, 23);
    Pow2Add(10, 11);
    Pow2Add(21, 31);
    Pow2Add(11, 52);
  }

  lemma SmallPowers()
    ensures Pow2(8) == 256 && Pow2(10) == 1024 && Pow2(11) == 2048 && Pow2(12) == 4096
  {
    assert Pow2(4) == 16;
    assert Pow2(7) == 128;
    assert Pow2(8) == 256;
    assert Pow2(10) == 1024;
  }

  /** Numbers without an exponent are their fraction, and so are those with the first one. */
  lemma SmallMagnitude(m: nat, fraction: nat)
    requires m < 2 * Pow2(fraction)
    ensures Magnitude(m, fraction) == m
  {
    var p := Pow2(fraction);
    Remainder(m, p, if m < p then 0 else 1, if m < p then m else m - p);
    hide Pow2;
    FieldsAre(m, fraction, if m < p then 0 else 1, if m < p then m else m - p);
    assert Pow2(0) == 1 by { PowZero(); }
  }

  lemma PowZero()
    ensures Pow2(0) == 1
  {
  }

  lemma FieldsAre(m: nat, fraction: nat, e: nat, f: nat)
    requires m == Pow2(fraction) * e + f && f < Pow2(fraction)
    ensures Fields(m, fraction) == (e, f)
  {
    hide Pow2;
    Remainder(m, Pow2(fraction), e, f);
  }

  /** One more in the exponent doubles a number. */
  lemma MagnitudeDoubles(m: nat, fraction: nat)
    requires m >= Pow2(fraction)
    ensures Magnitude(m + Pow2(fraction), fraction) == 2 * Magnitude(m, fraction)
  {
    hide Fields, Pow2;
    var p := Pow2(fraction);
    var (e, f) := Fields(m, fraction);
    SomeExponent(p, e, f, m);
    NextExponent(p, e, f, m);
    FieldsAre(m + p, fraction, e + 1, f);
    PowNext(e - 1);
    Double(p + f, Pow2(e - 1));
  }

  lemma PowNext(n: nat)
    ensures Pow2(n + 1) == 2 * Pow2(n)
  {
  }

  lemma SomeExponent(p: nat, e: nat, f: nat, m: nat)
    requires m == p * e + f && f < p <= m
    ensures e >= 1
  {
  }

  lemma NextExponent(p: nat, e: nat, f: nat, m: nat)
    requires m == p * e + f && f < p
    ensures m + p == p * (e + 1) + f
  {
  }

  lemma Double(x: nat, q: nat)
    ensures x * (2 * q) == 2 * (x * q)
  {
  }
}
