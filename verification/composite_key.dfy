/** Composite keys: the columns of an index appended one after the other.  Their byte-wise order is
    the lexicographic order of the column tuples. */
module CompositeKey {
  import opened Bits
  import opened KeyEncoder
  import opened MemComparable
  import opened ByteOrder
  import opened PaddedString

  /** Big-endian bytes compare like the words. */
  lemma {:induction false} BigEndianOrder(w: nat, v: nat, k: nat)
    requires w < Pow2(8 * k) && v < Pow2(8 * k)
    ensures BytesLess(BigEndian(w, k), BigEndian(v, k)) <==> w < v
    ensures BigEndian(w, k) == BigEndian(v, k) <==> w == v
    decreases k
  {
    if k > 0 {
      assert Pow2(8) == 256 by { assert Pow2(4) == 16; }
      Pow2Add(8, 8 * (k - 1));
      BigEndianOrder(w / 256, v / 256, k - 1);
      var a, b := BigEndian(w / 256, k - 1), BigEndian(v / 256, k - 1);
      BytesLessConcat(a, b, [w % 256], [v % 256]);
      assert BytesLess([w % 256], [v % 256]) <==> w % 256 < v % 256;
      assert BigEndian(w, k)[..k - 1] == a && BigEndian(v, k)[..k - 1] == b;
      assert BigEndian(w, k)[k - 1] == w % 256 && BigEndian(v, k)[k - 1] == v % 256;
    }
  }

  // ---- Columns -----------------------------------------------------------------------------

  /** The column types.  Unsized stands for those that field_fixed_size does not know. */
  datatype FieldType =
    | Int8 | Int16 | Int32 | Int64 | UInt64 | Float32 | Float64
    | FixedString(len: nat)
    | String
    | UInt8 | UInt16 | UInt32
    | Unsized

  /** The types whose values a key holds in as many bytes as the index counts for them. */
  predicate Fits(t: FieldType)
  {
    !t.String? && !t.UInt8? && !t.UInt16? && !t.UInt32? && !t.Unsized?
  }

  /** A column value; a floating-point number is given by its bit pattern. */
  datatype Value = IntValue(i: int) | FloatValue(bits: nat) | StringValue(s: seq<Byte>)

  /** The values of a column.  Nothing is read of a value of the last four types. */
  predicate HasType(t: FieldType, v: Value)
  {
    match t
    case Int8 => v.IntValue? && InRange(v.i, 8)
    case Int16 => v.IntValue? && InRange(v.i, 16)
    case Int32 => v.IntValue? && InRange(v.i, 32)
    case Int64 => v.IntValue? && InRange(v.i, 64)
    case UInt64 => v.IntValue? && 0 <= v.i < Pow2(64)
    case Float32 => v.FloatValue? && v.bits < Pow2(32)
    case Float64 => v.FloatValue? && v.bits < Pow2(64)
    case FixedString(_) => v.StringValue?
    case String => v.StringValue?
    case _ => true
  }

  /** Values that an index can sort: of a type that fits, and not NaN. */
  predicate Comparable(t: FieldType, v: Value)
  {
    match t
    case Float32 => v.FloatValue? && v.bits < Pow2(32) && !IsNaN(v.bits, FLOAT32)
    case Float64 => v.FloatValue? && v.bits < Pow2(64) && !IsNaN(v.bits, FLOAT64)
    case _ => Fits(t) && HasType(t, v)
  }

  /** What a key keeps of a value: all of it, but for what a column's size cuts off a string and for
      NULs at its end. */
  function NormalValue(t: FieldType, v: Value): (r: Value)
    requires Comparable(t, v)
  {
    if t.FixedString? then StringValue(Normal(v.s, t.len)) else v
  }

  /** The order of a column's values in the key. */
  predicate ValueLess(t: FieldType, v: Value, w: Value)
    requires Comparable(t, v) && Comparable(t, w)
  {
    if t.Float32? then Place(v.bits, FLOAT32) < Place(w.bits, FLOAT32)
    else if t.Float64? then Place(v.bits, FLOAT64) < Place(w.bits, FLOAT64)
    else if t.FixedString? then BytesLess(Normal(v.s, t.len), Normal(w.s, t.len))
    else v.i < w.i
  }

  /** Values whose order in the key is their own: numbers other than positive zero, and strings that
      fit and do not end in NUL. */
  predicate Plain(t: FieldType, v: Value)
    requires Comparable(t, v)
  {
    && (t.Float32? || t.Float64? ==> v.bits != 0)
    && (t.FixedString? ==> |v.s| <= t.len && !EndsInNul(v.s))
  }

  /** The values' own order. */
  predicate NaturallyLess(t: FieldType, v: Value, w: Value)
    requires Comparable(t, v) && Comparable(t, w)
  {
    if t.Float32? then Number(v.bits, FLOAT32) < Number(w.bits, FLOAT32)
    else if t.Float64? then Number(v.bits, FLOAT64) < Number(w.bits, FLOAT64)
    else if t.FixedString? then BytesLess(v.s, w.s)
    else v.i < w.i
  }

  lemma PlainOrder(t: FieldType, v: Value, w: Value)
    requires Comparable(t, v) && Comparable(t, w) && Plain(t, v) && Plain(t, w)
    ensures ValueLess(t, v, w) <==> NaturallyLess(t, v, w)
  {
    hide Number, Pow2, BytesLess, IsNaN;
    PlainKept(t, v);
    PlainKept(t, w);
  }

  lemma PlainKept(t: FieldType, v: Value)
    requires Comparable(t, v) && Plain(t, v)
    ensures NormalValue(t, v) == v
  {
    hide Pow2, IsNaN;
  }

  /** field_fixed_size. */
  function FieldSize(t: FieldType): (n: int)
  {
    match t
    case Int8 => 1
    case UInt8 => 1
    case Int16 => 2
    case UInt16 => 2
    case Int32 => 4
    case UInt32 => 4
    case Int64 => 8
    case UInt64 => 8
    case Float32 => 4
    case Float64 => 8
    case FixedString(len) => len
    case String => 0
    case Unsized => -1
  }

  /** The bytes that field_append_value appends for a column. */
  function ColumnBytes(t: FieldType, v: Value): (r: seq<Byte>)
    requires HasType(t, v)
    ensures Fits(t) ==> |r| == FieldSize(t)
  {
    match t
    case Int8 => BigEndian(EncodeInt(v.i, 8), 1)
    case Int16 => BigEndian(EncodeInt(v.i, 16), 2)
    case Int32 => BigEndian(EncodeInt(v.i, 32), 4)
    case Int64 => BigEndian(EncodeInt(v.i, 64), 8)
    case UInt64 => BigEndian(v.i, 8)
    case Float32 => BigEndian(EncodeFloat(v.bits, FLOAT32), 4)
    case Float64 => BigEndian(EncodeFloat(v.bits, FLOAT64), 8)
    case FixedString(len) => Padded(v.s, len)
    case String => v.s + [0]
    case _ => []
  }

  /** Unsigned columns count like signed ones, a string counts nothing, and what is not known counts
      minus one; a string column is ended by a NUL. */
  lemma SizesOfOthers(v: Value)
    ensures FieldSize(UInt8) == FieldSize(Int8) && FieldSize(UInt16) == FieldSize(Int16)
    ensures FieldSize(UInt32) == FieldSize(Int32) && FieldSize(UInt64) == FieldSize(Int64)
    ensures FieldSize(String) == 0 && FieldSize(Unsized) == -1
    ensures v.StringValue? ==> ColumnBytes(String, v)[..|v.s|] == v.s && ColumnBytes(String, v)[|v.s|..] == [0]
    ensures ColumnBytes(UInt8, v) == ColumnBytes(UInt16, v) == ColumnBytes(UInt32, v) == ColumnBytes(Unsized, v) == []
  {
  }

  /** Exactly the columns that an index counts rightly. */
  lemma CountedRightly(t: FieldType, v: Value)
    requires HasType(t, v)
    ensures |ColumnBytes(t, v)| == FieldSize(t) <==> Fits(t)
  {
    hide BigEndian, EncodeInt, EncodeFloat, Padded, Pow2;
  }

  lemma IntColumn(x: int, y: int, k: nat)
    requires k > 0 && InRange(x, 8 * k) && InRange(y, 8 * k)
    ensures var a, b := BigEndian(EncodeInt(x, 8 * k), k), BigEndian(EncodeInt(y, 8 * k), k);
            (BytesLess(a, b) <==> x < y) && (a == b <==> x == y)
  {
    hide EncodeInt, BigEndian, Pow2;
    EncodeIntIs(x, 8 * k);
    EncodeIntIs(y, 8 * k);
    BigEndianOrder(EncodeInt(x, 8 * k), EncodeInt(y, 8 * k), k);
  }

  lemma FloatColumn(w: nat, v: nat, t: Format, k: nat)
    requires t.Valid() && t.fraction > 0 && t.bits == 8 * k
    requires w < Pow2(t.bits) && v < Pow2(t.bits) && !IsNaN(w, t) && !IsNaN(v, t)
    ensures var a, b := BigEndian(EncodeFloat(w, t), k), BigEndian(EncodeFloat(v, t), k);
            (BytesLess(a, b) <==> Place(w, t) < Place(v, t)) && (a == b <==> w == v)
  {
    hide EncodeFloat, BigEndian, Pow2, Place, IsNaN;
    EncodedFits(w, t);
    EncodedFits(v, t);
    FloatPlace(w, v, t);
    BigEndianOrder(EncodeFloat(w, t), EncodeFloat(v, t), k);
  }

  lemma EncodedFits(w: nat, t: Format)
    requires t.Valid() && w < Pow2(t.bits)
    ensures EncodeFloat(w, t) < Pow2(t.bits)
  {
    FloatRoundTrip(w, t);
  }

  /** One column: the bytes compare like the values, and are equal exactly when the key keeps the
      same of them. */
  lemma ColumnOrder(t: FieldType, v: Value, w: Value)
    requires Comparable(t, v) && Comparable(t, w)
    ensures HasType(t, v) && HasType(t, w)
    ensures BytesLess(ColumnBytes(t, v), ColumnBytes(t, w)) <==> ValueLess(t, v, w)
    ensures ColumnBytes(t, v) == ColumnBytes(t, w) <==> NormalValue(t, v) == NormalValue(t, w)
  {
    hide BigEndian, EncodeInt, EncodeFloat, Padded, Place, IsNaN, Pow2, BytesLess, Normal;
    match t
    case Int8 => IntColumn(v.i, w.i, 1);
    case Int16 => IntColumn(v.i, w.i, 2);
    case Int32 => IntColumn(v.i, w.i, 4);
    case Int64 => IntColumn(v.i, w.i, 8);
    case UInt64 => BigEndianOrder(v.i, w.i, 8);
    case Float32 => FloatColumn(v.bits, w.bits, FLOAT32, 4);
    case Float64 => FloatColumn(v.bits, w.bits, FLOAT64, 8);
    case FixedString(len) => PaddedOrder(v.s, w.s, len);
  }

  // ---- Tuples ------------------------------------------------------------------------------

  predicate ComparableTuple(types: seq<FieldType>, vs: seq<Value>)
  {
    |vs| == |types| && forall i :: 0 <= i < |types| ==> Comparable(types[i], vs[i])
  }

  lemma FitsAt(t: FieldType, v: Value)
    requires Comparable(t, v)
    ensures Fits(t) && HasType(t, v)
  {
    hide IsNaN;
  }

  lemma ComparableIsTyped(types: seq<FieldType>, vs: seq<Value>)
    requires ComparableTuple(types, vs)
    ensures TypedTuple(types, vs)
  {
    hide Comparable, HasType;
    forall i | 0 <= i < |types| ensures HasType(types[i], vs[i]) {
      FitsAt(types[i], vs[i]);
    }
  }

  /** What a key keeps of a tuple. */
  function NormalTuple(types: seq<FieldType>, vs: seq<Value>): (r: seq<Value>)
    requires ComparableTuple(types, vs)
    decreases |types|
  {
    if types == [] then [] else [NormalValue(types[0], vs[0])] + NormalTuple(types[1..], vs[1..])
  }

  /** The lexicographic order of what a key keeps of tuples. */
  predicate TupleLess(types: seq<FieldType>, a: seq<Value>, b: seq<Value>)
    requires ComparableTuple(types, a) && ComparableTuple(types, b)
    decreases |types|
  {
    if types == [] then false
    else
      || ValueLess(types[0], a[0], b[0])
      || (NormalValue(types[0], a[0]) == NormalValue(types[0], b[0]) && TupleLess(types[1..], a[1..], b[1..]))
  }

  predicate TypedTuple(types: seq<FieldType>, vs: seq<Value>)
  {
    |vs| == |types| && forall i :: 0 <= i < |types| ==> HasType(types[i], vs[i])
  }

  function KeyOf(types: seq<FieldType>, vs: seq<Value>): (key: seq<Byte>)
    requires TypedTuple(types, vs)
    decreases |types|
  {
    if types == [] then [] else ColumnBytes(types[0], vs[0]) + KeyOf(types[1..], vs[1..])
  }

  function KeySize(types: seq<FieldType>): (n: int)
    decreases |types|
  {
    if types == [] then 0 else FieldSize(types[0]) + KeySize(types[1..])
  }

  /** Every key of an index over columns that fit has the size that key_size computes. */
  lemma {:induction false} KeyHasSize(types: seq<FieldType>, vs: seq<Value>)
    requires TypedTuple(types, vs) && forall t <- types :: Fits(t)
    ensures |KeyOf(types, vs)| == KeySize(types)
    decreases |types|
  {
    if types != [] {
      hide ColumnBytes, HasType, Fits;
      assert forall t <- types[1..] :: t in types;
      KeyHasSize(types[1..], vs[1..]);
      assert types[0] in types;
    }
  }

  /** Keys sort like tuples, whatever the values of their columns are, but for NaN; two tuples have
      the same key exactly when it keeps the same of them; and every key of an index has the size
      that key_size computes. */
  lemma {:induction false} KeysSortLikeTuples(types: seq<FieldType>, a: seq<Value>, b: seq<Value>)
    requires ComparableTuple(types, a) && ComparableTuple(types, b)
    ensures TypedTuple(types, a) && TypedTuple(types, b)
    ensures BytesLess(KeyOf(types, a), KeyOf(types, b)) <==> TupleLess(types, a, b)
    ensures KeyOf(types, a) == KeyOf(types, b) <==> NormalTuple(types, a) == NormalTuple(types, b)
    ensures |KeyOf(types, a)| == KeySize(types)
    decreases |types|
  {
    ComparableIsTyped(types, a);
    ComparableIsTyped(types, b);
    if types != [] {
      hide ColumnBytes, ValueLess, NormalValue, Comparable, HasType, Fits, BytesLess;
      FitsAt(types[0], a[0]);
      FitsAt(types[0], b[0]);
      KeysSortLikeTuples(types[1..], a[1..], b[1..]);
      ColumnOrder(types[0], a[0], b[0]);
      FirstColumn(types, a, b);
      SplitEqual(NormalTuple(types, a), NormalTuple(types, b));
    } else {
      BytesLessIrreflexive([]);
    }
  }

  lemma SplitEqual(a: seq<Value>, b: seq<Value>)
    requires a != [] && b != []
    ensures a == b <==> a[0] == b[0] && a[1..] == b[1..]
  {
    assert a == [a[0]] + a[1..] && b == [b[0]] + b[1..];
  }

  predicate PlainTuple(types: seq<FieldType>, vs: seq<Value>)
    requires ComparableTuple(types, vs)
  {
    forall i :: 0 <= i < |types| ==> Plain(types[i], vs[i])
  }

  lemma {:induction false} PlainIsNormal(types: seq<FieldType>, vs: seq<Value>)
    requires ComparableTuple(types, vs) && PlainTuple(types, vs)
    ensures NormalTuple(types, vs) == vs
    decreases |types|
  {
    if types != [] {
      hide Comparable, Plain, NormalValue;
      PlainKept(types[0], vs[0]);
      PlainIsNormal(types[1..], vs[1..]);
    }
  }

  /** Different tuples have different keys, if their strings fit and do not end in NUL and they hold
      no positive zero. */
  lemma PlainTuplesApart(types: seq<FieldType>, a: seq<Value>, b: seq<Value>)
    requires ComparableTuple(types, a) && ComparableTuple(types, b)
    requires PlainTuple(types, a) && PlainTuple(types, b)
    ensures TypedTuple(types, a) && TypedTuple(types, b)
    ensures KeyOf(types, a) == KeyOf(types, b) <==> a == b
  {
    hide Comparable, Plain, NormalTuple, KeyOf, HasType;
    KeysSortLikeTuples(types, a, b);
    PlainIsNormal(types, a);
    PlainIsNormal(types, b);
  }

  lemma FirstColumn(types: seq<FieldType>, a: seq<Value>, b: seq<Value>)
    requires TypedTuple(types, a) && TypedTuple(types, b) && types != [] && Fits(types[0])
    ensures var x, y := ColumnBytes(types[0], a[0]), ColumnBytes(types[0], b[0]);
            var c, d := KeyOf(types[1..], a[1..]), KeyOf(types[1..], b[1..]);
            && (BytesLess(KeyOf(types, a), KeyOf(types, b)) <==> BytesLess(x, y) || (x == y && BytesLess(c, d)))
            && (KeyOf(types, a) == KeyOf(types, b) <==> x == y && c == d)
  {
    hide ColumnBytes, BytesLess, HasType, Fits;
    var x, y := ColumnBytes(types[0], a[0]), ColumnBytes(types[0], b[0]);
    var c, d := KeyOf(types[1..], a[1..]), KeyOf(types[1..], b[1..]);
    BytesLessConcat(x, y, c, d);
    assert (x + c)[..|x|] == x && (x + c)[|x|..] == c;
    assert (y + d)[..|y|] == y && (y + d)[|y|..] == d;
  }

  /** The columns of recorded ticks: trading date, timestamp, symbol. */
  const TICK_TYPES: seq<FieldType> := [Int32, Int64, FixedString(16)]

  function TickTuple(dt: int, ts: int, symbol: seq<Byte>): (vs: seq<Value>)
  {
    [IntValue(dt), IntValue(ts), StringValue(symbol)]
  }

  predicate ValidTick(dt: int, ts: int)
  {
    InRange(dt, 32) && InRange(ts, 64)
  }

  function TickKey(dt: int, ts: int, symbol: seq<Byte>): (key: seq<Byte>)
    requires ValidTick(dt, ts)
  {
    KeyOf(TICK_TYPES, TickTuple(dt, ts, symbol))
  }

  lemma TickIsComparable(dt: int, ts: int, symbol: seq<Byte>)
    requires ValidTick(dt, ts)
    ensures ComparableTuple(TICK_TYPES, TickTuple(dt, ts, symbol))
  {
    hide Pow2;
  }

  /** Keys of recorded ticks replay by date, then by time, then by what 16 bytes keep of the symbol. */
  lemma TicksReplayInOrder(dt1: int, ts1: int, s1: seq<Byte>, dt2: int, ts2: int, s2: seq<Byte>)
    requires ValidTick(dt1, ts1) && ValidTick(dt2, ts2)
    ensures |TickKey(dt1, ts1, s1)| == |TickKey(dt2, ts2, s2)| == 28
    ensures BytesLess(TickKey(dt1, ts1, s1), TickKey(dt2, ts2, s2)) <==>
              dt1 < dt2 || (dt1 == dt2 && (ts1 < ts2 || (ts1 == ts2 && BytesLess(Normal(s1, 16), Normal(s2, 16)))))
  {
    hide ColumnBytes, BytesLess, Comparable, HasType, Pow2, Normal;
    var types := TICK_TYPES;
    var a, b := TickTuple(dt1, ts1, s1), TickTuple(dt2, ts2, s2);
    TickIsComparable(dt1, ts1, s1);
    TickIsComparable(dt2, ts2, s2);
    KeysSortLikeTuples(types, a, b);
    KeysSortLikeTuples(types, b, a);
    assert types[1..] == [Int64, FixedString(16)] && types[1..][1..] == [FixedString(16)];
    assert types[1..][1..][1..] == [];
    assert a[1..] == [IntValue(ts1), StringValue(s1)] && b[1..] == [IntValue(ts2), StringValue(s2)];
    assert a[1..][1..] == [StringValue(s1)] && b[1..][1..] == [StringValue(s2)];
    assert KeySize([FixedString(16)]) == 16;
    assert KeySize([Int64, FixedString(16)]) == 24;
  }
}
