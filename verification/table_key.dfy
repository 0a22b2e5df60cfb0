/** MutTableKey and the loops that fill it: the bytes of an index key are appended in place, column
    by column, on hosts of either byte order. */
module TableKey {
  import opened Bits
  import opened KeyEncoder
  import opened MemComparable
  import opened CompositeKey
  import opened PaddedString

  class MutTableKey {
    const bigEndianHost: bool
    var data: seq<Byte>

    constructor (bigEndianHost: bool)
      ensures data == [] && this.bigEndianHost == bigEndianHost
    {
      this.bigEndianHost := bigEndianHost;
      data := [];
    }

    method AppendI8(x: int)
      requires InRange(x, 8)
      modifies this`data
      ensures data == old(data) + ColumnBytes(Int8, IntValue(x))
    {
      hide EncodeInt, Pow2;
      var encode := EncodeInt(x, 8);
      OneByte(bigEndianHost, encode);
      data := data + Memory(bigEndianHost, encode, 1);
    }

    method AppendI16(x: int)
      requires InRange(x, 16)
      modifies this`data
      ensures data == old(data) + ColumnBytes(Int16, IntValue(x))
    {
      hide EncodeInt, ToEndianU16, Memory, BigEndian, Pow2;
      var encode := ToEndianU16(bigEndianHost, EncodeInt(x, 16));
      ToEndian16Bytes(bigEndianHost, EncodeInt(x, 16));
      data := data + Memory(bigEndianHost, encode, 2);
    }

    method AppendI32(x: int)
      requires InRange(x, 32)
      modifies this`data
      ensures data == old(data) + ColumnBytes(Int32, IntValue(x))
    {
      hide EncodeInt, ToEndianU32, Memory, BigEndian, Pow2;
      var encode := ToEndianU32(bigEndianHost, EncodeInt(x, 32));
      ToEndian32Bytes(bigEndianHost, EncodeInt(x, 32));
      data := data + Memory(bigEndianHost, encode, 4);
    }

    method AppendI64(x: int)
      requires InRange(x, 64)
      modifies this`data
      ensures data == old(data) + ColumnBytes(Int64, IntValue(x))
    {
      hide EncodeInt, ToEndianU64, Memory, BigEndian, Pow2;
      var encode := ToEndianU64(bigEndianHost, EncodeInt(x, 64));
      ToEndian64Bytes(bigEndianHost, EncodeInt(x, 64));
      data := data + Memory(bigEndianHost, encode, 8);
    }

    method AppendU32(x: nat)
      modifies this`data
      ensures data == old(data) + BigEndian(x, 4)
    {
      hide ToEndianU32, Memory, BigEndian;
      var encode := ToEndianU32(bigEndianHost, x);
      ToEndian32Bytes(bigEndianHost, x);
      data := data + Memory(bigEndianHost, encode, 4);
    }

    method AppendU64(x: nat)
      modifies this`data
      ensures data == old(data) + BigEndian(x, 8)
    {
      hide ToEndianU64, Memory, BigEndian;
      var encode := ToEndianU64(bigEndianHost, x);
      ToEndian64Bytes(bigEndianHost, x);
      data := data + Memory(bigEndianHost, encode, 8);
    }

    method AppendFloat(bits: nat)
      modifies this`data
      ensures data == old(data) + BigEndian(EncodeFloat(bits, FLOAT32), 4)
    {
      hide EncodeFloat;
      AppendU32(EncodeFloat(bits, FLOAT32));
    }

    method AppendDouble(bits: nat)
      modifies this`data
      ensures data == old(data) + BigEndian(EncodeFloat(bits, FLOAT64), 8)
    {
      hide EncodeFloat;
      AppendU64(EncodeFloat(bits, FLOAT64));
    }

    method AppendString(s: seq<Byte>)
      modifies this`data
      ensures data == old(data) + (s + [0])
    {
      data := data + s;
      data := data + [0];
      assert old(data) + s + [0] == old(data) + (s + [0]);
    }

    method AppendFixedChar(s: seq<Byte>, fixedSize: nat)
      modifies this`data
      ensures data == old(data) + Padded(s, fixedSize)
    {
      var size := if |s| < fixedSize then |s| else fixedSize;
      data := data + s[..size];
      ghost var filled := data;
      assert s[..|s|] == s;
      if size < fixedSize {
        for i := 0 to fixedSize - size
          invariant data == filled + Zeros(i)
        {
          ZerosSnoc(i);
          data := data + [0];
        }
      }
      assert data == old(data) + (s[..size] + Zeros(fixedSize - size));
    }
  }

  lemma OneByte(host: bool, w: nat)
    ensures Memory(host, w, 1) == BigEndian(w, 1)
  {
    assert BigEndian(w, 1) == [] + [w % 256] == LittleEndian(w, 1);
  }

  /** field_append_value: nothing is appended for the types that it does not know. */
  method FieldAppendValue(t: FieldType, v: Value, key: MutTableKey)
    requires HasType(t, v)
    modifies key`data
    ensures key.data == old(key.data) + ColumnBytes(t, v)
  {
    hide BigEndian, EncodeInt, EncodeFloat, Padded, Pow2;
    match t
    case Int8 => key.AppendI8(v.i);
    case Int16 => key.AppendI16(v.i);
    case Int32 => key.AppendI32(v.i);
    case Int64 => key.AppendI64(v.i);
    case UInt64 => key.AppendU64(v.i);
    case Float32 => key.AppendFloat(v.bits);
    case Float64 => key.AppendDouble(v.bits);
    case FixedString(len) => key.AppendFixedChar(v.s, len);
    case String => key.AppendString(v.s);
    case _ =>
  }

  /** How get_index_key ends: filled, stopped at a row without the column, or with the exception
      for a column that the table does not have. */
  datatype KeyResult = Done | NoValue | OutOfRange

  predicate ValidRow(fields: map<int, FieldType>, row: map<int, Value>)
  {
    forall id :: id in fields && id in row ==> HasType(fields[id], row[id])
  }

  lemma ValidAt(fields: map<int, FieldType>, row: map<int, Value>, id: int)
    requires ValidRow(fields, row) && id in fields && id in row
    ensures HasType(fields[id], row[id])
  {
  }

  predicate AllIn<T>(ids: seq<int>, m: map<int, T>)
  {
    forall i :: 0 <= i < |ids| ==> ids[i] in m
  }

  function TypesAt(fields: map<int, FieldType>, ids: seq<int>): (types: seq<FieldType>)
    requires AllIn(ids, fields)
  {
    seq(|ids|, i requires 0 <= i < |ids| => fields[ids[i]])
  }

  function ValuesAt(row: map<int, Value>, ids: seq<int>): (vs: seq<Value>)
    requires AllIn(ids, row)
  {
    seq(|ids|, i requires 0 <= i < |ids| => row[ids[i]])
  }

  lemma {:induction false} KeySnoc(types: seq<FieldType>, vs: seq<Value>, t: FieldType, v: Value)
    requires TypedTuple(types, vs) && HasType(t, v)
    ensures TypedTuple(types + [t], vs + [v])
    ensures KeyOf(types + [t], vs + [v]) == KeyOf(types, vs) + ColumnBytes(t, v)
    decreases |types|
  {
    hide ColumnBytes, HasType;
    if types == [] {
      assert (types + [t])[1..] == [] && (vs + [v])[1..] == [];
      assert KeyOf([], []) == [];
      assert types + [t] == [t] && vs + [v] == [v];
    } else {
      KeySnoc(types[1..], vs[1..], t, v);
      assert (types + [t])[1..] == types[1..] + [t] && (vs + [v])[1..] == vs[1..] + [v];
    }
  }

  lemma {:induction false} KeySizeSnoc(types: seq<FieldType>, t: FieldType)
    ensures KeySize(types + [t]) == KeySize(types) + FieldSize(t)
    decreases |types|
  {
    if types == [] {
      assert types + [t] == [t];
    } else {
      KeySizeSnoc(types[1..], t);
      assert (types + [t])[1..] == types[1..] + [t];
    }
  }

  /** The columns before number `n` were appended, and the row lacks that one. */
  predicate StoppedAt(fields: map<int, FieldType>, ids: seq<int>, row: map<int, Value>, before: seq<Byte>,
                      after: seq<Byte>, n: nat)
  {
    && n < |ids| && AllIn(ids[..n], fields) && AllIn(ids[..n], row) && ids[n] !in row
    && TypedTuple(TypesAt(fields, ids[..n]), ValuesAt(row, ids[..n]))
    && after == before + KeyOf(TypesAt(fields, ids[..n]), ValuesAt(row, ids[..n]))
  }

  ghost predicate StoppedAtGap(fields: map<int, FieldType>, ids: seq<int>, row: map<int, Value>, before: seq<Byte>,
                               after: seq<Byte>)
  {
    exists n: nat :: StoppedAt(fields, ids, row, before, after, n)
  }

  lemma AllInPrefix<T>(ids: seq<int>, m: map<int, T>, n: nat)
    requires AllIn(ids, m) && n <= |ids|
    ensures AllIn(ids[..n], m)
  {
  }

  /** get_index_key and get_primary_key: the key of a row, or nothing beyond a prefix of it. */
  method GetIndexKey(fields: map<int, FieldType>, ids: seq<int>, row: map<int, Value>, key: MutTableKey)
    returns (r: KeyResult)
    requires ValidRow(fields, row)
    modifies key`data
    ensures r == OutOfRange <==> !AllIn(ids, fields)
    ensures r == NoValue <==> AllIn(ids, fields) && !AllIn(ids, row)
    ensures r == Done ==>
              && AllIn(ids, fields) && AllIn(ids, row)
              && TypedTuple(TypesAt(fields, ids), ValuesAt(row, ids))
              && key.data == old(key.data) + KeyOf(TypesAt(fields, ids), ValuesAt(row, ids))
    ensures r == OutOfRange ==> key.data == old(key.data)
    ensures r == NoValue ==> StoppedAtGap(fields, ids, row, old(key.data), key.data)
  {
    hide ColumnBytes, HasType, ValidRow;
    var infos: seq<FieldType> := [];
    for i := 0 to |ids|
      invariant AllIn(ids[..i], fields)
      invariant infos == TypesAt(fields, ids[..i])
    {
      if ids[i] !in fields {
        return OutOfRange;
      }
      assert ids[..i + 1] == ids[..i] + [ids[i]];
      infos := infos + [fields[ids[i]]];
    }
    assert ids[..|ids|] == ids;
    for i := 0 to |ids|
      invariant AllIn(ids[..i], row)
      invariant TypedTuple(TypesAt(fields, ids[..i]), ValuesAt(row, ids[..i]))
      invariant key.data == old(key.data) + KeyOf(TypesAt(fields, ids[..i]), ValuesAt(row, ids[..i]))
    {
      if ids[i] !in row {
        AllInPrefix(ids, fields, i);
        assert StoppedAt(fields, ids, row, old(key.data), key.data, i);
        return NoValue;
      }
      assert infos[i] == fields[ids[i]];
      ValidAt(fields, row, ids[i]);
      FieldAppendValue(infos[i], row[ids[i]], key);
      KeySnoc(TypesAt(fields, ids[..i]), ValuesAt(row, ids[..i]), infos[i], row[ids[i]]);
      assert ids[..i + 1] == ids[..i] + [ids[i]];
      assert TypesAt(fields, ids[..i + 1]) == TypesAt(fields, ids[..i]) + [infos[i]];
      assert ValuesAt(row, ids[..i + 1]) == ValuesAt(row, ids[..i]) + [row[ids[i]]];
    }
    return Done;
  }

  /** How many columns are of types that field_fixed_size does not know. */
  function UnknownColumns(types: seq<FieldType>): (n: nat)
  {
    if types == [] then 0 else (if types[0].Unsized? then 1 else 0) + UnknownColumns(types[1..])
  }

  /** The sizes of the other columns together. */
  function KnownSize(types: seq<FieldType>): (n: nat)
  {
    if types == [] then 0 else (if types[0].Unsized? then 0 else FieldSize(types[0])) + KnownSize(types[1..])
  }

  lemma {:induction false} SizesAddUp(types: seq<FieldType>)
    ensures KeySize(types) == KnownSize(types) - UnknownColumns(types)
    decreases |types|
  {
    if types != [] {
      SizesAddUp(types[1..]);
    }
  }

  /** key_size: minus one exactly when the table lacks a column, or when there is one column of an
      unknown type more than the other columns have bytes. */
  method IndexKeySize(fields: map<int, FieldType>, ids: seq<int>) returns (n: int)
    ensures AllIn(ids, fields) ==> n == KeySize(TypesAt(fields, ids))
    ensures n == -1 <==>
      !AllIn(ids, fields) || UnknownColumns(TypesAt(fields, ids)) == KnownSize(TypesAt(fields, ids)) + 1
  {
    n := 0;
    for i := 0 to |ids|
      invariant AllIn(ids[..i], fields)
      invariant n == KeySize(TypesAt(fields, ids[..i]))
    {
      if ids[i] !in fields {
        return -1;
      }
      KeySizeSnoc(TypesAt(fields, ids[..i]), fields[ids[i]]);
      assert ids[..i + 1] == ids[..i] + [ids[i]];
      assert TypesAt(fields, ids[..i + 1]) == TypesAt(fields, ids[..i]) + [fields[ids[i]]];
      n := n + FieldSize(fields[ids[i]]);
    }
    assert ids[..|ids|] == ids;
    SizesAddUp(TypesAt(fields, ids));
  }

  /** One column, which is there, of an unknown type. */
  method OneUnknownColumn() returns (n: int)
    ensures n == -1 && AllIn([0], map[0 := Unsized])
  {
    var fields := map[0 := Unsized];
    assert TypesAt(fields, [0]) == [Unsized];
    assert KnownSize([]) == 0 && UnknownColumns([]) == 0;
    n := IndexKeySize(fields, [0]);
  }
}
