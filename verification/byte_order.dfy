/** The byte-wise order of the store's keys. */
module ByteOrder {
  import opened KeyEncoder

  /** The order of memcmp, and of the store: a proper prefix comes first. */
  predicate BytesLess(a: seq<Byte>, b: seq<Byte>)
    decreases |b|
  {
    if b == [] then false
    else if a == [] then true
    else a[0] < b[0] || (a[0] == b[0] && BytesLess(a[1..], b[1..]))
  }

  /** The first part decides, unless it is equal. */
  lemma {:induction false} BytesLessConcat(a: seq<Byte>, b: seq<Byte>, c: seq<Byte>, d: seq<Byte>)
    requires |a| == |b|
    ensures BytesLess(a + c, b + d) <==> BytesLess(a, b) || (a == b && BytesLess(c, d))
    decreases |a|
  {
    if a == [] {
      assert a + c == c && b + d == d;
    } else {
      BytesLessConcat(a[1..], b[1..], c, d);
      assert (a + c)[1..] == a[1..] + c && (b + d)[1..] == b[1..] + d;
      assert a == [a[0]] + a[1..] && b == [b[0]] + b[1..];
    }
  }

  lemma {:induction false} BytesLessIrreflexive(a: seq<Byte>)
    ensures !BytesLess(a, a)
    decreases |a|
  {
    if a != [] {
      BytesLessIrreflexive(a[1..]);
    }
  }

  lemma {:induction false} BytesLessTotal(a: seq<Byte>, b: seq<Byte>)
    ensures BytesLess(a, b) || a == b || BytesLess(b, a)
    decreases |a|
  {
    if a != [] && b != [] {
      BytesLessTotal(a[1..], b[1..]);
      assert a == [a[0]] + a[1..] && b == [b[0]] + b[1..];
    }
  }

  lemma {:induction false} BytesLessTransitive(a: seq<Byte>, b: seq<Byte>, c: seq<Byte>)
    requires BytesLess(a, b) && BytesLess(b, c)
    ensures BytesLess(a, c)
    decreases |a|
  {
    if a != [] && a[0] == b[0] == c[0] {
      BytesLessTransitive(a[1..], b[1..], c[1..]);
    }
  }

  lemma FirstDecides(a: seq<Byte>, b: seq<Byte>)
    requires a != [] && b != []
    ensures a[0] != b[0] ==> (BytesLess(a, b) <==> a[0] < b[0])
  {
  }

  lemma SameFirst(x: Byte, a: seq<Byte>, b: seq<Byte>)
    ensures BytesLess([x] + a, [x] + b) <==> BytesLess(a, b)
    ensures [x] + a == [x] + b <==> a == b
  {
    BytesLessConcat([x], [x], a, b);
    BytesLessIrreflexive([x]);
    assert ([x] + a)[1..] == a && ([x] + b)[1..] == b;
  }

  lemma EmptyLess(s: seq<Byte>)
    ensures BytesLess([], s) <==> s != []
    ensures !BytesLess(s, [])
  {
  }
}
