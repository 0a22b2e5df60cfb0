/** Strings of fixed-size columns: cut to the size, or filled up with zeros.  What this forgets, and
    which strings keep their order. */
module PaddedString {
  import opened KeyEncoder
  import opened ByteOrder

  function Zeros(n: nat): (z: seq<Byte>)
    ensures |z| == n
  {
    if n == 0 then [] else [0] + Zeros(n - 1)
  }

  function Cut(s: seq<Byte>, len: nat): (r: seq<Byte>)
  {
    if |s| < len then s else s[..len]
  }

  /** append_fixed_char: cut to the column's length, then filled up with zeros. */
  function Padded(s: seq<Byte>, len: nat): (r: seq<Byte>)
    ensures |r| == len
  {
    Cut(s, len) + Zeros(len - |Cut(s, len)|)
  }

  predicate EndsInNul(s: seq<Byte>)
  {
    s != [] && s[|s| - 1] == 0
  }

  lemma PaddedFirst(s: seq<Byte>, len: nat)
    requires |s| <= len && len > 0
    ensures s == [] ==> Padded(s, len)[0] == 0
    ensures s != [] ==> Padded(s, len) == [s[0]] + Padded(s[1..], len - 1)
  {
    if s != [] {
      assert s == [s[0]] + s[1..];
    }
  }

  /** Padding alone comes before any string that ends in something else. */
  lemma {:induction false} PaddingFirst(t: seq<Byte>, len: nat)
    requires t != [] && |t| <= len && !EndsInNul(t)
    ensures Padded([], len) != Padded(t, len)
    ensures BytesLess(Padded([], len), Padded(t, len)) && !BytesLess(Padded(t, len), Padded([], len))
    decreases len
  {
    hide BytesLess;
    PaddedFirst(t, len);
    FirstDecides(Padded([], len), Padded(t, len));
    FirstDecides(Padded(t, len), Padded([], len));
    if t[0] == 0 {
      assert t[1..] != [];
      PaddingFirst(t[1..], len - 1);
      assert Padded([], len) == [0] + Padded([], len - 1);
      SameFirst(0, Padded([], len - 1), Padded(t[1..], len - 1));
      SameFirst(0, Padded(t[1..], len - 1), Padded([], len - 1));
    }
  }

  /** Strings that do not end in NUL compare like their padded forms, and can be told apart by
      them. */
  lemma {:induction false} StringColumn(s: seq<Byte>, t: seq<Byte>, len: nat)
    requires |s| <= len && |t| <= len && !EndsInNul(s) && !EndsInNul(t)
    ensures BytesLess(Padded(s, len), Padded(t, len)) <==> BytesLess(s, t)
    ensures Padded(s, len) == Padded(t, len) <==> s == t
    decreases len
  {
    hide BytesLess, Padded;
    EmptyLess(s);
    EmptyLess(t);
    if s == t {
      BytesLessIrreflexive(Padded(s, len));
      BytesLessIrreflexive(s);
    } else if s == [] {
      PaddingFirst(t, len);
    } else if t == [] {
      PaddingFirst(s, len);
    } else {
      PaddedFirst(s, len);
      PaddedFirst(t, len);
      if s[0] != t[0] {
        FirstDecides(Padded(s, len), Padded(t, len));
        FirstDecides(s, t);
      } else {
        StringColumn(s[1..], t[1..], len - 1);
        SameFirst(s[0], s[1..], t[1..]);
        SameFirst(s[0], Padded(s[1..], len - 1), Padded(t[1..], len - 1));
        assert s == [s[0]] + s[1..] && t == [s[0]] + t[1..];
      }
    }
  }

  /** A string that ends in NUL has the same padded form as without it. */
  lemma NulIsLost(s: seq<Byte>, len: nat)
    requires |s| < len
    ensures Padded(s + [0], len) == Padded(s, len)
  {
    assert Zeros(len - |s|) == [0] + Zeros(len - |s| - 1);
  }

  // ---- All strings -------------------------------------------------------------------------

  /** A string without the NULs at its end. */
  function StripNul(s: seq<Byte>): (r: seq<Byte>)
    decreases |s|
  {
    if EndsInNul(s) then StripNul(s[..|s| - 1]) else s
  }

  /** What a column of a size keeps of a string. */
  function Normal(s: seq<Byte>, len: nat): (r: seq<Byte>)
  {
    StripNul(Cut(s, len))
  }

  lemma {:induction false} StripSplits(s: seq<Byte>)
    ensures |StripNul(s)| <= |s| && !EndsInNul(StripNul(s))
    ensures s == StripNul(s) + Zeros(|s| - |StripNul(s)|)
    decreases |s|
  {
    if EndsInNul(s) {
      var front := s[..|s| - 1];
      StripSplits(front);
      ZerosSnoc(|front| - |StripNul(s)|);
      assert s == front + [0];
    } else {
      assert Zeros(0) == [];
    }
  }

  lemma {:induction false} ZerosSnoc(n: nat)
    ensures Zeros(n + 1) == Zeros(n) + [0]
    decreases n
  {
    if n > 0 {
      ZerosSnoc(n - 1);
    }
  }

  lemma {:induction false} StripKeepsPadded(s: seq<Byte>, len: nat)
    requires |s| <= len
    ensures Padded(StripNul(s), len) == Padded(s, len)
    decreases |s|
  {
    hide Padded;
    if EndsInNul(s) {
      StripKeepsPadded(s[..|s| - 1], len);
      NulIsLost(s[..|s| - 1], len);
      assert s == s[..|s| - 1] + [0];
    }
  }

  lemma NormalKeepsPadded(s: seq<Byte>, len: nat)
    ensures |Normal(s, len)| <= len && !EndsInNul(Normal(s, len))
    ensures Padded(Normal(s, len), len) == Padded(s, len)
  {
    hide StripNul;
    StripSplits(Cut(s, len));
    StripKeepsPadded(Cut(s, len), len);
  }

  /** Padded strings, of any length, compare like what the column keeps of them, and are equal
      exactly when that is. */
  lemma PaddedOrder(s: seq<Byte>, t: seq<Byte>, len: nat)
    ensures BytesLess(Padded(s, len), Padded(t, len)) <==> BytesLess(Normal(s, len), Normal(t, len))
    ensures Padded(s, len) == Padded(t, len) <==> Normal(s, len) == Normal(t, len)
  {
    hide Padded, Normal, BytesLess;
    NormalKeepsPadded(s, len);
    NormalKeepsPadded(t, len);
    StringColumn(Normal(s, len), Normal(t, len), len);
  }

  /** Where padded strings differ, they compare like the strings. */
  lemma {:induction false} PaddedDecides(s: seq<Byte>, t: seq<Byte>, len: nat)
    requires Padded(s, len) != Padded(t, len)
    ensures BytesLess(Padded(s, len), Padded(t, len)) <==> BytesLess(s, t)
    decreases len
  {
    hide BytesLess, Padded;
    FirstOfPadded(s, len);
    FirstOfPadded(t, len);
    FirstDecides(Padded(s, len), Padded(t, len));
    EmptyLess(s);
    EmptyLess(t);
    var a, b := if s == [] then 0 else s[0], if t == [] then 0 else t[0];
    var x, y := if s == [] then [] else s[1..], if t == [] then [] else t[1..];
    if a == b {
      SameFirst(a, Padded(x, len - 1), Padded(y, len - 1));
      PaddedDecides(x, y, len - 1);
      SameFirst(a, x, y);
      EmptyLess(x);
      EmptyLess(y);
      assert s != [] ==> s == [a] + x;
      assert t != [] ==> t == [b] + y;
    } else if s != [] && t != [] {
      FirstDecides(s, t);
    }
  }

  lemma FirstOfPadded(s: seq<Byte>, len: nat)
    ensures len == 0 ==> Padded(s, len) == []
    ensures len > 0 ==>
              Padded(s, len) == [if s == [] then 0 else s[0]] + Padded(if s == [] then [] else s[1..], len - 1)
  {
    if len > 0 && s != [] {
      assert Cut(s, len) == [s[0]] + Cut(s[1..], len - 1);
    }
  }

  /** Exactly which strings keep their order in the key, and which are still told apart: all but
      those of which the column keeps the same. */
  lemma OrderKeptExactly(s: seq<Byte>, t: seq<Byte>, len: nat)
    ensures (BytesLess(Padded(s, len), Padded(t, len)) <==> BytesLess(s, t))
       <==> !(Normal(s, len) == Normal(t, len) && BytesLess(s, t))
    ensures (Padded(s, len) == Padded(t, len) <==> s == t)
       <==> (Normal(s, len) != Normal(t, len) || s == t)
  {
    hide BytesLess, Padded, Normal;
    PaddedOrder(s, t, len);
    if Padded(s, len) == Padded(t, len) {
      BytesLessIrreflexive(Padded(s, len));
    } else {
      PaddedDecides(s, t, len);
    }
  }

  /** "a" should come before "a" with a NUL behind it, and has the same key. */
  lemma TrailingNulLost()
    ensures BytesLess([97], [97, 0]) && Padded([97], 16) == Padded([97, 0], 16)
  {
    NulIsLost([97], 16);
    assert [97] + [0] == [97, 0];
  }

  lemma {:induction false} ZerosLess(m: nat, n: nat)
    ensures BytesLess(Zeros(m), Zeros(n)) <==> m < n
    decreases n
  {
    if m > 0 && n > 0 {
      ZerosLess(m - 1, n - 1);
    }
  }

  /** Of strings that differ in the NULs at their ends, the one with fewer comes first. */
  lemma FewerNulsFirst(s: seq<Byte>, t: seq<Byte>)
    requires StripNul(s) == StripNul(t)
    ensures BytesLess(s, t) <==> |s| < |t|
  {
    hide BytesLess, StripNul, Zeros;
    StripSplits(s);
    StripSplits(t);
    ZeroTails(StripNul(s), |s| - |StripNul(s)|, |t| - |StripNul(s)|);
  }

  lemma ZeroTails(z: seq<Byte>, m: nat, n: nat)
    ensures BytesLess(z + Zeros(m), z + Zeros(n)) <==> m < n
  {
    hide BytesLess, Zeros;
    BytesLessConcat(z, z, Zeros(m), Zeros(n));
    BytesLessIrreflexive(z);
    ZerosLess(m, n);
  }

  lemma NormalOfFitting(s: seq<Byte>, len: nat)
    requires |s| <= len
    ensures Normal(s, len) == StripNul(s)
  {
    hide StripNul;
    assert Cut(s, len) == s;
  }

  /** For strings that fit: the order is lost exactly when they differ only in the number of NULs at
      their ends, and the one with fewer should come first. */
  lemma FittingOrderKept(s: seq<Byte>, t: seq<Byte>, len: nat)
    requires |s| <= len && |t| <= len
    ensures (BytesLess(Padded(s, len), Padded(t, len)) <==> BytesLess(s, t))
       <==> !(StripNul(s) == StripNul(t) && |s| < |t|)
    ensures (Padded(s, len) == Padded(t, len) <==> s == t) <==> (StripNul(s) != StripNul(t) || s == t)
  {
    hide BytesLess, Padded, StripNul, Normal;
    OrderKeptExactly(s, t, len);
    NormalOfFitting(s, len);
    NormalOfFitting(t, len);
    if StripNul(s) == StripNul(t) {
      FewerNulsFirst(s, t);
    }
  }
}
