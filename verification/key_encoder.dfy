/** KeyEncoder: unsigned words and big-endian bytes whose order is the order of the values. */
module KeyEncoder {
  import opened Bits

  type Byte = b: int | 0 <= b < 256

  // ---- Bytes of a word ---------------------------------------------------------------------

  /** The k low bytes of a word, most significant first. */
  function BigEndian(w: nat, k: nat): (r: seq<Byte>)
    ensures |r| == k
  {
    if k == 0 then [] else BigEndian(w / 256, k - 1) + [w % 256]
  }

  /** The k low bytes of a word, least significant first. */
  function LittleEndian(w: nat, k: nat): (r: seq<Byte>)
    ensures |r| == k
  {
    if k == 0 then [] else [w % 256] + LittleEndian(w / 256, k - 1)
  }

  /** What a k-byte word looks like in the memory of the host. */
  function Memory(bigEndianHost: bool, w: nat, k: nat): (r: seq<Byte>)
  {
    if bigEndianHost then BigEndian(w, k) else LittleEndian(w, k)
  }

  function ToEndianU16(bigEndianHost: bool, x: nat): (r: nat)
  {
    if bigEndianHost then x
    else Or(Shl(And(x, 0x00FF), 8), Shr(And(x, 0xFF00), 8))
  }

  function ToEndianU32(bigEndianHost: bool, x: nat): (r: nat)
  {
    if bigEndianHost then x
    else Or(Or(Or(Shl(And(x, 0x0000_00FF), 24),
                  Shl(And(x, 0x0000_FF00), 8)),
               Shr(And(x, 0x00FF_0000), 8)),
            Shr(And(x, 0xFF00_0000), 24))
  }

  function ToEndianU64(bigEndianHost: bool, x: nat): (r: nat)
  {
    if bigEndianHost then x
    else Or(Or(Or(Or(Or(Or(Or(Shl(And(x, 0x0000_0000_0000_00FF), 56),
                              Shl(And(x, 0x0000_0000_0000_FF00), 40)),
                           Shl(And(x, 0x0000_0000_00FF_0000), 24)),
                        Shl(And(x, 0x0000_0000_FF00_0000), 8)),
                     Shr(And(x, 0x0000_00FF_0000_0000), 8)),
                  Shr(And(x, 0x0000_FF00_0000_0000), 24)),
               Shr(And(x, 0x00FF_0000_0000_0000), 40)),
            Shr(And(x, 0xFF00_0000_0000_0000), 56))
  }

  /** Byte number i of a word. */
  function ByteAt(w: nat, i: nat): (b: Byte)
  {
    Shr(w, 8 * i) % 256
  }

  lemma {:induction false} ShlShl(a: nat, m: nat, n: nat)
    ensures Shl(Shl(a, m), n) == Shl(a, m + n)
    decreases n
  {
    if n > 0 {
      ShlShl(a, m, n - 1);
    }
  }

  lemma {:induction false} ShrShl(a: nat, m: nat, n: nat)
    requires n <= m
    ensures Shr(Shl(a, m), n) == Shl(a, m - n)
    decreases n
  {
    if n > 0 {
      assert Shl(a, m) / 2 == Shl(a, m - 1);
      ShrShl(a, m - 1, n - 1);
    }
  }

  /** A byte taken out with a mask at 8 * i. */
  lemma MaskByte(x: nat, i: nat, mask: nat)
    requires mask == Shl(255, 8 * i)
    ensures And(x, mask) == Shl(ByteAt(x, i), 8 * i)
  {
    hide And, Shl, Shr;
    assert Pow2(8) == 256 by { assert Pow2(4) == 16; }
    AndField(x, 8, 8 * i);
  }

  /** Adding one more byte to the right of what has been collected. */
  lemma OrByte(acc: nat, n: nat, b: Byte)
    ensures Or(Shl(acc, n + 8), Shl(b, n)) == Shl(acc * 256 + b, n)
  {
    hide Or;
    assert Pow2(8) == 256 by { assert Pow2(4) == 16; }
    ShlIs(acc, 8);
    ShlIs(b, n);
    ShlIs(acc * 256, n);
    ShlIs(acc * 256 + b, n);
    ShlShl(acc, 8, n);
    Pow2Add(8, n);
    assert b * Pow2(n) < 256 * Pow2(n) by { Bounded(b, Pow2(n)); }
    OrDisjoint(acc, n + 8, Shl(b, n));
    assert (acc * 256 + b) * Pow2(n) == acc * 256 * Pow2(n) + b * Pow2(n);
  }

  lemma Bounded(b: Byte, p: nat)
    requires p > 0
    ensures b * p < 256 * p
  {
    assert 256 * p - b * p == (256 - b) * p;
    AtLeast(p, 256 - b);
  }

  lemma Peel(acc: nat, b: Byte, k: nat)
    ensures LittleEndian(acc * 256 + b, k + 1) == [b] + LittleEndian(acc, k)
  {
    Remainder(acc * 256 + b, 256, acc, b);
  }

  lemma {:induction false} ByteOfQuotient(w: nat, i: nat)
    ensures ByteAt(w, i + 1) == ByteAt(w / 256, i)
  {
    assert Pow2(8) == 256 by { assert Pow2(4) == 16; }
    var n := 8 * i;
    ShrIs(w, n + 8);
    ShrIs(w / 256, n);
    Pow2Add(8, n);
    DivideTwice(w, 256, Pow2(n));
  }

  lemma DivideTwice(w: nat, a: nat, b: nat)
    requires a > 0 && b > 0
    ensures a * b > 0 && (w / a) / b == w / (a * b)
  {
    AtLeast(a, b);
    var x, s := w / a, w % a;
    var q, r := x / b, x % b;
    TwoSteps(w, a, b, x, s, q, r);
    Remainder(w, a * b, q, a * r + s);
  }

  lemma TwoSteps(w: nat, a: nat, b: nat, x: nat, s: nat, q: nat, r: nat)
    requires w == a * x + s && s < a && x == b * q + r && r < b
    ensures w == (a * b) * q + (a * r + s) && a * r + s < a * b
  {
    Regroup(a, b, q, r);
    LessRest(a, b, r, s);
  }

  lemma Regroup(a: nat, b: nat, q: nat, r: nat)
    ensures a * (b * q + r) == (a * b) * q + a * r
  {
  }

  lemma LessRest(a: nat, b: nat, r: nat, s: nat)
    requires r < b && s < a
    ensures a * r + s < a * b
  {
    assert a * b - a * r == a * (b - r);
    AtLeast(a, b - r);
  }

  /** The most significant byte comes first. */
  lemma {:induction false} BigEndianAt(w: nat, k: nat, i: nat)
    requires i < k
    ensures BigEndian(w, k)[k - 1 - i] == ByteAt(w, i)
    decreases k
  {
    if i > 0 {
      BigEndianAt(w / 256, k - 1, i - 1);
      ByteOfQuotient(w, i - 1);
    }
  }

  lemma Masks()
    ensures Shl(255, 0) == 0xFF && Shl(255, 8) == 0xFF00 && Shl(255, 16) == 0xFF_0000 && Shl(255, 24) == 0xFF00_0000
    ensures Shl(255, 32) == 0xFF_0000_0000 && Shl(255, 40) == 0xFF00_0000_0000
    ensures Shl(255, 48) == 0xFF_0000_0000_0000 && Shl(255, 56) == 0xFF00_0000_0000_0000
  {
    EightMore(255, 0);
    EightMore(255, 8);
    EightMore(255, 16);
    EightMore(255, 24);
    EightMore(255, 32);
    EightMore(255, 40);
    EightMore(255, 48);
  }

  lemma EightMore(a: nat, n: nat)
    ensures Shl(a, n + 8) == 256 * Shl(a, n)
  {
    ShlShl(a, n, 8);
    ShlIs(Shl(a, n), 8);
    assert Pow2(8) == 256 by { assert Pow2(4) == 16; }
  }

  /** A byte moved to the left, and one moved to the right. */
  lemma MoveLeft(x: nat, i: nat, mask: nat, n: nat)
    requires mask == Shl(255, 8 * i)
    ensures Shl(And(x, mask), n) == Shl(ByteAt(x, i), 8 * i + n)
  {
    hide And, Shl, Shr;
    MaskByte(x, i, mask);
    ShlShl(ByteAt(x, i), 8 * i, n);
  }

  lemma MoveRight(x: nat, i: nat, mask: nat, n: nat)
    requires mask == Shl(255, 8 * i) && n <= 8 * i
    ensures Shr(And(x, mask), n) == Shl(ByteAt(x, i), 8 * i - n)
  {
    hide And, Shl, Shr;
    MaskByte(x, i, mask);
    ShrShl(ByteAt(x, i), 8 * i, n);
  }

  // ---- Byte swaps --------------------------------------------------------------------------

  /** Bytes collected from left to right. */
  function Collected(bytes: seq<Byte>): (w: nat)
    decreases |bytes|
  {
    if bytes == [] then 0 else Collected(bytes[..|bytes| - 1]) * 256 + bytes[|bytes| - 1]
  }

  function Reversed(bytes: seq<Byte>): (r: seq<Byte>)
    ensures |r| == |bytes|
    ensures forall i :: 0 <= i < |bytes| ==> r[i] == bytes[|bytes| - 1 - i]
    decreases |bytes|
  {
    if bytes == [] then [] else [bytes[|bytes| - 1]] + Reversed(bytes[..|bytes| - 1])
  }

  /** The k low bytes of a word, numbered. */
  function BytesOf(x: nat, k: nat): (b: seq<Byte>)
    ensures |b| == k && forall i :: 0 <= i < k ==> b[i] == ByteAt(x, i)
  {
    seq(k, i requires 0 <= i < k => ByteAt(x, i))
  }

  /** The little-endian bytes of a collected word are the collected bytes, last one first. */
  lemma {:induction false} Unpeel(bytes: seq<Byte>)
    ensures LittleEndian(Collected(bytes), |bytes|) == Reversed(bytes)
    decreases |bytes|
  {
    if bytes != [] {
      var n := |bytes| - 1;
      Unpeel(bytes[..n]);
      Peel(Collected(bytes[..n]), bytes[n], n);
    }
  }

  lemma BigEndianIs(x: nat, k: nat)
    ensures BigEndian(x, k) == Reversed(BytesOf(x, k))
  {
    hide ByteAt, BigEndian;
    forall j | 0 <= j < k ensures BigEndian(x, k)[j] == Reversed(BytesOf(x, k))[j] {
      BigEndianAt(x, k, k - 1 - j);
    }
  }

  /** A word that collects the bytes of `x` in turn has the big-endian bytes of `x` in a
      little-endian memory. */
  lemma CollectedBytes(x: nat, k: nat)
    ensures LittleEndian(Collected(BytesOf(x, k)), k) == BigEndian(x, k)
  {
    Unpeel(BytesOf(x, k));
    BigEndianIs(x, k);
  }

  lemma FirstByte(b: seq<Byte>, n: nat)
    requires b != []
    ensures Shl(b[0], n) == Shl(Collected(b[..1]), n)
  {
    hide Shl;
    assert Collected(b[..1]) == b[0];
  }

  lemma NextByte(b: seq<Byte>, i: nat, n: nat)
    requires i < |b|
    ensures Or(Shl(Collected(b[..i]), n + 8), Shl(b[i], n)) == Shl(Collected(b[..i + 1]), n)
  {
    hide Or, Shl;
    OrByte(Collected(b[..i]), n, b[i]);
    assert b[..i + 1][..i] == b[..i];
  }

  lemma AllBytes(b: seq<Byte>)
    ensures Shl(Collected(b[..|b|]), 0) == Collected(b)
  {
    assert b[..|b|] == b;
  }

  /** to_endian_u16/u32/u64 followed by a copy of the word's memory gives its big-endian bytes,
      on both kinds of hosts. */
  lemma ToEndian16Bytes(host: bool, x: nat)
    ensures Memory(host, ToEndianU16(host, x), 2) == BigEndian(x, 2)
  {
    if !host {
      hide And, Or, Shr, Shl, ByteAt, Collected, LittleEndian, BigEndian;
      Masks();
      MoveLeft(x, 0, 0xFF, 8);
      MoveRight(x, 1, 0xFF00, 8);
      var b := BytesOf(x, 2);
      FirstByte(b, 8);
      NextByte(b, 1, 0);
      AllBytes(b);
      CollectedBytes(x, 2);
    }
  }

  lemma ToEndian32Bytes(host: bool, x: nat)
    ensures Memory(host, ToEndianU32(host, x), 4) == BigEndian(x, 4)
  {
    if !host {
      hide And, Or, Shr, Shl, ByteAt, Collected, LittleEndian, BigEndian;
      Masks();
      MoveLeft(x, 0, 0xFF, 24);
      MoveLeft(x, 1, 0xFF00, 8);
      MoveRight(x, 2, 0xFF_0000, 8);
      MoveRight(x, 3, 0xFF00_0000, 24);
      var b := BytesOf(x, 4);
      FirstByte(b, 24);
      NextByte(b, 1, 16);
      NextByte(b, 2, 8);
      NextByte(b, 3, 0);
      AllBytes(b);
      CollectedBytes(x, 4);
    }
  }

  /** Eight bytes collected by shifting each into place. */
  lemma EightCollected(b: seq<Byte>)
    requires |b| == 8
    ensures Or(Or(Or(Or(Or(Or(Or(Shl(b[0], 56), Shl(b[1], 48)), Shl(b[2], 40)), Shl(b[3], 32)), Shl(b[4], 24)),
                     Shl(b[5], 16)), Shl(b[6], 8)), Shl(b[7], 0)) == Collected(b)
  {
    hide Or, Shl, Collected;
    FirstByte(b, 56);
    NextByte(b, 1, 48);
    NextByte(b, 2, 40);
    NextByte(b, 3, 32);
    NextByte(b, 4, 24);
    NextByte(b, 5, 16);
    NextByte(b, 6, 8);
    NextByte(b, 7, 0);
    AllBytes(b);
  }

  lemma SwappedIsCollected(x: nat)
    ensures ToEndianU64(false, x) == Collected(BytesOf(x, 8))
  {
    hide And, Or, Shr, Shl, ByteAt, Collected;
    LowHalfMoves(x);
    HighHalfMoves(x);
    EightCollected(BytesOf(x, 8));
  }

  lemma ToEndian64Bytes(host: bool, x: nat)
    ensures Memory(host, ToEndianU64(host, x), 8) == BigEndian(x, 8)
  {
    if !host {
      hide ToEndianU64, BytesOf, Collected, LittleEndian, BigEndian;
      SwappedIsCollected(x);
      CollectedBytes(x, 8);
    } else {
      hide BigEndian;
    }
  }

  lemma LowHalfMoves(x: nat)
    ensures Shl(And(x, 0xFF), 56) == Shl(ByteAt(x, 0), 56)
    ensures Shl(And(x, 0xFF00), 40) == Shl(ByteAt(x, 1), 48)
    ensures Shl(And(x, 0xFF_0000), 24) == Shl(ByteAt(x, 2), 40)
    ensures Shl(And(x, 0xFF00_0000), 8) == Shl(ByteAt(x, 3), 32)
  {
    hide And, Shr, Shl, ByteAt;
    Masks();
    MoveLeft(x, 0, 0xFF, 56);
    MoveLeft(x, 1, 0xFF00, 40);
    MoveLeft(x, 2, 0xFF_0000, 24);
    MoveLeft(x, 3, 0xFF00_0000, 8);
  }

  lemma HighHalfMoves(x: nat)
    ensures Shr(And(x, 0xFF_0000_0000), 8) == Shl(ByteAt(x, 4), 24)
    ensures Shr(And(x, 0xFF00_0000_0000), 24) == Shl(ByteAt(x, 5), 16)
    ensures Shr(And(x, 0xFF_0000_0000_0000), 40) == Shl(ByteAt(x, 6), 8)
    ensures Shr(And(x, 0xFF00_0000_0000_0000), 56) == Shl(ByteAt(x, 7), 0)
  {
    hide And, Shr, Shl, ByteAt;
    Masks();
    MoveRight(x, 4, 0xFF_0000_0000, 8);
    MoveRight(x, 5, 0xFF00_0000_0000, 24);
    MoveRight(x, 6, 0xFF_0000_0000_0000, 40);
    MoveRight(x, 7, 0xFF00_0000_0000_0000, 56);
  }
}
