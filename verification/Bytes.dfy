/** Bytes, 32-bit integers and exclusive or, as the transport of `client/sml` uses them. */
module Bytes {

  /** An unsigned 8-bit value. */
  type byte = x: int | 0 <= x < 0x100

  /** An unsigned 32-bit value; arithmetic on it is written with an explicit `% TWO32`. */
  type u32 = x: int | 0 <= x < TWO32

  const TWO32 := 0x1_0000_0000

  function Min(a: int, b: int): int {
    if a <= b then a else b
  }

  function Max(a: int, b: int): int {
    if a >= b then a else b
  }

  function Pow2(n: nat): (r: nat)
    ensures r > 0
  {
    if n == 0 then 1 else 2 * Pow2(n - 1)
  }

  /** Exclusive or of the `n` low bits of `a` and `b`. */
  function XorBits(a: nat, b: nat, n: nat): (r: nat)
    ensures r < Pow2(n)
  {
    if n == 0 then 0 else (a + b) % 2 + 2 * XorBits(a / 2, b / 2, n - 1)
  }

  lemma {:induction false} XorBitsTwice(a: nat, b: nat, n: nat)
    requires a < Pow2(n)
    ensures XorBits(XorBits(a, b, n), b, n) == a
  {
    if n > 0 {
      var rest := XorBits(a / 2, b / 2, n - 1);
      XorBitsTwice(a / 2, b / 2, n - 1);
      LastBit(a, b, rest);
      assert XorBits(a, b, n) == (a + b) % 2 + 2 * rest;
      assert XorBits((a + b) % 2 + 2 * rest, b, n) == a % 2 + 2 * XorBits(rest, b / 2, n - 1);
    }
  }

  lemma LastBit(a: nat, b: nat, rest: nat)
    ensures ((a + b) % 2 + 2 * rest) / 2 == rest
    ensures ((a + b) % 2 + 2 * rest + b) % 2 == a % 2
  {
    var x := (a + b) % 2;
    assert a + b == 2 * ((a + b) / 2) + x;
    assert x + 2 * rest + b == a % 2 + 2 * (rest + b + a / 2 - (a + b) / 2);
  }

  // ---------- bits ----------

  predicate Bit(x: nat, j: nat) {
    x / Pow2(j) % 2 == 1
  }

  lemma HalfFirst(x: nat, m: nat)
    requires m > 0
    ensures x / (2 * m) == x / 2 / m
  {
    var q, r := x / 2 / m, x / 2 % m;
    assert x / 2 == m * q + r;
    assert x == 2 * m * q + (2 * r + x % 2);
    QuotientUnique(x, 2 * m, q, 2 * r + x % 2);
  }

  lemma MultipleAtLeast(d: int, p: int)
    requires p > 0
    ensures d >= 1 ==> d * p >= p
    ensures d <= -1 ==> d * p <= -p
  {
    if d >= 1 {
      assert (d - 1) * p >= 0;
    } else if d <= -1 {
      assert (-d - 1) * p >= 0;
    }
  }

  lemma QuotientUnique(x: nat, m: nat, q: nat, r: nat)
    requires r < m && x == m * q + r
    ensures x / m == q
  {
    var q', r' := x / m, x % m;
    assert x == m * q' + r';
    assert (q' - q) * m == r - r' by {
      assert (q' - q) * m == q' * m - q * m;
    }
    MultipleAtLeast(q' - q, m);
  }

  /** Bit `j + 1` of a number is bit `j` of its half. */
  lemma BitOfHalf(x: nat, j: nat)
    ensures Bit(x, 0) <==> x % 2 == 1
    ensures Bit(x, j + 1) <==> Bit(x / 2, j)
  {
    assert Pow2(0) == 1 && x / 1 == x;
    HalfFirst(x, Pow2(j));
  }

  lemma {:induction false} XorBitsAt(a: nat, b: nat, n: nat, j: nat)
    requires j < n
    ensures Bit(XorBits(a, b, n), j) <==> Bit(a, j) != Bit(b, j)
  {
    hide Bit;
    var r := XorBits(a, b, n);
    var rest := XorBits(a / 2, b / 2, n - 1);
    LastBit(a, b, rest);
    if j == 0 {
      BitOfHalf(a, 0);
      BitOfHalf(b, 0);
      BitOfHalf(r, 0);
    } else {
      BitOfHalf(a, j - 1);
      BitOfHalf(b, j - 1);
      BitOfHalf(r, j - 1);
      XorBitsAt(a / 2, b / 2, n - 1, j - 1);
    }
  }

  /** Bytes with the same eight bits are the same. */
  lemma {:induction false} BitsDecide(a: nat, b: nat, n: nat)
    requires a < Pow2(n) && b < Pow2(n) && forall j :: 0 <= j < n ==> (Bit(a, j) <==> Bit(b, j))
    ensures a == b
  {
    hide Bit;
    if n > 0 {
      BitOfHalf(a, 0);
      BitOfHalf(b, 0);
      forall j | 0 <= j < n - 1
        ensures Bit(a / 2, j) <==> Bit(b / 2, j)
      {
        BitOfHalf(a, j);
        BitOfHalf(b, j);
        assert Bit(a, j + 1) <==> Bit(b, j + 1);
      }
      BitsDecide(a / 2, b / 2, n - 1);
    }
  }

  lemma Pow2Of8()
    ensures Pow2(8) == 0x100
  {
    assert Pow2(4) == 16;
  }

  function Xor(a: byte, b: byte): byte {
    Pow2Of8();
    XorBits(a, b, 8)
  }

  /** Masking twice with the same byte gives the first byte back. */
  lemma XorTwice(a: byte, b: byte)
    ensures Xor(Xor(a, b), b) == a
  {
    Pow2Of8();
    XorBitsTwice(a, b, 8);
  }

  /** Bytewise exclusive or of `data` with the first bytes of `mask`. */
  function XorSeq(data: seq<byte>, mask: seq<byte>): (r: seq<byte>)
    requires |data| <= |mask|
    ensures |r| == |data|
  {
    seq(|data|, i requires 0 <= i < |data| => Xor(data[i], mask[i]))
  }

  /** Each bit is set exactly if it is set in one of the two. */
  lemma XorSeqBits(data: seq<byte>, mask: seq<byte>, i: nat, j: nat)
    requires i < |data| <= |mask| && j < 8
    ensures Bit(XorSeq(data, mask)[i], j) <==> Bit(data[i], j) != Bit(mask[i], j)
  {
    XorBitsAt(data[i], mask[i], 8, j);
  }

  lemma XorSeqTwice(data: seq<byte>, mask: seq<byte>)
    requires |data| <= |mask|
    ensures XorSeq(XorSeq(data, mask), mask) == data
  {
    forall i | 0 <= i < |data|
      ensures XorSeq(XorSeq(data, mask), mask)[i] == data[i]
    {
      XorTwice(data[i], mask[i]);
    }
  }

  /** The order in which the machine stores the bytes of an integer. */
  datatype ByteOrder = LittleEndian | BigEndian

  function U32Bytes(o: ByteOrder, n: u32): (r: seq<byte>)
    ensures |r| == 4
  {
    var low := [n % 0x100, n / 0x100 % 0x100, n / 0x100 / 0x100 % 0x100, n / 0x100 / 0x100 / 0x100];
    match o
    case LittleEndian => low
    case BigEndian => [low[3], low[2], low[1], low[0]]
  }

  function Positional(b0: int, b1: int, b2: int, b3: int): int {
    b0 + 0x100 * (b1 + 0x100 * (b2 + 0x100 * b3))
  }

  function BytesU32(o: ByteOrder, s: seq<byte>): u32
    requires |s| == 4
  {
    match o
    case LittleEndian => Positional(s[0], s[1], s[2], s[3])
    case BigEndian => Positional(s[3], s[2], s[1], s[0])
  }

  /** The byte of weight 256 to the `k`. */
  lemma U32ByteAt(o: ByteOrder, n: u32, k: nat)
    requires k < 4
    ensures U32Bytes(o, n)[if o == LittleEndian then k else 3 - k] == n / Pow2(8 * k) % 0x100
  {
    BytePowers();
    var n1 := n / 0x100;
    var n2 := n1 / 0x100;
    assert n2 == n / 0x1_0000 && n2 / 0x100 == n / 0x100_0000 < 0x100;
    assert n / 1 == n;
    hide Pow2;
    if k == 0 {
    } else if k == 1 {
    } else if k == 2 {
    } else {
      assert k == 3;
    }
  }

  lemma BytePowers()
    ensures Pow2(0) == 1 && Pow2(8) == 0x100 && Pow2(16) == 0x1_0000 && Pow2(24) == 0x100_0000
  {
    assert Pow2(4) == 16 && Pow2(12) == 0x1000 && Pow2(20) == 0x10_0000;
  }

  lemma U32RoundTrip(o: ByteOrder, n: u32)
    ensures BytesU32(o, U32Bytes(o, n)) == n
  {
    var n1 := n / 0x100;
    var n2 := n1 / 0x100;
    assert n == n % 0x100 + 0x100 * n1;
    assert n1 == n1 % 0x100 + 0x100 * n2;
    assert n2 == n2 % 0x100 + 0x100 * (n2 / 0x100);
  }

  lemma Digit(low: byte, high: int)
    ensures (low + 0x100 * high) % 0x100 == low && (low + 0x100 * high) / 0x100 == high
  {
  }

  lemma BytesRoundTrip(o: ByteOrder, s: seq<byte>)
    requires |s| == 4
    ensures U32Bytes(o, BytesU32(o, s)) == s
  {
    var low := if o == LittleEndian then s else [s[3], s[2], s[1], s[0]];
    var b1: int, b2: int, b3: int := low[1], low[2], low[3];
    var n2 := b2 + 0x100 * b3;
    var n1 := b1 + 0x100 * n2;
    Digit(low[0], n1);
    Digit(b1, n2);
    Digit(b2, b3);
    var b0: int := low[0];
    assert BytesU32(o, s) == b0 + 0x100 * n1;
  }
}
