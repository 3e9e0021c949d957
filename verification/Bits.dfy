/** Exclusive or, distance and their order, read off the bits. */
module Bits {
  import opened Ids
  import opened Distances

  /** Bit k of n, the lowest being bit 0. */
  predicate Bit(n: nat, k: nat) {
    PowPositive(k);
    n / Pow2(k) % 2 == 1
  }

  lemma {:induction false} PowPositive(k: nat)
    ensures Pow2(k) > 0
  {
    if k > 0 { PowPositive(k - 1); }
  }

  lemma HalfOf(n: nat, p: nat)
    requires p > 0
    ensures n / (2 * p) == n / 2 / p
  {
    var q := n / 2 / p;
    assert n / 2 == q * p + n / 2 % p;
    assert n == (2 * p) * q + (2 * (n / 2 % p) + n % 2);
    DivisionIs(n, 2 * p, q, 2 * (n / 2 % p) + n % 2);
  }

  lemma DivisionIs(n: nat, d: nat, q: nat, r: nat)
    requires r < d && n == d * q + r
    ensures n / d == q
  {
    var e: int := n / d - q;
    assert n == d * (n / d) + n % d;
    assert d * e == d * (n / d) - d * q;
    SmallMultiple(d, e);
  }

  lemma SmallMultiple(d: int, e: int)
    requires -d < d * e < d
    ensures e == 0
  {
    assert d * -e == -(d * e);
    if e >= 1 {
      AtLeastOnce(d, e);
    } else if e <= -1 {
      AtLeastOnce(d, -e);
    }
  }

  lemma AtLeastOnce(d: int, e: int)
    requires d > 0 && e >= 1
    ensures d * e >= d
  {
    assert d * e == d + d * (e - 1);
  }

  lemma BitOfHalf(n: nat, k: nat)
    ensures Bit(n, k + 1) == Bit(n / 2, k)
    ensures Bit(n, 0) <==> n % 2 == 1
  {
    PowPositive(k);
    HalfOf(n, Pow2(k));
  }

  /** A bit of the exclusive or is set exactly where the bits differ. */
  lemma {:induction false} XorBit(a: nat, b: nat, k: nat)
    ensures Bit(Xor(a, b), k) <==> Bit(a, k) != Bit(b, k)
    decreases k
  {
    BitOfHalf(Xor(a, b), if k > 0 then k - 1 else 0);
    BitOfHalf(a, if k > 0 then k - 1 else 0);
    BitOfHalf(b, if k > 0 then k - 1 else 0);
    HalvesOfXor(a, b);
    if k > 0 { XorBit(a / 2, b / 2, k - 1); }
  }

  lemma HalvesOfXor(a: nat, b: nat)
    ensures Xor(a, b) / 2 == Xor(a / 2, b / 2) && Xor(a, b) % 2 == if a % 2 == b % 2 then 0 else 1
  {
    if a == 0 && b == 0 { assert Xor(0, 0) == 0; }
  }
  /** The exclusive or is the one number with those bits. */
  lemma {:induction false} SameBits(m: nat, n: nat)
    requires forall k: nat :: Bit(m, k) == Bit(n, k)
    ensures m == n
    decreases m + n
  {
    if m != 0 || n != 0 {
      BitOfHalf(m, 0);
      BitOfHalf(n, 0);
      forall k: nat
        ensures Bit(m / 2, k) == Bit(n / 2, k)
      {
        BitOfHalf(m, k);
        BitOfHalf(n, k);
        assert Bit(m, k + 1) == Bit(n, k + 1);
      }
      assert Bit(m, 0) == Bit(n, 0);
      SameBits(m / 2, n / 2);
    }
  }

  /** k is the highest bit in which m and n differ. */
  ghost predicate DifferFirst(m: nat, n: nat, k: nat) {
    Bit(m, k) != Bit(n, k) && forall j: nat | j > k :: Bit(m, j) == Bit(n, j)
  }

  lemma {:induction false} FirstDifference(m: nat, n: nat) returns (k: nat)
    requires m != n
    ensures DifferFirst(m, n, k)
    ensures m < n <==> Bit(n, k)
    decreases m + n
  {
    if m / 2 == n / 2 {
      k := 0;
      BitOfHalf(m, 0);
      BitOfHalf(n, 0);
      forall j: nat | j > 0
        ensures Bit(m, j) == Bit(n, j)
      {
        BitOfHalf(m, j - 1);
        BitOfHalf(n, j - 1);
      }
    } else {
      var h := FirstDifference(m / 2, n / 2);
      k := h + 1;
      BitOfHalf(m, h);
      BitOfHalf(n, h);
      forall j: nat | j > k
        ensures Bit(m, j) == Bit(n, j)
      {
        BitOfHalf(m, j - 1);
        BitOfHalf(n, j - 1);
      }
    }
  }

  // Identifiers as numbers.

  /** The identifier read as a 160-bit number, most significant byte first. */
  function Number(id: ScalegraphId): nat {
    BigEndian(id.bytes)
  }

  lemma {:induction false} LowBits(m: nat, x: nat, width: nat, k: nat)
    requires x < Pow2(width)
    ensures Bit(Pow2(width) * m + x, k) == if k < width then Bit(x, k) else Bit(m, k - width)
    decreases width
  {
    var n := Pow2(width) * m + x;
    if width == 0 {
      assert Pow2(0) == 1;
    } else {
      var half := Pow2(width - 1);
      assert Pow2(width) * m == 2 * (half * m);
      assert n / 2 == half * m + x / 2 && n % 2 == x % 2;
      BitOfHalf(n, if k > 0 then k - 1 else 0);
      BitOfHalf(x, if k > 0 then k - 1 else 0);
      if k > 0 { LowBits(m, x / 2, width - 1, k - 1); }
    }
  }

  lemma WithByte(m: nat, x: byte, k: nat)
    ensures Bit(256 * m + x as nat, k) == if k < 8 then Bit(x as nat, k) else Bit(m, k - 8)
  {
    assert Pow2(8) == 256 by { assert Pow2(4) == 16; }
    LowBits(m, x as nat, 8, k);
  }

  /** Bit j of byte i stands in the number where a big-endian reading puts it. */
  lemma {:induction false} NumberBits(bytes: seq<byte>, i: nat, j: nat)
    requires i < |bytes| && j < 8
    ensures Bit(BigEndian(bytes), 8 * (|bytes| - 1 - i) + j) == Bit(bytes[i] as nat, j)
  {
    var last := |bytes| - 1;
    WithByte(BigEndian(bytes[..last]), bytes[last], 8 * (last - i) + j);
    if i < last { NumberBits(bytes[..last], i, j); }
  }

  lemma {:induction false} DistanceBits(a: seq<byte>, b: seq<byte>, k: nat)
    requires |a| == |b|
    ensures Bit(BigEndian(XorBytes(a, b)), k) <==> Bit(BigEndian(a), k) != Bit(BigEndian(b), k)
  {
    if a == [] {
      XorBit(0, 0, k);
    } else {
      var last := |a| - 1;
      LastByte(a, b);
      WithByte(BigEndian(a[..last]), a[last], k);
      WithByte(BigEndian(b[..last]), b[last], k);
      WithByte(BigEndian(XorBytes(a[..last], b[..last])), XorByte(a[last], b[last]), k);
      if k < 8 {
        XorBit(a[last] as nat, b[last] as nat, k);
      } else {
        DistanceBits(a[..last], b[..last], k - 8);
      }
    }
  }

  /** A bit of the distance is set exactly where the identifiers differ. */
  lemma DistanceBit(a: ScalegraphId, b: ScalegraphId, k: nat)
    ensures Bit(Distance(a, b), k) <==> Bit(Number(a), k) != Bit(Number(b), k)
  {
    DistanceBits(a.bytes, b.bytes, k);
  }

  /** Which of two identifiers is nearer is decided at the first bit in which they differ: the nearer
      is the one that has the target's bit there. */
  lemma NearerExactly(target: ScalegraphId, a: ScalegraphId, b: ScalegraphId)
    ensures Distance(target, a) < Distance(target, b) <==>
            exists k: nat :: DifferFirst(Number(a), Number(b), k) && Bit(Number(target), k) == Bit(Number(a), k)
  {
    if Distance(target, a) != Distance(target, b) {
      var k := FirstDifference(Distance(target, a), Distance(target, b));
      SameDifference(target, a, b, k);
      DistanceBit(target, a, k);
      DistanceBit(target, b, k);
      forall h: nat | DifferFirst(Number(a), Number(b), h)
        ensures h == k
      {
        assert DifferFirst(Number(a), Number(b), k);
      }
    } else {
      DistanceInjective(target, a, b);
    }
  }

  lemma SameDifference(target: ScalegraphId, a: ScalegraphId, b: ScalegraphId, k: nat)
    requires DifferFirst(Distance(target, a), Distance(target, b), k)
    ensures DifferFirst(Number(a), Number(b), k)
  {
    DistanceBit(target, a, k);
    DistanceBit(target, b, k);
    forall j: nat | j > k
      ensures Bit(Number(a), j) == Bit(Number(b), j)
    {
      DistanceBit(target, a, j);
      DistanceBit(target, b, j);
    }
  }
}
