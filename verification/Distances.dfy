/** The XOR distance between identifiers, read as a 160-bit big-endian number
    (internal/server/registry.go). */
module Distances {
  import opened Ids

  /** Bitwise exclusive or. */
  function Xor(a: nat, b: nat): nat
    decreases a + b
  {
    if a == 0 && b == 0 then 0
    else 2 * Xor(a / 2, b / 2) + (if a % 2 == b % 2 then 0 else 1)
  }

  lemma {:induction false} XorBelow(a: nat, b: nat, limit: nat)
    requires a < limit && b < limit
    requires exists k: nat :: limit == Pow2(k)
    ensures Xor(a, b) < limit
    decreases a + b
  {
    if a != 0 || b != 0 {
      var k: nat :| limit == Pow2(k);
      assert limit == 2 * Pow2(k - 1);
      XorBelow(a / 2, b / 2, Pow2(k - 1));
    }
  }

  function Pow2(k: nat): nat {
    if k == 0 then 1 else 2 * Pow2(k - 1)
  }

  function XorByte(a: byte, b: byte): byte {
    assert Pow2(8) == 256 by {
      assert Pow2(4) == 16;
    }
    XorBelow(a as nat, b as nat, 256);
    Xor(a as nat, b as nat) as byte
  }

  function XorBytes(a: seq<byte>, b: seq<byte>): (r: seq<byte>)
    requires |a| == |b|
    ensures |r| == |a|
  {
    seq(|a|, i requires 0 <= i < |a| => XorByte(a[i], b[i]))
  }

  function BigEndian(bytes: seq<byte>): nat {
    if bytes == [] then 0 else 256 * BigEndian(bytes[..|bytes| - 1]) + bytes[|bytes| - 1] as nat
  }

  function Distance(a: ScalegraphId, b: ScalegraphId): nat {
    BigEndian(XorBytes(a.bytes, b.bytes))
  }

  // A metric.

  lemma {:induction false} XorMetric(a: nat, b: nat, c: nat)
    ensures Xor(a, b) == 0 <==> a == b
    ensures Xor(a, b) == Xor(b, a)
    ensures Xor(a, c) <= Xor(a, b) + Xor(b, c)
    ensures Xor(a, b) == Xor(a, c) ==> b == c
    decreases a + b + c
  {
    if a != 0 || b != 0 || c != 0 {
      XorMetric(a / 2, b / 2, c / 2);
    }
  }

  lemma {:induction false} BytesMetric(a: seq<byte>, b: seq<byte>, c: seq<byte>)
    requires |a| == |b| == |c|
    ensures BigEndian(XorBytes(a, b)) == 0 <==> a == b
    ensures BigEndian(XorBytes(a, b)) == BigEndian(XorBytes(b, a))
    ensures BigEndian(XorBytes(a, c)) <= BigEndian(XorBytes(a, b)) + BigEndian(XorBytes(b, c))
  {
    if a != [] {
      var n := |a| - 1;
      BytesMetric(a[..n], b[..n], c[..n]);
      XorMetric(a[n] as nat, b[n] as nat, c[n] as nat);
      LastByte(a, b);
      LastByte(b, a);
      LastByte(a, c);
      LastByte(b, c);
      assert a == a[..n] + [a[n]] && b == b[..n] + [b[n]];
    }
  }

  lemma {:induction false} BytesInjective(a: seq<byte>, b: seq<byte>, c: seq<byte>)
    requires |a| == |b| == |c|
    requires BigEndian(XorBytes(a, b)) == BigEndian(XorBytes(a, c))
    ensures b == c
  {
    if a != [] {
      var n := |a| - 1;
      LastByte(a, b);
      LastByte(a, c);
      XorMetric(a[n] as nat, b[n] as nat, c[n] as nat);
      BytesInjective(a[..n], b[..n], c[..n]);
      assert b == b[..n] + [b[n]] && c == c[..n] + [c[n]];
    }
  }

  lemma LastByte(a: seq<byte>, b: seq<byte>)
    requires |a| == |b| && a != []
    ensures BigEndian(XorBytes(a, b)) ==
            256 * BigEndian(XorBytes(a[..|a| - 1], b[..|a| - 1])) + Xor(a[|a| - 1] as nat, b[|a| - 1] as nat)
  {
    assert XorBytes(a, b)[..|a| - 1] == XorBytes(a[..|a| - 1], b[..|a| - 1]);
  }

  /** Zero only from itself, symmetric, and the triangle inequality. */
  lemma DistanceIsMetric(a: ScalegraphId, b: ScalegraphId, c: ScalegraphId)
    ensures Distance(a, b) == 0 <==> a == b
    ensures Distance(a, b) == Distance(b, a)
    ensures Distance(a, c) <= Distance(a, b) + Distance(b, c)
  {
    BytesMetric(a.bytes, b.bytes, c.bytes);
  }

  /** From any one identifier no two others are equally far. */
  lemma DistanceInjective(target: ScalegraphId, a: ScalegraphId, b: ScalegraphId)
    ensures Distance(target, a) == Distance(target, b) <==> a == b
  {
    if Distance(target, a) == Distance(target, b) { BytesInjective(target.bytes, a.bytes, b.bytes); }
  }

  /** The loop: exclusive-or byte by byte into a buffer, then read as a big-endian number. */
  method XorDistance(a: ScalegraphId, b: ScalegraphId) returns (distance: nat)
    ensures distance == Distance(a, b)
  {
    var xor := new byte[20];
    for i := 0 to 20
      invariant xor[..i] == XorBytes(a.bytes, b.bytes)[..i]
    {
      xor[i] := XorByte(a.bytes[i], b.bytes[i]);
    }
    assert xor[..] == xor[..20] && XorBytes(a.bytes, b.bytes)[..20] == XorBytes(a.bytes, b.bytes);
    distance := SetBytes(xor);
  }

  method SetBytes(buffer: array<byte>) returns (n: nat)
    ensures n == BigEndian(buffer[..])
  {
    n := 0;
    for i := 0 to buffer.Length
      invariant n == BigEndian(buffer[..i])
    {
      assert buffer[..i + 1][..i] == buffer[..i];
      n := 256 * n + buffer[i] as nat;
    }
    assert buffer[..buffer.Length] == buffer[..];
  }
}
