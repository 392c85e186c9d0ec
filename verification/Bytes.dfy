/** Bytes and big-endian integers, as every on-disk and on-wire format uses them. */
module Bytes {

  newtype byte = x: int | 0 <= x < 256

  const U16: nat := 0x1_0000
  const U32: nat := 0x1_0000_0000
  const U64: nat := 0x1_0000_0000_0000_0000

  /** 256 to the power n. */
  function Pow256(n: nat): (r: nat)
    ensures r > 0
  {
    if n == 0 then 1 else 256 * Pow256(n - 1)
  }

  lemma Pow256Values()
    ensures Pow256(1) == 256 && Pow256(2) == U16 && Pow256(4) == U32 && Pow256(8) == U64
  {
    assert Pow256(2) == 256 * Pow256(1) && Pow256(3) == 256 * Pow256(2) && Pow256(4) == 256 * Pow256(3);
    assert Pow256(5) == 256 * Pow256(4) && Pow256(6) == 256 * Pow256(5);
    assert Pow256(7) == 256 * Pow256(6) && Pow256(8) == 256 * Pow256(7);
  }

  /** The n low-order bytes of v, most significant first. */
  function BigEndian(v: nat, n: nat): (r: seq<byte>)
    ensures |r| == n
  {
    if n == 0 then [] else BigEndian(v / 256, n - 1) + [(v % 256) as byte]
  }

  function FromBigEndian(b: seq<byte>): nat {
    if b == [] then 0 else 256 * FromBigEndian(b[..|b| - 1]) + b[|b| - 1] as nat
  }

  /** Decoding an encoded integer gives it back modulo its width. */
  lemma {:induction false} BigEndianRoundTrip(v: nat, n: nat)
    ensures FromBigEndian(BigEndian(v, n)) == v % Pow256(n)
  {
    if n > 0 {
      var r := BigEndian(v, n);
      assert r[..|r| - 1] == BigEndian(v / 256, n - 1);
      BigEndianRoundTrip(v / 256, n - 1);
      ModStep(v, Pow256(n - 1));
    }
  }

  lemma ModStep(v: nat, m: nat)
    requires m > 0
    ensures v % (256 * m) == 256 * ((v / 256) % m) + v % 256
  {
    var q := (v / 256) / m;
    var r := 256 * ((v / 256) % m) + v % 256;
    assert v / 256 == q * m + (v / 256) % m;
    assert v == 256 * (v / 256) + v % 256;
    assert v == q * (256 * m) + r by {
      assert 256 * (q * m) == q * (256 * m);
    }
    ModUnique(v, 256 * m, q, r);
  }

  lemma ModUnique(v: nat, m: nat, q: nat, r: nat)
    requires m > 0 && v == q * m + r && r < m
    ensures v % m == r
  {
    var d := v / m - q;
    assert v % m - r == -(d * m) by {
      assert v == (v / m) * m + v % m;
      assert (v / m) * m - q * m == d * m;
    }
    if d != 0 {
      SignedMultiple(d, m);
    }
  }

  lemma SignedMultiple(d: int, m: nat)
    requires d != 0
    ensures d * m >= m || d * m <= -(m as int)
  {
    if d >= 1 {
      assert d * m >= 1 * m;
    } else {
      assert (-d) * m >= 1 * m;
    }
  }

  /** The most significant byte comes first. */
  lemma {:induction false} MostSignificantFirst(v: nat, n: nat, i: nat)
    requires i < n
    ensures BigEndian(v, n)[i] as nat == (v / Pow256(n - 1 - i)) % 256
  {
    if i < n - 1 {
      MostSignificantFirst(v / 256, n - 1, i);
      DivideTwice(v, Pow256(n - 2 - i));
    }
  }

  lemma DivideTwice(v: nat, m: nat)
    requires m > 0
    ensures (v / 256) / m == v / (256 * m)
  {
    var q, r := (v / 256) / m, (v / 256) % m;
    assert v / 256 == q * m + r;
    assert v == 256 * (q * m + r) + v % 256;
    assert v == q * (256 * m) + (256 * r + v % 256) by {
      assert 256 * (q * m) == q * (256 * m);
    }
    ModUnique(v, 256 * m, q, 256 * r + v % 256);
    Quotient(v, 256 * m, q, 256 * r + v % 256);
  }

  lemma Quotient(v: nat, m: nat, q: nat, r: nat)
    requires m > 0 && v == q * m + r && r < m
    ensures v / m == q
  {
    ModUnique(v, m, q, r);
    var d := v / m - q;
    assert d * m == 0 by {
      assert v == (v / m) * m + v % m;
      assert (v / m) * m - q * m == d * m;
    }
    if d != 0 {
      SignedMultiple(d, m);
    }
  }

  /** An integer that fits its width comes back whole. */
  lemma BigEndianBack(v: nat, n: nat)
    requires v < Pow256(n)
    ensures FromBigEndian(BigEndian(v, n)) == v
  {
    BigEndianRoundTrip(v, n);
    ModUnique(v, Pow256(n), 0, v);
  }

  /** Encoding a decoded string of bytes gives the bytes back. */
  lemma {:induction false} FromBigEndianRoundTrip(b: seq<byte>)
    ensures FromBigEndian(b) < Pow256(|b|)
    ensures BigEndian(FromBigEndian(b), |b|) == b
  {
    if b != [] {
      var h := b[..|b| - 1];
      FromBigEndianRoundTrip(h);
      assert FromBigEndian(b) / 256 == FromBigEndian(h);
      assert FromBigEndian(b) % 256 == b[|b| - 1] as nat;
      assert b == h + [b[|b| - 1]];
    }
  }

  lemma Associative(a: seq<byte>, b: seq<byte>, c: seq<byte>)
    ensures (a + b) + c == a + (b + c)
  {
  }

  lemma Associative4(a: seq<byte>, b: seq<byte>, c: seq<byte>, d: seq<byte>)
    ensures ((a + b) + c) + d == a + (b + (c + d))
  {
    Associative(a, b, c);
    Associative(a, b + c, d);
    Associative(b, c, d);
  }
}
