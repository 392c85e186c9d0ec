/** Positional digits in any base, and the packing of bytes into digits that hex,
    base32 and base64 share (section 6 of RFC 4648). */
module Radix {
  import opened Bytes

  function Pow(base: nat, n: nat): nat { if n == 0 then 1 else base * Pow(base, n - 1) }

  /** Quotient and remainder. */
  function DivMod(v: nat, base: nat): (r: (nat, nat))
    requires base > 0
    ensures v == base * r.0 + r.1 && r.1 < base
    ensures base >= 2 && v > 0 ==> r.0 < v
  {
    if v < base then (0, v) else var (q, r) := DivMod(v - base, base); (q + 1, r)
  }

  /** The n low-order digits of v, most significant first. */
  function Digits(base: nat, v: nat, n: nat): (r: seq<nat>)
    requires base > 0
    ensures |r| == n && forall i :: 0 <= i < n ==> r[i] < base
  {
    if n == 0 then [] else var (q, d) := DivMod(v, base); Digits(base, q, n - 1) + [d]
  }

  function Value(base: nat, ds: seq<nat>): nat {
    if ds == [] then 0 else base * Value(base, ds[..|ds| - 1]) + ds[|ds| - 1]
  }

  lemma QuotientBound(q: nat, r: nat, base: nat, m: nat)
    requires base > 0 && base * q + r < base * m
    ensures q < m
  {
  }

  lemma ValueOfLast(base: nat, ds: seq<nat>, d: nat)
    ensures Value(base, ds + [d]) == base * Value(base, ds) + d
  {
    assert (ds + [d])[..|ds|] == ds;
  }

  lemma {:induction false} ValueOfDigits(base: nat, v: nat, n: nat)
    requires base > 0 && v < Pow(base, n)
    ensures Value(base, Digits(base, v, n)) == v
  {
    if n > 0 {
      var (q, d) := DivMod(v, base);
      QuotientBound(q, d, base, Pow(base, n - 1));
      ValueOfDigits(base, q, n - 1);
      ValueOfLast(base, Digits(base, q, n - 1), d);
    }
  }

  // ---- numerals without leading zeros --------------------------------------

  function Numeral(base: nat, v: nat): (r: seq<nat>)
    requires base >= 2
    ensures r != [] && forall i :: 0 <= i < |r| ==> r[i] < base
    decreases v
  {
    if v < base then [v] else var (q, d) := DivMod(v, base); Numeral(base, q) + [d]
  }

  lemma {:induction false} ValueOfNumeral(base: nat, v: nat)
    requires base >= 2
    ensures Value(base, Numeral(base, v)) == v
    decreases v
  {
    if v < base {
      ValueOfLast(base, [], v);
      assert [] + [v] == [v];
    } else {
      var (q, d) := DivMod(v, base);
      ValueOfNumeral(base, q);
      ValueOfLast(base, Numeral(base, q), d);
    }
  }

  /** A numeral cut short is a smaller number. */
  lemma {:induction false} CutNumeralIsSmaller(base: nat, v: nat, k: nat)
    requires base >= 2 && 0 < k < |Numeral(base, v)|
    ensures Value(base, Numeral(base, v)[..k]) < v
    decreases v
  {
    var (q, d) := DivMod(v, base);
    var r, rest := Numeral(base, v), Numeral(base, q);
    if k < |rest| {
      CutNumeralIsSmaller(base, q, k);
      assert r[..k] == rest[..k];
    } else {
      ValueOfNumeral(base, q);
      assert r[..k] == rest;
    }
  }

  // ---- bytes packed into digits --------------------------------------------

  /** A quantum of `bytes` bytes; r bytes, r up to that, take `digits[r]` digits, whose
      low-order `slack[r]`-fold part is zero. */
  datatype Packing = Packing(base: nat, bytes: nat, digits: seq<nat>, slack: seq<nat>)

  ghost predicate Sound(k: Packing) {
    && k.base >= 2 && k.bytes >= 1 && |k.digits| == |k.slack| == k.bytes + 1
    && (forall r :: 0 <= r <= k.bytes ==> k.slack[r] >= 1 && Pow(k.base, k.digits[r]) == Pow256(r) * k.slack[r])
    && (forall r, s :: 0 <= r < s <= k.bytes ==> k.digits[r] < k.digits[s])
  }

  predicate Shaped(k: Packing) { k.base >= 2 && k.bytes >= 1 && |k.digits| == |k.slack| == k.bytes + 1 }

  function PackChunk(k: Packing, b: seq<byte>): seq<nat>
    requires Shaped(k) && |b| <= k.bytes
  {
    Digits(k.base, FromBigEndian(b) * k.slack[|b|], k.digits[|b|])
  }

  function Pack(k: Packing, b: seq<byte>): seq<nat>
    requires Shaped(k)
  {
    if |b| <= k.bytes then PackChunk(k, b) else PackChunk(k, b[..k.bytes]) + Pack(k, b[k.bytes..])
  }

  /** How many bytes n digits stand for; none when no number of bytes takes n digits. */
  function Rank(k: Packing, n: nat, r: nat): (s: nat)
    requires Shaped(k) && r <= k.bytes
    ensures s <= k.bytes
  {
    if k.digits[r] == n then r else if r == 0 then 0 else Rank(k, n, r - 1)
  }

  function UnpackChunk(k: Packing, ds: seq<nat>): seq<byte>
    requires Shaped(k)
  {
    var r := Rank(k, |ds|, k.bytes);
    if k.slack[r] == 0 then [] else BigEndian(DivMod(Value(k.base, ds), k.slack[r]).0, r)
  }

  function Unpack(k: Packing, ds: seq<nat>): seq<byte>
    requires Shaped(k)
    decreases |ds|
  {
    var n := k.digits[k.bytes];
    if |ds| <= n || n == 0 then UnpackChunk(k, ds) else UnpackChunk(k, ds[..n]) + Unpack(k, ds[n..])
  }

  lemma {:induction false} RankBack(k: Packing, r: nat, from: nat)
    requires Sound(k) && r <= from <= k.bytes
    ensures Rank(k, k.digits[r], from) == r
  {
    if r < from {
      RankBack(k, r, from - 1);
    }
  }

  lemma {:induction false} DivModOfMultiple(v: nat, m: nat)
    requires m >= 1
    ensures DivMod(v * m, m) == (v, 0)
  {
    if v > 0 {
      DivModOfMultiple(v - 1, m);
      assert v * m == (v - 1) * m + m;
    }
  }

  lemma Scaled(v: nat, a: nat, m: nat)
    requires v < a && m >= 1
    ensures v * m < a * m && DivMod(v * m, m).0 == v
  {
    DivModOfMultiple(v, m);
    Increases(v, a, m);
  }

  lemma {:induction false} Increases(v: nat, a: nat, m: nat)
    requires v < a && m >= 1
    ensures v * m < a * m
  {
    if m > 1 {
      Increases(v, a, m - 1);
      assert v * m == v * (m - 1) + v && a * m == a * (m - 1) + a;
    }
  }

  lemma ChunkBack(k: Packing, b: seq<byte>)
    requires Sound(k) && |b| <= k.bytes
    ensures UnpackChunk(k, PackChunk(k, b)) == b
  {
    var r, v := |b|, FromBigEndian(b);
    FromBigEndianRoundTrip(b);
    RankBack(k, r, k.bytes);
    Scaled(v, Pow256(r), k.slack[r]);
    ValueOfDigits(k.base, v * k.slack[r], k.digits[r]);
  }

  lemma UnpackFirst(k: Packing, p: seq<nat>, q: seq<nat>)
    requires Shaped(k) && |p| == k.digits[k.bytes] > 0 && q != []
    ensures Unpack(k, p + q) == UnpackChunk(k, p) + Unpack(k, q)
  {
    assert (p + q)[..|p|] == p && (p + q)[|p|..] == q;
  }

  lemma SmallBack(k: Packing, b: seq<byte>)
    requires Shaped(k) && |b| <= k.bytes && k.digits[|b|] <= k.digits[k.bytes]
    requires UnpackChunk(k, PackChunk(k, b)) == b
    ensures Unpack(k, Pack(k, b)) == b
  {
  }

  lemma LargeBack(k: Packing, b: seq<byte>)
    requires Shaped(k) && |b| > k.bytes && k.digits[k.bytes] > 0 && Pack(k, b[k.bytes..]) != []
    requires UnpackChunk(k, PackChunk(k, b[..k.bytes])) == b[..k.bytes]
    requires Unpack(k, Pack(k, b[k.bytes..])) == b[k.bytes..]
    ensures Unpack(k, Pack(k, b)) == b
  {
    UnpackFirst(k, PackChunk(k, b[..k.bytes]), Pack(k, b[k.bytes..]));
  }

  lemma DigitsAscend(k: Packing, r: nat)
    requires Sound(k) && r <= k.bytes
    ensures k.digits[r] <= k.digits[k.bytes] && k.digits[k.bytes] > 0 && (r > 0 ==> k.digits[r] > 0)
  {
  }

  /** Unpacking undoes packing. */
  lemma {:induction false} PackBack(k: Packing, b: seq<byte>)
    requires Sound(k)
    ensures Unpack(k, Pack(k, b)) == b
  {
    if |b| <= k.bytes {
      DigitsAscend(k, |b|);
      ChunkBack(k, b);
      SmallBack(k, b);
    } else {
      DigitsAscend(k, k.bytes);
      ChunkBack(k, b[..k.bytes]);
      PackBack(k, b[k.bytes..]);
      PackNonEmpty(k, b[k.bytes..]);
      LargeBack(k, b);
    }
  }

  lemma PackNonEmpty(k: Packing, b: seq<byte>)
    requires Sound(k) && b != []
    ensures |Pack(k, b)| > 0
  {
    DigitsAscend(k, if |b| <= k.bytes then |b| else k.bytes);
  }

  lemma {:induction false} PackedDigits(k: Packing, b: seq<byte>)
    requires Shaped(k)
    ensures forall i :: 0 <= i < |Pack(k, b)| ==> Pack(k, b)[i] < k.base
  {
    if |b| > k.bytes {
      PackedDigits(k, b[k.bytes..]);
    }
  }

  // ---- the three packings --------------------------------------------------

  const HEX := Packing(16, 1, [0, 2], [1, 1])
  const BASE32 := Packing(32, 5, [0, 2, 4, 5, 7, 8], [1, 4, 16, 2, 8, 1])
  const BASE64 := Packing(64, 3, [0, 2, 3, 4], [1, 16, 4, 1])

  lemma Powers32()
    ensures Pow(32, 0) == 1 && Pow(32, 2) == 0x400 && Pow(32, 4) == 0x10_0000 && Pow(32, 5) == 0x200_0000
    ensures Pow(32, 7) == 0x8_0000_0000 && Pow(32, 8) == 0x100_0000_0000
  {
    assert Pow(32, 1) == 32 * Pow(32, 0) && Pow(32, 2) == 32 * Pow(32, 1) && Pow(32, 3) == 32 * Pow(32, 2);
    assert Pow(32, 4) == 32 * Pow(32, 3) && Pow(32, 5) == 32 * Pow(32, 4) && Pow(32, 6) == 32 * Pow(32, 5);
    assert Pow(32, 7) == 32 * Pow(32, 6) && Pow(32, 8) == 32 * Pow(32, 7);
  }

  lemma Powers64()
    ensures Pow(64, 0) == 1 && Pow(64, 2) == 0x1000 && Pow(64, 3) == 0x4_0000 && Pow(64, 4) == 0x100_0000
  {
    assert Pow(64, 1) == 64 * Pow(64, 0) && Pow(64, 2) == 64 * Pow(64, 1);
    assert Pow(64, 3) == 64 * Pow(64, 2) && Pow(64, 4) == 64 * Pow(64, 3);
  }

  lemma ByteValues()
    ensures Pow256(0) == 1 && Pow256(1) == 0x100 && Pow256(2) == 0x1_0000 && Pow256(3) == 0x100_0000
    ensures Pow256(4) == 0x1_0000_0000 && Pow256(5) == 0x100_0000_0000
  {
  }

  lemma HexSound()
    ensures Sound(HEX)
  {
    assert Pow(16, 1) == 16 * Pow(16, 0) && Pow(16, 2) == 16 * Pow(16, 1);
    ByteValues();
  }

  lemma Base32Sound()
    ensures Sound(BASE32)
  {
    Powers32();
    ByteValues();
  }

  lemma Base64Sound()
    ensures Sound(BASE64)
  {
    Powers64();
    ByteValues();
  }
}
