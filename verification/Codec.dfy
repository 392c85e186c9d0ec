/** The append-only writer and the bounds-checked reader of frame bodies
    (internal/wire/codec.go).  The reader latches its first error: every later read
    is a no-op that returns a zero value. */
module Codec {
  import opened Bytes

  // ---- what a read does, as a function of the buffer and the cursor --------

  datatype Cursor = Cursor(i: nat, ok: bool)

  function GetUint(b: seq<byte>, c: Cursor, n: nat): (r: (nat, Cursor))
    ensures c.i <= |b| ==> r.1.i <= |b|
    ensures r.1.ok ==> r.1.i == c.i + n && r.0 < Pow256(n)
    ensures !r.1.ok ==> r == (0, c.(ok := false))
  {
    if !c.ok || c.i + n > |b| then (0, c.(ok := false))
    else
      FromBigEndianRoundTrip(b[c.i..c.i + n]);
      (FromBigEndian(b[c.i..c.i + n]), Cursor(c.i + n, true))
  }

  function GetRaw(b: seq<byte>, c: Cursor, n: nat, max: nat): (r: (seq<byte>, Cursor))
    ensures c.i <= |b| ==> r.1.i <= |b|
    ensures r.1.ok ==> r.1.i == c.i + n && |r.0| == n <= max
    ensures !r.1.ok ==> r == ([], c.(ok := false))
  {
    if !c.ok || n > max || c.i + n > |b| then ([], c.(ok := false))
    else (b[c.i..c.i + n], Cursor(c.i + n, true))
  }

  /** A length of `width` bytes and that many bytes. */
  function GetBytes(b: seq<byte>, c: Cursor, width: nat, max: nat): (r: (seq<byte>, Cursor))
    ensures c.i <= |b| ==> r.1.i <= |b|
    ensures r.1.ok ==> |r.0| <= max
  {
    var (n, c1) := GetUint(b, c, width);
    GetRaw(b, c1, n, max)
  }

  /** A 64-bit two's complement integer. */
  function GetInt64(b: seq<byte>, c: Cursor): (r: (int, Cursor))
    ensures c.i <= |b| ==> r.1.i <= |b|
    ensures IsInt64(r.0)
  {
    var (n, c1) := GetUint(b, c, 8);
    Pow256Values();
    (if n < U64 / 2 then n else n - U64, c1)
  }

  predicate IsInt64(v: int) { -(U64 / 2) <= v < U64 / 2 }

  function PutInt64(v: int): (r: seq<byte>)
    ensures |r| == 8
  {
    BigEndian(v % U64, 8)
  }

  function PutBytes(p: seq<byte>, width: nat): (r: seq<byte>)
    ensures |r| == width + |p|
  {
    BigEndian(|p|, width) + p
  }

  // ---- reading back what was written ---------------------------------------

  /** The buffer holds e at position i. */
  predicate At(b: seq<byte>, i: nat, e: seq<byte>) { i + |e| <= |b| && b[i..i + |e|] == e }

  /** The bytes between two cursors are e. */
  predicate Covers(b: seq<byte>, from: Cursor, to: Cursor, e: seq<byte>) {
    from.ok && from.i <= to.i <= |b| && b[from.i..to.i] == e
  }

  lemma AtSplit(b: seq<byte>, i: nat, e: seq<byte>, f: seq<byte>)
    requires At(b, i, e + f)
    ensures At(b, i, e) && At(b, i + |e|, f)
  {
    var s := b[i..i + |e + f|];
    assert s[..|e|] == e && s[|e|..] == f;
    assert b[i..i + |e|] == s[..|e|];
    assert b[i + |e|..i + |e| + |f|] == s[|e|..];
  }

  lemma AtSplit3(b: seq<byte>, i: nat, e: seq<byte>, f: seq<byte>, g: seq<byte>)
    requires At(b, i, e + (f + g))
    ensures At(b, i, e) && At(b, i + |e|, f) && At(b, i + |e| + |f|, g)
  {
    AtSplit(b, i, e, f + g);
    AtSplit(b, i + |e|, f, g);
  }

  lemma UintBack(b: seq<byte>, i: nat, v: nat, n: nat)
    requires v < Pow256(n) && At(b, i, BigEndian(v, n))
    ensures GetUint(b, Cursor(i, true), n) == (v, Cursor(i + n, true))
  {
    BigEndianBack(v, n);
  }

  lemma BytesBack(b: seq<byte>, i: nat, p: seq<byte>, width: nat, max: nat)
    requires |p| <= max && |p| < Pow256(width) && At(b, i, PutBytes(p, width))
    ensures GetBytes(b, Cursor(i, true), width, max) == (p, Cursor(i + width + |p|, true))
  {
    AtSplit(b, i, BigEndian(|p|, width), p);
    UintBack(b, i, |p|, width);
  }

  lemma Int64Back(b: seq<byte>, i: nat, v: int)
    requires IsInt64(v) && At(b, i, PutInt64(v))
    ensures GetInt64(b, Cursor(i, true)) == (v, Cursor(i + 8, true))
  {
    Pow256Values();
    UintBack(b, i, v % U64, 8);
    if v < 0 {
      assert v % U64 == v + U64;
    }
  }

  // ---- writing back what was read ------------------------------------------

  lemma CoversTwo(b: seq<byte>, c: Cursor, c1: Cursor, c2: Cursor, e: seq<byte>, f: seq<byte>)
    requires Covers(b, c, c1, e) && Covers(b, c1, c2, f)
    ensures Covers(b, c, c2, e + f)
  {
    assert b[c.i..c2.i] == b[c.i..c1.i] + b[c1.i..c2.i];
  }

  lemma UintRead(b: seq<byte>, c: Cursor, n: nat)
    requires GetUint(b, c, n).1.ok && c.i <= |b|
    ensures Covers(b, c, GetUint(b, c, n).1, BigEndian(GetUint(b, c, n).0, n))
  {
    FromBigEndianRoundTrip(b[c.i..c.i + n]);
  }

  lemma BytesRead(b: seq<byte>, c: Cursor, width: nat, max: nat)
    requires GetBytes(b, c, width, max).1.ok && c.i <= |b|
    ensures Covers(b, c, GetBytes(b, c, width, max).1, PutBytes(GetBytes(b, c, width, max).0, width))
  {
    var (n, c1) := GetUint(b, c, width);
    UintRead(b, c, width);
    assert b[c.i..c1.i + n] == b[c.i..c1.i] + b[c1.i..c1.i + n];
  }

  lemma Int64Read(b: seq<byte>, c: Cursor)
    requires GetInt64(b, c).1.ok && c.i <= |b|
    ensures Covers(b, c, GetInt64(b, c).1, PutInt64(GetInt64(b, c).0))
  {
    UintRead(b, c, 8);
    Pow256Values();
    SignedBack(GetUint(b, c, 8).0);
  }

  lemma SignedBack(n: nat)
    requires n < U64
    ensures (if n < U64 / 2 then n else n - U64) % U64 == n
  {
  }

  // ---- the two objects -----------------------------------------------------

  class Writer {
    var b: seq<byte>

    constructor ()
      ensures b == []
    {
      b := [];
    }

    /** u8, u16, u32 and u64: n is the width in bytes. */
    method Uint(v: nat, n: nat)
      modifies this
      ensures b == old(b) + BigEndian(v, n)
    {
      b := b + BigEndian(v, n);
    }

    method Int64(v: int)
      modifies this
      ensures b == old(b) + PutInt64(v)
    {
      Uint(v % U64, 8);
    }

    method Raw(p: seq<byte>)
      modifies this
      ensures b == old(b) + p
    {
      b := b + p;
    }

    /** str and blob, and the fields whose length the caller writes. */
    method LengthPrefixed(p: seq<byte>, width: nat)
      modifies this
      ensures b == old(b) + PutBytes(p, width)
    {
      Uint(|p|, width);
      Raw(p);
    }
  }

  class Reader {
    const b: seq<byte>
    var i: nat
    var failed: bool

    predicate Valid()
      reads this
    {
      i <= |b|
    }

    function Position(): Cursor
      reads this
    {
      Cursor(i, !failed)
    }

    constructor (b: seq<byte>)
      ensures this.b == b && Valid() && Position() == Cursor(0, true)
    {
      this.b := b;
      i, failed := 0, false;
    }

    method Fail()
      modifies this`failed
      ensures failed
    {
      failed := true;
    }

    method Need(n: nat) returns (ok: bool)
      modifies this`failed
      ensures ok <==> !old(failed) && i + n <= |b|
      ensures failed <==> !ok
    {
      if failed {
        return false;
      }
      if i + n > |b| {
        Fail();
        return false;
      }
      ok := true;
    }

    method Uint(n: nat) returns (v: nat)
      requires Valid()
      modifies this
      ensures Valid() && (v, Position()) == GetUint(b, old(Position()), n)
    {
      var ok := Need(n);
      if !ok {
        return 0;
      }
      v := FromBigEndian(b[i..i + n]);
      i := i + n;
    }

    method Int64() returns (v: int)
      requires Valid()
      modifies this
      ensures Valid() && (v, Position()) == GetInt64(b, old(Position()))
    {
      var n := Uint(8);
      v := if n < U64 / 2 then n else n - U64;
    }

    method Raw(n: nat, max: nat) returns (p: seq<byte>)
      requires Valid()
      modifies this
      ensures Valid() && (p, Position()) == GetRaw(b, old(Position()), n, max)
    {
      if failed {
        return [];
      }
      if n > max {
        Fail();
        return [];
      }
      var ok := Need(n);
      if !ok {
        return [];
      }
      p := b[i..i + n];
      i := i + n;
    }

    method LengthPrefixed(width: nat, max: nat) returns (p: seq<byte>)
      requires Valid()
      modifies this
      ensures Valid() && (p, Position()) == GetBytes(b, old(Position()), width, max)
    {
      var n := Uint(width);
      p := Raw(n, max);
    }

    method Remaining() returns (n: nat)
      requires Valid()
      ensures n == if failed then 0 else |b| - i
    {
      n := if failed then 0 else |b| - i;
    }
  }
}
