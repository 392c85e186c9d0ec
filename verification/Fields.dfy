/** The field formats of frame bodies, and tables of them: how a table of fields is
    written and read (internal/wire/frame.go over internal/wire/codec.go). */
module Fields {
  import opened Bytes
  import opened Codec

  /** A fixed-width unsigned integer, a signed 64-bit one, or bytes behind a length. */
  datatype Field = U(n: nat) | I64 | B(width: nat, max: nat)

  datatype Value = Num(n: nat) | Int(i: int) | Data(b: seq<byte>)

  predicate Shaped(f: Field, v: Value) {
    match f case U(_) => v.Num? case I64 => v.Int? case B(_, _) => v.Data?
  }

  /** Within the width and the declared bound of the field. */
  predicate Fits(f: Field, v: Value) {
    match f
    case U(n) => v.Num? && v.n < Pow256(n)
    case I64 => v.Int? && IsInt64(v.i)
    case B(width, max) => v.Data? && |v.b| <= max && |v.b| < Pow256(width)
  }

  /** Nothing for a value of the wrong shape, which no table holds. */
  function Put(f: Field, v: Value): (r: seq<byte>) {
    match (f, v)
    case (U(n), Num(x)) => BigEndian(x, n)
    case (I64, Int(x)) => PutInt64(x)
    case (B(width, _), Data(x)) => PutBytes(x, width)
    case _ => []
  }

  function Get(f: Field, b: seq<byte>, c: Cursor): (r: (Value, Cursor))
    ensures Shaped(f, r.0)
    ensures c.i <= |b| ==> r.1.i <= |b|
    ensures r.1.ok ==> c.ok && Fits(f, r.0)
  {
    match f
    case U(n) => var (v, c1) := GetUint(b, c, n); (Num(v), c1)
    case I64 => var (v, c1) := GetInt64(b, c); (Int(v), c1)
    case B(width, max) => var (v, c1) := GetBytes(b, c, width, max); (Data(v), c1)
  }

  lemma Back(f: Field, v: Value, b: seq<byte>, i: nat)
    requires Fits(f, v) && At(b, i, Put(f, v))
    ensures Get(f, b, Cursor(i, true)) == (v, Cursor(i + |Put(f, v)|, true))
  {
    match f
    case U(n) => UintBack(b, i, v.n, n);
    case I64 => Int64Back(b, i, v.i);
    case B(width, max) => BytesBack(b, i, v.b, width, max);
  }

  // ---- tables --------------------------------------------------------------

  predicate AllShaped(fs: seq<Field>, vs: seq<Value>) {
    |fs| == |vs| && forall k :: 0 <= k < |fs| ==> Shaped(fs[k], vs[k])
  }

  predicate AllFit(fs: seq<Field>, vs: seq<Value>) {
    |fs| == |vs| && forall k :: 0 <= k < |fs| ==> Fits(fs[k], vs[k])
  }

  function PutAll(fs: seq<Field>, vs: seq<Value>): seq<byte> {
    if fs == [] || vs == [] then [] else Put(fs[0], vs[0]) + PutAll(fs[1..], vs[1..])
  }

  function GetAll(fs: seq<Field>, b: seq<byte>, c: Cursor): (r: (seq<Value>, Cursor))
    ensures AllShaped(fs, r.0)
    ensures c.i <= |b| ==> r.1.i <= |b|
    ensures r.1.ok ==> c.ok && AllFit(fs, r.0)
  {
    if fs == [] then ([], c)
    else
      var (v, c1) := Get(fs[0], b, c);
      var (vs, c2) := GetAll(fs[1..], b, c1);
      ([v] + vs, c2)
  }

  /** Where the first value of a table ends. */
  lemma SplitFirst(fs: seq<Field>, vs: seq<Value>, b: seq<byte>, i: nat) returns (j: nat)
    requires AllFit(fs, vs) && fs != [] && At(b, i, PutAll(fs, vs))
    ensures AllFit(fs[1..], vs[1..])
    ensures At(b, i, Put(fs[0], vs[0])) && j == i + |Put(fs[0], vs[0])|
    ensures At(b, j, PutAll(fs[1..], vs[1..])) && i + |PutAll(fs, vs)| == j + |PutAll(fs[1..], vs[1..])|
  {
    j := i + |Put(fs[0], vs[0])|;
    AtSplit(b, i, Put(fs[0], vs[0]), PutAll(fs[1..], vs[1..]));
  }

  lemma GetAllStep(fs: seq<Field>, vs: seq<Value>, b: seq<byte>, i: nat, j: nat, end: nat)
    requires fs != [] && AllFit(fs, vs)
    requires At(b, i, Put(fs[0], vs[0])) && j == i + |Put(fs[0], vs[0])|
    requires GetAll(fs[1..], b, Cursor(j, true)) == (vs[1..], Cursor(end, true))
    ensures GetAll(fs, b, Cursor(i, true)) == (vs, Cursor(end, true))
  {
    Back(fs[0], vs[0], b, i);
    assert vs == [vs[0]] + vs[1..];
  }

  /** Reading a table where its values were written returns them, whatever follows. */
  lemma {:induction false} AllBack(fs: seq<Field>, vs: seq<Value>, b: seq<byte>, i: nat, end: nat)
    requires AllFit(fs, vs) && At(b, i, PutAll(fs, vs)) && end == i + |PutAll(fs, vs)|
    ensures GetAll(fs, b, Cursor(i, true)) == (vs, Cursor(end, true))
  {
    if fs != [] {
      var j := SplitFirst(fs, vs, b, i);
      AllBack(fs[1..], vs[1..], b, j, end);
      GetAllStep(fs, vs, b, i, j, end);
    }
  }

  // ---- writing back what was read ------------------------------------------

  /** Writing what was read without failing gives the bytes it was read from. */
  lemma PutRead(f: Field, b: seq<byte>, c: Cursor)
    requires Get(f, b, c).1.ok && c.i <= |b|
    ensures Covers(b, c, Get(f, b, c).1, Put(f, Get(f, b, c).0))
  {
    match f
    case U(n) => UintRead(b, c, n);
    case I64 => Int64Read(b, c);
    case B(width, max) => BytesRead(b, c, width, max);
  }

  lemma {:induction false} PutAllRead(fs: seq<Field>, b: seq<byte>, c: Cursor)
    requires GetAll(fs, b, c).1.ok && c.i <= |b|
    ensures var (vs, end) := GetAll(fs, b, c); Covers(b, c, end, PutAll(fs, vs))
  {
    if fs != [] {
      var (v, c1) := Get(fs[0], b, c);
      var (vs, end) := GetAll(fs[1..], b, c1);
      PutRead(fs[0], b, c);
      PutAllRead(fs[1..], b, c1);
      assert ([v] + vs)[1..] == vs;
      assert b[c.i..end.i] == b[c.i..c1.i] + b[c1.i..end.i];
    }
  }

  // ---- lengths -------------------------------------------------------------

  function Lengths(fs: seq<Field>, vs: seq<Value>, n: nat): nat
    requires n <= |fs| == |vs|
  {
    if n == 0 then 0 else Lengths(fs, vs, n - 1) + |Put(fs[n - 1], vs[n - 1])|
  }

  lemma {:induction false} PutAllLength(fs: seq<Field>, vs: seq<Value>)
    requires |fs| == |vs|
    ensures |PutAll(fs, vs)| == Lengths(fs, vs, |fs|)
  {
    if fs != [] {
      PutAllLength(fs[1..], vs[1..]);
      LengthsShift(fs, vs, |fs|);
    }
  }

  lemma {:induction false} LengthsShift(fs: seq<Field>, vs: seq<Value>, n: nat)
    requires 1 <= n <= |fs| == |vs|
    ensures Lengths(fs, vs, n) == |Put(fs[0], vs[0])| + Lengths(fs[1..], vs[1..], n - 1)
  {
    if n > 1 {
      LengthsShift(fs, vs, n - 1);
    }
  }

  // ---- the code ------------------------------------------------------------

  method WriteField(w: Writer, f: Field, v: Value)
    requires Shaped(f, v)
    modifies w
    ensures w.b == old(w.b) + Put(f, v)
  {
    match f
    case U(n) => w.Uint(v.n, n);
    case I64 => w.Int64(v.i);
    case B(width, _) => w.LengthPrefixed(v.b, width);
  }

  method ReadField(r: Reader, f: Field) returns (v: Value)
    requires r.Valid()
    modifies r
    ensures r.Valid() && (v, r.Position()) == Get(f, r.b, old(r.Position()))
  {
    match f
    case U(n) =>
      var x := r.Uint(n);
      v := Num(x);
    case I64 =>
      var x := r.Int64();
      v := Int(x);
    case B(width, max) =>
      var x := r.LengthPrefixed(width, max);
      v := Data(x);
  }

  method WriteAll(w: Writer, fs: seq<Field>, vs: seq<Value>)
    requires AllShaped(fs, vs)
    modifies w
    ensures w.b == old(w.b) + PutAll(fs, vs)
  {
    for k := 0 to |fs|
      invariant w.b + PutAll(fs[k..], vs[k..]) == old(w.b) + PutAll(fs, vs)
    {
      ghost var b, first, rest := w.b, Put(fs[k], vs[k]), PutAll(fs[k + 1..], vs[k + 1..]);
      assert fs[k..][1..] == fs[k + 1..] && vs[k..][1..] == vs[k + 1..];
      WriteField(w, fs[k], vs[k]);
      assert (b + first) + rest == b + (first + rest);
    }
  }

  method ReadAll(r: Reader, fs: seq<Field>) returns (vs: seq<Value>)
    requires r.Valid()
    modifies r
    ensures r.Valid() && (vs, r.Position()) == GetAll(fs, r.b, old(r.Position()))
  {
    ghost var goal := GetAll(fs, r.b, r.Position());
    vs := [];
    assert fs[0..] == fs;
    for k := 0 to |fs|
      invariant r.Valid()
      invariant FieldsOn(fs[k..], r.b, r.Position(), vs, goal)
    {
      assert fs[k..][1..] == fs[k + 1..];
      ghost var before := r.Position();
      var v := ReadField(r, fs[k]);
      FieldsOnStep(fs[k..], r.b, before, vs, goal, v, r.Position());
      vs := vs + [v];
    }
    assert fs[|fs|..] == [] && vs + [] == vs;
  }

  /** Reading the rest of a table, after the values read so far, reaches the goal. */
  ghost predicate FieldsOn(fs: seq<Field>, b: seq<byte>, c: Cursor, vs: seq<Value>, goal: (seq<Value>, Cursor)) {
    var (rest, end) := GetAll(fs, b, c);
    vs + rest == goal.0 && end == goal.1
  }

  lemma FieldsOnStep(fs: seq<Field>, b: seq<byte>, c: Cursor, vs: seq<Value>, goal: (seq<Value>, Cursor), v: Value, c1: Cursor)
    requires fs != [] && FieldsOn(fs, b, c, vs, goal) && Get(fs[0], b, c) == (v, c1)
    ensures FieldsOn(fs[1..], b, c1, vs + [v], goal)
  {
    var rest := GetAll(fs[1..], b, c1).0;
    assert (vs + [v]) + rest == vs + ([v] + rest);
  }
}
