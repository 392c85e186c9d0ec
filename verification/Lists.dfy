/** Lists of items written one after the other, and read back by a cursor that stops
    at its first failure. */
module Lists {
  import opened Bytes
  import opened Codec

  function PutEach<T>(put: T -> seq<byte>, xs: seq<T>): seq<byte> {
    if xs == [] then [] else put(xs[0]) + PutEach(put, xs[1..])
  }

  /** n items, or as many as there are before the reader fails. */
  function GetEach<T>(get: Cursor -> (T, Cursor), c: Cursor, n: nat): (r: (seq<T>, Cursor))
    ensures r.1.ok ==> |r.0| == n
    decreases n
  {
    if n == 0 || !c.ok then ([], c)
    else
      var (x, c1) := get(c);
      var (xs, c2) := GetEach(get, c1, n - 1);
      ([x] + xs, c2)
  }

  /** What holds of every item that is read without failing holds of the list. */
  lemma {:induction false} EachHolds<T(!new)>(get: Cursor -> (T, Cursor), c: Cursor, n: nat, len: nat, p: T -> bool)
    requires forall c: Cursor :: get(c).1.ok ==> c.ok && p(get(c).0)
    requires forall c: Cursor :: c.i <= len ==> get(c).1.i <= len
    ensures var (xs, end) := GetEach(get, c, n);
            && (end.ok ==> c.ok && forall k :: 0 <= k < |xs| ==> p(xs[k]))
            && (c.i <= len ==> end.i <= len)
    decreases n
  {
    if n > 0 && c.ok {
      EachHolds(get, get(c).1, n - 1, len, p);
    }
  }

  ghost predicate ReadsBack<T(!new)>(b: seq<byte>, put: T -> seq<byte>, get: Cursor -> (T, Cursor), x: T) {
    forall i: nat :: At(b, i, put(x)) ==> get(Cursor(i, true)) == (x, Cursor(i + |put(x)|, true))
  }

  lemma {:induction false} EachBack<T(!new)>(b: seq<byte>, put: T -> seq<byte>, get: Cursor -> (T, Cursor),
                                             xs: seq<T>, i: nat, end: nat)
    requires forall k :: 0 <= k < |xs| ==> ReadsBack(b, put, get, xs[k])
    requires At(b, i, PutEach(put, xs)) && end == i + |PutEach(put, xs)|
    ensures GetEach(get, Cursor(i, true), |xs|) == (xs, Cursor(end, true))
    decreases |xs|
  {
    if xs != [] {
      var j := i + |put(xs[0])|;
      AtSplit(b, i, put(xs[0]), PutEach(put, xs[1..]));
      assert ReadsBack(b, put, get, xs[0]);
      EachBack(b, put, get, xs[1..], j, end);
      assert xs == [xs[0]] + xs[1..];
    }
  }

  ghost predicate ReadsCover<T(!new)>(b: seq<byte>, put: T -> seq<byte>, get: Cursor -> (T, Cursor), c: Cursor) {
    get(c).1.ok && c.i <= |b| ==> Covers(b, c, get(c).1, put(get(c).0))
  }

  /** What was read one after the other is what lies between the two cursors. */
  lemma {:induction false} EachRead<T(!new)>(b: seq<byte>, put: T -> seq<byte>, get: Cursor -> (T, Cursor), c: Cursor, n: nat)
    requires forall c: Cursor :: ReadsCover(b, put, get, c)
    requires c.i <= |b| && GetEach(get, c, n).1.ok
    ensures var (xs, end) := GetEach(get, c, n); Covers(b, c, end, PutEach(put, xs))
    decreases n
  {
    if n > 0 {
      var (x, c1) := get(c);
      EachStops(get, c1, n - 1);
      var (xs, c2) := GetEach(get, c1, n - 1);
      assert ReadsCover(b, put, get, c);
      EachRead(b, put, get, c1, n - 1);
      assert ([x] + xs)[1..] == xs;
      assert b[c.i..c2.i] == b[c.i..c1.i] + b[c1.i..c2.i];
    }
  }

  lemma EachStops<T>(get: Cursor -> (T, Cursor), c: Cursor, n: nat)
    requires GetEach(get, c, n).1.ok
    ensures c.ok
  {
  }

  lemma {:induction false} PutEachAppend<T>(put: T -> seq<byte>, xs: seq<T>, x: T)
    ensures PutEach(put, xs + [x]) == PutEach(put, xs) + put(x)
  {
    if xs == [] {
      assert xs + [x] == [x] && [x][1..] == [];
    } else {
      PutEachAppend(put, xs[1..], x);
      assert (xs + [x])[1..] == xs[1..] + [x];
    }
  }

  /** Reading n more items, after those read so far, reaches the goal. */
  ghost predicate ReadOn<T>(get: Cursor -> (T, Cursor), c: Cursor, n: nat, xs: seq<T>, goal: (seq<T>, Cursor)) {
    var (rest, end) := GetEach(get, c, n);
    xs + rest == goal.0 && end == goal.1
  }

  lemma ReadOnStep<T>(get: Cursor -> (T, Cursor), c: Cursor, n: nat, xs: seq<T>, goal: (seq<T>, Cursor), x: T, c1: Cursor)
    requires n > 0 && c.ok && ReadOn(get, c, n, xs, goal) && get(c) == (x, c1)
    ensures ReadOn(get, c1, n - 1, xs + [x], goal)
  {
    var rest := GetEach(get, c1, n - 1).0;
    assert (xs + [x]) + rest == xs + ([x] + rest);
  }
}
