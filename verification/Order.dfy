/** The order of plan entries: ordering keys compared as unsigned bytes, ties broken by
    the path itself (internal/plan/plan.go). */
module Order {
  import opened Bytes

  /** bytes.Compare(a, b) < 0. */
  predicate Less(a: seq<byte>, b: seq<byte>) {
    b != [] && (a == [] || a[0] < b[0] || (a[0] == b[0] && Less(a[1..], b[1..])))
  }

  lemma {:induction false} LessTrichotomy(a: seq<byte>, b: seq<byte>)
    ensures Less(a, b) || a == b || Less(b, a)
    ensures !(Less(a, b) && Less(b, a)) && !Less(a, a)
    decreases |a|
  {
    if a != [] {
      LessTrichotomy(a[1..], a[1..]);
      if b != [] {
        LessTrichotomy(a[1..], b[1..]);
        assert a == [a[0]] + a[1..] && b == [b[0]] + b[1..];
      }
    }
  }

  lemma {:induction false} LessTransitive(a: seq<byte>, b: seq<byte>, c: seq<byte>)
    requires Less(a, b) && Less(b, c)
    ensures Less(a, c)
    decreases |a|
  {
    if a != [] && a[0] == b[0] == c[0] {
      LessTransitive(a[1..], b[1..], c[1..]);
    }
  }

  /** At the first place where the two differ a has the smaller byte, or it ends there. */
  ghost predicate SmallerAtFirstDifference(a: seq<byte>, b: seq<byte>) {
    (|a| < |b| && a == b[..|a|]) || exists k: nat :: DiffersAt(a, b, k)
  }

  lemma {:induction false} LessIff(a: seq<byte>, b: seq<byte>)
    ensures Less(a, b) <==> SmallerAtFirstDifference(a, b)
    decreases |a|
  {
    if a != [] && b != [] && a[0] == b[0] {
      LessIff(a[1..], b[1..]);
      DifferenceMoves(a, b);
    } else if a != [] && b != [] && a[0] < b[0] {
      assert DiffersAt(a, b, 0);
    }
  }

  lemma SamePrefix(a: seq<byte>, b: seq<byte>, k: nat)
    requires a != [] && b != [] && a[0] == b[0] && k < |a| && k < |b|
    ensures a[..k + 1] == b[..k + 1] <==> a[1..][..k] == b[1..][..k]
  {
    assert a[..k + 1] == [a[0]] + a[1..][..k];
    assert b[..k + 1] == [b[0]] + b[1..][..k];
    assert a[1..][..k] == a[..k + 1][1..] && b[1..][..k] == b[..k + 1][1..];
  }

  ghost predicate DiffersAt(a: seq<byte>, b: seq<byte>, k: nat) { k < |a| && k < |b| && a[..k] == b[..k] && a[k] < b[k] }

  lemma DifferenceMoves(a: seq<byte>, b: seq<byte>)
    requires a != [] && b != [] && a[0] == b[0]
    ensures SmallerAtFirstDifference(a, b) <==> SmallerAtFirstDifference(a[1..], b[1..])
  {
    var a', b' := a[1..], b[1..];
    if |a| < |b| {
      SamePrefix(a, b, |a'|);
      assert a == a[..|a|] && a' == a'[..|a'|];
    }
    if exists k: nat :: DiffersAt(a, b, k) {
      var k: nat :| DiffersAt(a, b, k);
      SamePrefix(a, b, k - 1);
      assert DiffersAt(a', b', k - 1);
    }
    if exists k: nat :: DiffersAt(a', b', k) {
      var k: nat :| DiffersAt(a', b', k);
      SamePrefix(a, b, k);
      assert DiffersAt(a, b, k + 1);
    }
  }

  /** A keyed path with what it stands for. */
  datatype Keyed<T> = Keyed(item: T, key: seq<byte>, path: seq<byte>)

  predicate Before<T>(a: Keyed<T>, b: Keyed<T>) { Less(a.key, b.key) || (a.key == b.key && Less(a.path, b.path)) }

  lemma BeforeIsTotal<T>(a: Keyed<T>, b: Keyed<T>)
    ensures Before(a, b) || Before(b, a) || (a.key == b.key && a.path == b.path)
    ensures !(Before(a, b) && Before(b, a)) && !Before(a, a)
  {
    LessTrichotomy(a.key, b.key);
    LessTrichotomy(a.path, b.path);
    LessTrichotomy(a.key, a.key);
    LessTrichotomy(a.path, a.path);
  }

  lemma BeforeTransitive<T>(a: Keyed<T>, b: Keyed<T>, c: Keyed<T>)
    requires Before(a, b) && Before(b, c)
    ensures Before(a, c)
  {
    if Less(a.key, b.key) && Less(b.key, c.key) {
      LessTransitive(a.key, b.key, c.key);
    } else if a.key == b.key == c.key {
      LessTransitive(a.path, b.path, c.path);
    }
  }

  // ---- sorting -------------------------------------------------------------

  ghost predicate DistinctPaths<T>(xs: seq<Keyed<T>>) {
    forall i, j :: 0 <= i < j < |xs| ==> xs[i].path != xs[j].path
  }

  ghost predicate Ascending<T>(xs: seq<Keyed<T>>) { forall i, j :: 0 <= i < j < |xs| ==> Before(xs[i], xs[j]) }

  /** What a comparison sort promises: a permutation with no inversion. */
  ghost predicate Sorts<T>(xs: seq<Keyed<T>>, ys: seq<Keyed<T>>) {
    multiset(xs) == multiset(ys) && forall i, j :: 0 <= i < j < |ys| ==> !Before(ys[j], ys[i])
  }

  function Insert<T>(x: Keyed<T>, xs: seq<Keyed<T>>): seq<Keyed<T>> {
    if xs == [] || Before(x, xs[0]) then [x] + xs else [xs[0]] + Insert(x, xs[1..])
  }

  function Sort<T>(xs: seq<Keyed<T>>): seq<Keyed<T>> {
    if xs == [] then [] else Insert(xs[0], Sort(xs[1..]))
  }

  lemma {:induction false} InsertHolds<T>(x: Keyed<T>, xs: seq<Keyed<T>>)
    ensures multiset(Insert(x, xs)) == multiset(xs) + multiset{x}
  {
    if xs != [] && !Before(x, xs[0]) {
      InsertHolds(x, xs[1..]);
      assert xs == [xs[0]] + xs[1..];
    }
  }

  lemma {:induction false} InsertAscending<T>(x: Keyed<T>, xs: seq<Keyed<T>>)
    requires Ascending(xs) && forall i :: 0 <= i < |xs| ==> xs[i].path != x.path
    ensures Ascending(Insert(x, xs))
  {
    if xs != [] {
      BeforeIsTotal(x, xs[0]);
      if Before(x, xs[0]) {
        forall j | 0 < j < |xs|
          ensures Before(x, xs[j])
        {
          BeforeTransitive(x, xs[0], xs[j]);
        }
      } else {
        InsertAscending(x, xs[1..]);
        InsertHolds(x, xs[1..]);
        var rest := Insert(x, xs[1..]);
        forall j | 0 <= j < |rest|
          ensures Before(xs[0], rest[j])
        {
          assert rest[j] in multiset(xs[1..]) + multiset{x};
        }
      }
    }
  }

  lemma {:induction false} SortPermutes<T>(xs: seq<Keyed<T>>)
    ensures multiset(Sort(xs)) == multiset(xs)
  {
    if xs != [] {
      SortPermutes(xs[1..]);
      InsertHolds(xs[0], Sort(xs[1..]));
      assert xs == [xs[0]] + xs[1..];
    }
  }

  lemma {:induction false} SortAscending<T>(xs: seq<Keyed<T>>)
    requires DistinctPaths(xs)
    ensures multiset(Sort(xs)) == multiset(xs) && Ascending(Sort(xs))
  {
    if xs != [] {
      SortAscending(xs[1..]);
      var rest := Sort(xs[1..]);
      InsertHolds(xs[0], rest);
      assert xs == [xs[0]] + xs[1..];
      forall i | 0 <= i < |rest|
        ensures rest[i].path != xs[0].path
      {
        assert rest[i] in multiset(xs[1..]);
      }
      InsertAscending(xs[0], rest);
    }
  }

  /** Ascending sequences of the same elements are equal. */
  lemma {:induction false} AscendingUnique<T>(xs: seq<Keyed<T>>, ys: seq<Keyed<T>>)
    requires Ascending(xs) && Ascending(ys) && multiset(xs) == multiset(ys)
    ensures xs == ys
    decreases |xs|
  {
    if xs == [] {
      assert |multiset(ys)| == 0;
    } else {
      assert ys != [] by {
        assert xs[0] in multiset(ys);
      }
      SameHead(xs, ys);
      assert xs == [xs[0]] + xs[1..] && ys == [ys[0]] + ys[1..];
      assert multiset(xs[1..]) == multiset(xs) - multiset{xs[0]};
      assert multiset(ys[1..]) == multiset(ys) - multiset{ys[0]};
      AscendingUnique(xs[1..], ys[1..]);
    }
  }

  lemma SameHead<T>(xs: seq<Keyed<T>>, ys: seq<Keyed<T>>)
    requires Ascending(xs) && Ascending(ys) && multiset(xs) == multiset(ys) && xs != [] && ys != []
    ensures xs[0] == ys[0]
  {
    assert xs[0] in multiset(ys) && ys[0] in multiset(xs);
    var i :| 0 <= i < |ys| && ys[i] == xs[0];
    var j :| 0 <= j < |xs| && xs[j] == ys[0];
    BeforeIsTotal(xs[0], ys[0]);
  }

  /** Whatever sort is used, stable or not, the result on distinct paths is the same. */
  lemma AnySortAgrees<T>(xs: seq<Keyed<T>>, ys: seq<Keyed<T>>)
    requires DistinctPaths(xs) && Sorts(xs, ys)
    ensures ys == Sort(xs)
  {
    SortAscending(xs);
    DistinctKept(xs, ys);
    forall i, j | 0 <= i < j < |ys|
      ensures Before(ys[i], ys[j])
    {
      BeforeIsTotal(ys[i], ys[j]);
    }
    AscendingUnique(ys, Sort(xs));
  }

  /** Distinct paths are a property of the elements, not of their order. */
  lemma {:induction false} DistinctKept<T>(xs: seq<Keyed<T>>, ys: seq<Keyed<T>>)
    requires DistinctPaths(xs) && multiset(xs) == multiset(ys)
    ensures DistinctPaths(ys)
  {
    forall i, j | 0 <= i < j < |ys|
      ensures ys[i].path != ys[j].path
    {
      TwoPlaces(xs, ys, i, j);
    }
  }

  lemma TwoPlaces<T>(xs: seq<Keyed<T>>, ys: seq<Keyed<T>>, i: nat, j: nat)
    requires DistinctPaths(xs) && multiset(xs) == multiset(ys) && i < j < |ys|
    ensures ys[i].path != ys[j].path
  {
    assert ys[i] in multiset(xs) && ys[j] in multiset(xs);
    var a :| 0 <= a < |xs| && xs[a] == ys[i];
    var b :| 0 <= b < |xs| && xs[b] == ys[j];
    if ys[i] == ys[j] {
      CountTwice(ys, i, j);
      CountOnce(xs, a);
      assert false;
    }
  }

  lemma CountTwice<T>(ys: seq<Keyed<T>>, i: nat, j: nat)
    requires i < j < |ys| && ys[i] == ys[j]
    ensures multiset(ys)[ys[i]] >= 2
  {
    assert ys == ys[..j] + ys[j..];
    assert ys[i] in multiset(ys[..j]) by {
      assert ys[..j][i] == ys[i];
    }
    assert ys[j] in multiset(ys[j..]) by {
      assert ys[j..][0] == ys[j];
    }
  }

  lemma CountOnce<T>(xs: seq<Keyed<T>>, a: nat)
    requires DistinctPaths(xs) && a < |xs|
    ensures multiset(xs)[xs[a]] == 1
  {
    var left, right := xs[..a], xs[a + 1..];
    assert xs == left + [xs[a]] + right;
    assert xs[a] !in multiset(left) && xs[a] !in multiset(right);
  }
}
