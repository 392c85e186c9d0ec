/** Choosing and converting elements of a list, one by one. */
module Choosing {
  import opened Optional

  function Collect<S, T>(f: S -> Option<T>, xs: seq<S>): seq<T> {
    if xs == [] then []
    else match f(xs[0])
      case None => Collect(f, xs[1..])
      case Some(v) => [v] + Collect(f, xs[1..])
  }

  function Keep<S>(p: S -> bool, xs: seq<S>): seq<S> {
    if xs == [] then [] else if p(xs[0]) then [xs[0]] + Keep(p, xs[1..]) else Keep(p, xs[1..])
  }

  lemma {:induction false} CollectAppend<S, T>(f: S -> Option<T>, xs: seq<S>, ys: seq<S>)
    ensures Collect(f, xs + ys) == Collect(f, xs) + Collect(f, ys)
  {
    if xs == [] {
      assert xs + ys == ys;
    } else {
      CollectAppend(f, xs[1..], ys);
      assert (xs + ys)[1..] == xs[1..] + ys;
    }
  }

  lemma CollectOne<S, T>(f: S -> Option<T>, x: S)
    ensures Collect(f, [x]) == match f(x) case None => [] case Some(v) => [v]
  {
    assert [x][1..] == [];
  }

  function Omit<S>(ys: seq<S>, j: nat): seq<S>
    requires j < |ys|
  {
    ys[..j] + ys[j + 1..]
  }

  lemma OmitCounts<S>(ys: seq<S>, j: nat)
    requires j < |ys|
    ensures multiset(ys) == multiset(Omit(ys, j)) + multiset{ys[j]}
  {
    assert ys == (ys[..j] + [ys[j]]) + ys[j + 1..];
  }

  lemma CollectOmit<S, T>(f: S -> Option<T>, ys: seq<S>, j: nat)
    requires j < |ys|
    ensures multiset(Collect(f, ys)) == multiset(Collect(f, Omit(ys, j))) + multiset(Collect(f, [ys[j]]))
  {
    var left, mid, right := ys[..j], [ys[j]], ys[j + 1..];
    assert ys == left + (mid + right);
    CollectAppend(f, left, mid + right);
    CollectAppend(f, mid, right);
    CollectAppend(f, left, right);
  }

  /** The order of the input decides only the order of the output. */
  lemma {:induction false} CollectPermutes<S, T>(f: S -> Option<T>, xs: seq<S>, ys: seq<S>)
    requires multiset(xs) == multiset(ys)
    ensures multiset(Collect(f, xs)) == multiset(Collect(f, ys))
    decreases |xs|
  {
    if xs == [] {
      assert |multiset(ys)| == 0;
    } else {
      assert xs[0] in multiset(ys);
      var j :| 0 <= j < |ys| && ys[j] == xs[0];
      OmitCounts(xs, 0);
      OmitCounts(ys, j);
      assert multiset(Omit(xs, 0)) == multiset(xs) - multiset{xs[0]};
      assert multiset(Omit(ys, j)) == multiset(ys) - multiset{xs[0]};
      CollectPermutes(f, Omit(xs, 0), Omit(ys, j));
      CollectOmit(f, xs, 0);
      CollectOmit(f, ys, j);
    }
  }

  /** Elements that yield nothing can be left out. */
  lemma {:induction false} CollectSkips<S(!new), T>(f: S -> Option<T>, p: S -> bool, xs: seq<S>)
    requires forall x :: x in xs && !p(x) ==> f(x) == None
    ensures Collect(f, xs) == Collect(f, Keep(p, xs))
  {
    if xs != [] {
      CollectSkips(f, p, xs[1..]);
      if p(xs[0]) {
        assert Keep(p, xs)[1..] == Keep(p, xs[1..]);
      }
    }
  }

  lemma {:induction false} CollectAgrees<S(!new), T>(f: S -> Option<T>, g: S -> Option<T>, xs: seq<S>)
    requires forall x :: x in xs ==> f(x) == g(x)
    ensures Collect(f, xs) == Collect(g, xs)
  {
    if xs != [] {
      CollectAgrees(f, g, xs[1..]);
    }
  }

  lemma {:induction false} Kept<S>(p: S -> bool, xs: seq<S>, x: S)
    ensures x in Keep(p, xs) <==> x in xs && p(x)
  {
    if xs != [] {
      Kept(p, xs[1..], x);
    }
  }

  /** The elements that yield something. */
  function Yields<S, T>(f: S -> Option<T>): S -> bool { (x: S) => f(x).Some? }

  /** What is collected stands, place by place, for the elements that yield something. */
  lemma {:induction false} CollectKept<S, T>(f: S -> Option<T>, xs: seq<S>)
    ensures |Collect(f, xs)| == |Keep(Yields(f), xs)|
    ensures forall i :: 0 <= i < |Collect(f, xs)| ==> f(Keep(Yields(f), xs)[i]) == Some(Collect(f, xs)[i])
  {
    if xs != [] {
      CollectKept(f, xs[1..]);
    }
  }

  function Mapped<S, T>(g: S -> T, xs: seq<S>): seq<T> {
    if xs == [] then [] else [g(xs[0])] + Mapped(g, xs[1..])
  }

  /** Collecting is converting what is kept. */
  lemma {:induction false} CollectIsMapped<S(!new), T>(f: S -> Option<T>, p: S -> bool, g: S -> T, xs: seq<S>)
    requires forall x :: x in xs ==> f(x) == if p(x) then Some(g(x)) else None
    ensures Collect(f, xs) == Mapped(g, Keep(p, xs))
  {
    if xs != [] {
      CollectIsMapped(f, p, g, xs[1..]);
      if p(xs[0]) {
        assert Keep(p, xs)[1..] == Keep(p, xs[1..]);
      }
    }
  }

  lemma {:induction false} InMapped<S, T>(g: S -> T, xs: seq<S>, y: T)
    ensures y in Mapped(g, xs) <==> exists i :: 0 <= i < |xs| && g(xs[i]) == y
  {
    if xs != [] {
      InMapped(g, xs[1..], y);
      if exists i :: 0 <= i < |xs| && g(xs[i]) == y {
        var i :| 0 <= i < |xs| && g(xs[i]) == y;
        assert i > 0 ==> g(xs[1..][i - 1]) == y;
      }
      if exists i :: 0 <= i < |xs[1..]| && g(xs[1..][i]) == y {
        var i :| 0 <= i < |xs[1..]| && g(xs[1..][i]) == y;
        assert g(xs[i + 1]) == y;
      }
    }
  }

  ghost predicate InjectiveOn<S(!new), T(!new)>(f: S -> Option<T>, xs: seq<S>) {
    forall x, y :: x in xs && y in xs && f(x).Some? && f(x) == f(y) ==> x == y
  }

  /** Where distinct elements yield distinct things, equal collections come from the same
      elements in the same order. */
  lemma CollectInjective<S(!new), T(!new)>(f: S -> Option<T>, xs: seq<S>, ys: seq<S>)
    requires InjectiveOn(f, xs) && forall y :: y in ys ==> y in xs
    ensures Collect(f, xs) == Collect(f, ys) <==> Keep(Yields(f), xs) == Keep(Yields(f), ys)
  {
    var p := Yields(f);
    CollectKept(f, xs);
    CollectKept(f, ys);
    if Collect(f, xs) == Collect(f, ys) {
      forall i | 0 <= i < |Keep(p, xs)|
        ensures Keep(p, xs)[i] == Keep(p, ys)[i]
      {
        Kept(p, xs, Keep(p, xs)[i]);
        Kept(p, ys, Keep(p, ys)[i]);
      }
    }
    if Keep(p, xs) == Keep(p, ys) {
      forall i | 0 <= i < |Collect(f, xs)|
        ensures Collect(f, xs)[i] == Collect(f, ys)[i]
      {
        assert f(Keep(p, xs)[i]) == Some(Collect(f, xs)[i]);
        assert f(Keep(p, ys)[i]) == Some(Collect(f, ys)[i]);
      }
    }
  }
}
