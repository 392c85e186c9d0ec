/** Finite sets, sequences and maps: counting without repetition. */
module Finite {
  ghost predicate Distinct(xs: seq<nat>) { forall i, j :: 0 <= i < j < |xs| ==> xs[i] != xs[j] }

  function Without<K, V>(m: map<K, V>, k: K): (r: map<K, V>)
    ensures r.Keys == m.Keys - {k}
    ensures forall x :: x in r ==> r[x] == m[x]
    ensures k !in m ==> r == m
  {
    map x | x in m && x != k :: m[x]
  }

  /** A set of n numbers below n holds them all. */
  lemma {:induction false} Pigeonhole(s: set<nat>, n: nat)
    requires forall x :: x in s ==> x < n
    ensures |s| <= n
    ensures |s| == n ==> forall x: nat :: x < n ==> x in s
  {
    if n > 0 {
      Pigeonhole(s - {n - 1}, n - 1);
      if n - 1 !in s {
        assert s - {n - 1} == s;
      }
    } else {
      assert s == {};
    }
  }

  /** A set that holds every number below n has at least n elements. */
  lemma {:induction false} HoldsAllBelow(s: set<nat>, n: nat)
    requires forall x: nat :: x < n ==> x in s
    ensures |s| >= n
  {
    if n > 0 {
      HoldsAllBelow(s - {n - 1}, n - 1);
    }
  }

  /** A sequence that holds every element of a set is at least as long. */
  lemma {:induction false} CountedIn(xs: set<nat>, ys: seq<nat>)
    requires forall x :: x in xs ==> x in ys
    ensures |xs| <= |ys|
  {
    if ys == [] {
      assert xs == {};
    } else {
      CountedIn(xs - {ys[0]}, ys[1..]);
    }
  }

  /** A sequence without repetition is as long as the set of its elements. */
  lemma {:induction false} DistinctLength(xs: seq<nat>, s: set<nat>)
    requires Distinct(xs) && forall x :: x in xs <==> x in s
    ensures |xs| == |s|
  {
    if xs == [] {
      assert s == {};
    } else {
      var rest := xs[1..];
      assert xs == [xs[0]] + rest;
      assert forall j :: 0 <= j < |rest| ==> rest[j] == xs[j + 1];
      DistinctLength(rest, s - {xs[0]});
    }
  }

  /** A sequence without repetition is no longer than a set that holds it. */
  lemma {:induction false} DistinctWithin(xs: seq<nat>, s: set<nat>)
    requires Distinct(xs) && forall x :: x in xs ==> x in s
    ensures |xs| <= |s|
  {
    if xs != [] {
      var rest := xs[1..];
      assert forall j :: 0 <= j < |rest| ==> rest[j] == xs[j + 1];
      assert forall x :: x in rest ==> x in xs && x != xs[0];
      DistinctWithin(rest, s - {xs[0]});
    }
  }

  // ---- sums over maps ------------------------------------------------------

  lemma WithoutShrinks(m: map<nat, nat>, k: nat)
    requires k in m
    ensures |Without(m, k)| == |m| - 1
  {
    assert |Without(m, k).Keys| == |m.Keys - {k}|;
  }

  ghost function MapSum(m: map<nat, nat>): nat
    decreases |m|
  {
    if m == map[] then 0
    else
      var k :| k in m;
      WithoutShrinks(m, k);
      m[k] + MapSum(Without(m, k))
  }

  lemma WithoutTwo(m: map<nat, nat>, k: nat, x: nat)
    ensures Without(Without(m, k), x) == Without(Without(m, x), k)
  {
  }

  /** Any key can be summed first. */
  lemma {:induction false} MapSumAt(m: map<nat, nat>, k: nat)
    requires k in m
    ensures MapSum(m) == m[k] + MapSum(Without(m, k))
    decreases |m|
  {
    var x :| x in m && MapSum(m) == m[x] + MapSum(Without(m, x));
    if x != k {
      WithoutShrinks(m, x);
      WithoutShrinks(m, k);
      MapSumAt(Without(m, x), k);
      MapSumAt(Without(m, k), x);
      WithoutTwo(m, k, x);
    }
  }

  lemma MapSumAdd(m: map<nat, nat>, k: nat, v: nat)
    requires k !in m
    ensures MapSum(m[k := v]) == MapSum(m) + v
  {
    MapSumAt(m[k := v], k);
    assert Without(m[k := v], k) == m;
  }

  lemma MapSumUpdate(m: map<nat, nat>, k: nat, v: nat)
    requires k in m
    ensures MapSum(m[k := v]) + m[k] == MapSum(m) + v
  {
    MapSumAt(m, k);
    MapSumAt(m[k := v], k);
    assert Without(m[k := v], k) == Without(m, k);
  }

  lemma {:induction false} MapSumLess(m: map<nat, nat>, n: map<nat, nat>)
    requires m.Keys == n.Keys && forall k :: k in m ==> n[k] <= m[k]
    ensures MapSum(n) <= MapSum(m)
    decreases |m|
  {
    if m != map[] {
      var k :| k in m;
      MapSumAt(m, k);
      MapSumAt(n, k);
      WithoutShrinks(m, k);
      MapSumLess(Without(m, k), Without(n, k));
    } else {
      assert n == map[];
    }
  }

  lemma {:induction false} MapSumConstant(m: map<nat, nat>, v: nat)
    requires forall k :: k in m ==> m[k] == v
    ensures MapSum(m) == v * |m|
    decreases |m|
  {
    if m != map[] {
      var k :| k in m;
      MapSumAt(m, k);
      WithoutShrinks(m, k);
      MapSumConstant(Without(m, k), v);
      OneMore(v, |Without(m, k)|);
    }
  }

  lemma OneMore(v: nat, n: nat)
    ensures v * (n + 1) == v * n + v
  {
  }

  /** The numbers below n. */
  function Below(n: nat): (r: set<nat>)
    ensures |r| == n && forall g: nat :: g in r <==> g < n
  {
    if n == 0 then {}
    else
      var r := Below(n - 1);
      assert n - 1 !in r;
      r + {n - 1}
  }
}
