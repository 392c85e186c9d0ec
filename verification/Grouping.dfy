/** Greedy packing of the ordered plan into groups (internal/plan/plan.go).

    An entry joins the open group when the group stays within three caps: entries,
    file bytes and manifest bytes.  The source adds file bytes in a signed 64-bit
    integer, which can wrap; the manifest sum cannot. */
module Grouping {
  const MAX_ENTRIES: nat := 1024
  const DEFAULT_TARGET: nat := 512 * 0x10_0000
  const I63: nat := 0x8000_0000_0000_0000
  const I64: nat := 0x1_0000_0000_0000_0000

  /** What grouping sees of one entry: its file bytes (0 for a directory or symlink)
      and the estimate of its encoded manifest entry. */
  datatype Item = Item(bytes: nat, manifest: nat)

  datatype Caps = Caps(target: nat, manifest: nat)

  predicate Storable(items: seq<Item>) { forall i :: 0 <= i < |items| ==> items[i].bytes < I63 }

  function GroupTarget(n: int): (r: nat)
    ensures r > 0 && (n > 0 ==> r == n)
  {
    if n <= 0 then DEFAULT_TARGET else n
  }

  // ---- sums and caps -------------------------------------------------------

  function Bytes(items: seq<Item>, a: nat, b: nat): nat
    requires a <= b <= |items|
  {
    if a == b then 0 else Bytes(items, a, b - 1) + items[b - 1].bytes
  }

  function Manifest(items: seq<Item>, a: nat, b: nat): nat
    requires a <= b <= |items|
  {
    if a == b then 0 else Manifest(items, a, b - 1) + items[b - 1].manifest
  }

  /** A group of two or more entries respects the three caps. */
  predicate Within(items: seq<Item>, caps: Caps, a: nat, b: nat)
    requires a < b <= |items|
  {
    b - a == 1 ||
    (b - a <= MAX_ENTRIES && Bytes(items, a, b) <= caps.target && Manifest(items, a, b) <= caps.manifest)
  }

  /** Two's complement 64-bit wrap-around. */
  function Wrap(x: int): int {
    var r := x % I64;
    if r < I63 then r else r - I64
  }

  /** The source's test: entry i joins the group opened at a. */
  predicate Joins(items: seq<Item>, caps: Caps, a: nat, i: nat)
    requires a < i < |items|
  {
    && i - a < MAX_ENTRIES
    && Wrap(Bytes(items, a, i + 1)) <= caps.target
    && Manifest(items, a, i + 1) <= caps.manifest
  }

  // ---- greedy grouping, for any joining test -------------------------------

  /** Where the group opened at a ends, given that it holds [a, b). */
  function Extend(joins: (nat, nat) -> bool, n: nat, a: nat, b: nat): (r: nat)
    requires a < b <= n
    ensures b <= r <= n
    ensures forall i: nat :: b <= i < r ==> joins(a, i)
    ensures r < n ==> !joins(a, r)
    decreases n - b
  {
    if b < n && joins(a, b) then Extend(joins, n, a, b + 1) else b
  }

  function Next(joins: (nat, nat) -> bool, n: nat, a: nat): (r: nat)
    requires a < n
    ensures a < r <= n
  {
    Extend(joins, n, a, a + 1)
  }

  /** Group starts from a on, and the closing sentinel n. */
  function Groups(joins: (nat, nat) -> bool, n: nat, a: nat): (r: seq<nat>)
    requires a <= n
    ensures r != [] && r[0] == a
    decreases n - a
  {
    if a == n then [n] else [a] + Groups(joins, n, Next(joins, n, a))
  }

  function CodeTest(items: seq<Item>, caps: Caps): (nat, nat) -> bool {
    (a: nat, i: nat) => a < i < |items| && Joins(items, caps, a, i)
  }

  function ExactTest(items: seq<Item>, caps: Caps): (nat, nat) -> bool {
    (a: nat, i: nat) => a < i < |items| && Within(items, caps, a, i + 1)
  }

  /** computeGroups. */
  function ComputeGroups(items: seq<Item>, caps: Caps): seq<nat> { Groups(CodeTest(items, caps), |items|, 0) }

  // ---- partitions ----------------------------------------------------------

  /** Non-empty contiguous ranges that cover [a, n). */
  predicate Partition(starts: seq<nat>, n: nat, a: nat) {
    && starts != [] && starts[0] == a && starts[|starts| - 1] == n
    && forall j :: 1 <= j < |starts| ==> starts[j - 1] < starts[j] <= n
  }

  predicate Obeys(items: seq<Item>, caps: Caps, starts: seq<nat>) {
    forall j :: 1 <= j < |starts| ==>
      starts[j - 1] < starts[j] <= |items| && Within(items, caps, starts[j - 1], starts[j])
  }

  lemma {:induction false} GroupsPartition(joins: (nat, nat) -> bool, n: nat, a: nat)
    requires a <= n
    ensures Partition(Groups(joins, n, a), n, a)
    decreases n - a
  {
    if a < n {
      GroupsPartition(joins, n, Next(joins, n, a));
    }
  }

  lemma {:induction false} SumGrows(items: seq<Item>, a: nat, b: nat, c: nat)
    requires a <= b <= c <= |items|
    ensures Bytes(items, a, b) <= Bytes(items, a, c) && Manifest(items, a, b) <= Manifest(items, a, c)
    ensures Bytes(items, b, c) <= Bytes(items, a, c) && Manifest(items, b, c) <= Manifest(items, a, c)
    decreases c
  {
    if b < c {
      SumGrows(items, a, b, c - 1);
    } else if a < b {
      SumGrows(items, a, b - 1, b - 1);
    }
  }

  /** A part of a group within the caps is within them. */
  lemma WithinPart(items: seq<Item>, caps: Caps, a: nat, b: nat, c: nat, d: nat)
    requires a <= b < c <= d <= |items| && Within(items, caps, a, d)
    ensures Within(items, caps, b, c)
  {
    SumGrows(items, a, b, d);
    SumGrows(items, b, c, d);
  }

  // ---- greedy is optimal ---------------------------------------------------

  /** The exact greedy group is within the caps, and no larger one is. */
  lemma NextIsLargest(items: seq<Item>, caps: Caps, a: nat)
    requires a < |items|
    ensures var r := Next(ExactTest(items, caps), |items|, a);
            Within(items, caps, a, r) && forall c :: r < c <= |items| ==> !Within(items, caps, a, c)
  {
    var r := Next(ExactTest(items, caps), |items|, a);
    if r > a + 1 {
      assert ExactTest(items, caps)(a, r - 1);
    }
    forall c | r < c <= |items|
      ensures !Within(items, caps, a, c)
    {
      if Within(items, caps, a, c) {
        WithinPart(items, caps, a, a, r + 1, c);
        assert false;
      }
    }
  }

  /** Against any partition obeying the caps that starts no further on, greedy needs
      no more groups. */
  lemma {:induction false} GreedyStaysAhead(items: seq<Item>, caps: Caps, a: nat, starts: seq<nat>, b: nat)
    requires b <= a <= |items| && Partition(starts, |items|, b)
    requires Obeys(items, caps, starts)
    ensures |Groups(ExactTest(items, caps), |items|, a)| <= |starts|
    decreases |starts|
  {
    var n := |items|;
    if a < n {
      var r := Next(ExactTest(items, caps), n, a);
      NextIsLargest(items, caps, a);
      var c := starts[1];
      if c > r {
        WithinPart(items, caps, b, a, c, c);
        assert false;
      }
      var rest := starts[1..];
      assert forall j :: 0 <= j < |rest| ==> rest[j] == starts[j + 1];
      GreedyStaysAhead(items, caps, r, rest, c);
    }
  }

  // ---- when the wrapping sum is exact --------------------------------------

  /** At every boundary of the exact grouping, the next entry is kept out by the
      entry or manifest cap, or its bytes added to the group's do not reach 2^63. */
  predicate NoOverflow(items: seq<Item>, caps: Caps, a: nat)
    requires a <= |items|
    decreases |items| - a
  {
    a == |items| ||
    var r := Next(ExactTest(items, caps), |items|, a);
    NoOverflow(items, caps, r) && (r < |items| ==> KeptOut(items, caps, a, r))
  }

  predicate KeptOut(items: seq<Item>, caps: Caps, a: nat, i: nat)
    requires a < i < |items|
  {
    i - a >= MAX_ENTRIES || Manifest(items, a, i + 1) > caps.manifest || Bytes(items, a, i + 1) < I63
  }

  /** Within the caps the wrapped sum is the sum. */
  lemma ExactMeansCode(items: seq<Item>, caps: Caps, a: nat, i: nat)
    requires a < i < |items| && caps.target < I63 && Within(items, caps, a, i + 1)
    ensures Joins(items, caps, a, i)
  {
  }

  /** Just past an exact group, the source's test differs exactly on overflow. */
  lemma CodePastExact(items: seq<Item>, caps: Caps, a: nat)
    requires Storable(items) && 0 < caps.target < I63 && a < |items|
    ensures var r := Next(ExactTest(items, caps), |items|, a);
            r < |items| ==> (Joins(items, caps, a, r) <==> !KeptOut(items, caps, a, r))
  {
    var r := Next(ExactTest(items, caps), |items|, a);
    NextIsLargest(items, caps, a);
    if r < |items| {
      assert Bytes(items, a, r) < I63 by {
        if r == a + 1 {
          assert Bytes(items, a, r) == Bytes(items, a, a) + items[a].bytes;
        }
      }
      assert Bytes(items, a, r + 1) < I64;
    }
  }

  lemma {:induction false} ExtendAgrees(items: seq<Item>, caps: Caps, a: nat, b: nat, r: nat)
    requires caps.target < I63 && a < b <= r <= |items| && Within(items, caps, a, r)
    ensures Extend(CodeTest(items, caps), |items|, a, b)
            == if r < |items| && !Joins(items, caps, a, r) then r else Extend(CodeTest(items, caps), |items|, a, r)
    decreases r - b
  {
    if b < r {
      WithinPart(items, caps, a, a, b + 1, r);
      ExactMeansCode(items, caps, a, b);
      ExtendAgrees(items, caps, a, b + 1, r);
    }
  }

  /** The code's grouping respects the caps exactly when no byte sum at a boundary
      overflows, and then it is the exact greedy grouping. */
  lemma {:induction false} CapsHoldIff(items: seq<Item>, caps: Caps, a: nat)
    requires Storable(items) && 0 < caps.target < I63 && a <= |items|
    ensures Obeys(items, caps, Groups(CodeTest(items, caps), |items|, a)) <==> NoOverflow(items, caps, a)
    ensures NoOverflow(items, caps, a) ==>
              Groups(CodeTest(items, caps), |items|, a) == Groups(ExactTest(items, caps), |items|, a)
    decreases |items| - a
  {
    var n := |items|;
    if a < n {
      var r := Next(ExactTest(items, caps), n, a);
      var c := Next(CodeTest(items, caps), n, a);
      NextIsLargest(items, caps, a);
      CodePastExact(items, caps, a);
      ExtendAgrees(items, caps, a, a + 1, r);
      var rest := Groups(CodeTest(items, caps), n, c);
      var all := Groups(CodeTest(items, caps), n, a);
      assert all == [a] + rest;
      if c == r {
        CapsHoldIff(items, caps, r);
        ObeysFirst(items, caps, a, rest);
      } else {
        assert all[1] == c;
      }
    }
  }

  lemma ObeysFirst(items: seq<Item>, caps: Caps, a: nat, rest: seq<nat>)
    requires rest != [] && a < rest[0] <= |items| && Within(items, caps, a, rest[0])
    ensures Obeys(items, caps, [a] + rest) <==> Obeys(items, caps, rest)
  {
    var all := [a] + rest;
    if Obeys(items, caps, all) {
      forall j | 1 <= j < |rest|
        ensures rest[j - 1] < rest[j] <= |items| && Within(items, caps, rest[j - 1], rest[j])
      {
        assert all[j] == rest[j - 1] && all[j + 1] == rest[j];
      }
    }
  }

  // ---- theorems ------------------------------------------------------------

  /** Groups partition the ids into non-empty contiguous ranges.  Every group of two
      or more entries respects the three caps exactly when no byte sum at a boundary
      overflows, and then no partition obeying the caps has fewer groups. */
  lemma GreedyIsOptimal(items: seq<Item>, caps: Caps, other: seq<nat>)
    requires Storable(items) && 0 < caps.target < I63
    ensures Partition(ComputeGroups(items, caps), |items|, 0)
    ensures Obeys(items, caps, ComputeGroups(items, caps)) <==> NoOverflow(items, caps, 0)
    ensures NoOverflow(items, caps, 0) && Partition(other, |items|, 0) && Obeys(items, caps, other) ==>
              |ComputeGroups(items, caps)| <= |other|
  {
    GroupsPartition(CodeTest(items, caps), |items|, 0);
    CapsHoldIff(items, caps, 0);
    if NoOverflow(items, caps, 0) && Partition(other, |items|, 0) && Obeys(items, caps, other) {
      GreedyStaysAhead(items, caps, 0, other, 0);
    }
  }

  /** No overflow when files and target stay below 2^62. */
  lemma {:induction false} SmallFilesNeverOverflow(items: seq<Item>, caps: Caps, a: nat)
    requires a <= |items| && caps.target < I63 / 2
    requires forall i :: 0 <= i < |items| ==> items[i].bytes < I63 / 2
    ensures NoOverflow(items, caps, a)
    decreases |items| - a
  {
    if a < |items| {
      var r := Next(ExactTest(items, caps), |items|, a);
      NextIsLargest(items, caps, a);
      SmallFilesNeverOverflow(items, caps, r);
      if r < |items| && r == a + 1 {
        assert Bytes(items, a, r) == Bytes(items, a, a) + items[a].bytes;
      }
    }
  }

  /** Two sparse files of 2^62 bytes share a group whatever the target. */
  lemma OverflowJoinsTwoHugeFiles(target: nat, manifest: nat)
    requires 0 < target < I63 && manifest >= 2
    ensures var items := [Item(I63 / 2, 1), Item(I63 / 2, 1)];
            ComputeGroups(items, Caps(target, manifest)) == [0, 2] && !NoOverflow(items, Caps(target, manifest), 0)
  {
    var items, caps := [Item(I63 / 2, 1), Item(I63 / 2, 1)], Caps(target, manifest);
    assert Bytes(items, 0, 1) == Bytes(items, 0, 0) + items[0].bytes;
    assert Bytes(items, 0, 2) == Bytes(items, 0, 1) + items[1].bytes;
    assert Manifest(items, 0, 1) == Manifest(items, 0, 0) + items[0].manifest;
    assert Manifest(items, 0, 2) == Manifest(items, 0, 1) + items[1].manifest;
    assert Joins(items, caps, 0, 1);
    assert CodeTest(items, caps)(0, 1);
    assert Next(CodeTest(items, caps), 2, 0) == 2;
    CapsHoldIff(items, caps, 0);
    var starts := Groups(CodeTest(items, caps), 2, 0);
    assert starts == [0] + Groups(CodeTest(items, caps), 2, 2);
    assert starts[1] == 2;
  }

  // ---- the code ------------------------------------------------------------

  /** After i entries: the groups opened so far lead to the goal, and the last one,
      opened at `open`, holds the entries up to i. */
  ghost predicate Packing(test: (nat, nat) -> bool, n: nat, starts: seq<nat>, open: nat, i: nat, goal: seq<nat>) {
    && open <= i <= n && starts != [] && starts[|starts| - 1] == open
    && goal == starts[..|starts| - 1] + Groups(test, n, open)
    && (open < i ==> Next(test, n, open) == Extend(test, n, open, i))
  }

  lemma PackingJoins(test: (nat, nat) -> bool, n: nat, starts: seq<nat>, open: nat, i: nat, goal: seq<nat>)
    requires Packing(test, n, starts, open, i, goal) && i < n && (i == open || test(open, i))
    ensures Packing(test, n, starts, open, i + 1, goal)
  {
  }

  lemma PackingCloses(test: (nat, nat) -> bool, n: nat, starts: seq<nat>, open: nat, i: nat, goal: seq<nat>)
    requires Packing(test, n, starts, open, i, goal) && open < i && (i < n ==> !test(open, i))
    ensures Packing(test, n, starts + [i], i, i, goal)
  {
    assert starts[..|starts| - 1] + ([open] + Groups(test, n, i)) == starts + Groups(test, n, i);
    assert (starts + [i])[..|starts|] == starts;
  }

  /** The test as the source computes it, from the running sums. */
  predicate Fits(item: Item, caps: Caps, count: nat, acc: int, manifest: nat) {
    count < MAX_ENTRIES && Wrap(acc + item.bytes) <= caps.target && manifest + item.manifest <= caps.manifest
  }

  ghost predicate Sums(items: seq<Item>, a: nat, i: nat, acc: int, manifest: nat)
    requires a <= i <= |items|
  {
    acc == Wrap(Bytes(items, a, i)) && manifest == Manifest(items, a, i)
  }

  lemma SourceTest(items: seq<Item>, caps: Caps, a: nat, i: nat, acc: int, manifest: nat)
    requires a <= i < |items| && Sums(items, a, i, acc, manifest)
    ensures a < i ==> (CodeTest(items, caps)(a, i) <==> Fits(items[i], caps, i - a, acc, manifest))
  {
    WrapAdd(Bytes(items, a, i), items[i].bytes);
  }

  lemma SumsGrow(items: seq<Item>, a: nat, i: nat, acc: int, manifest: nat)
    requires a <= i < |items| && Sums(items, a, i, acc, manifest)
    ensures Sums(items, a, i + 1, Wrap(acc + items[i].bytes), manifest + items[i].manifest)
  {
    WrapAdd(Bytes(items, a, i), items[i].bytes);
  }

  /** computeGroups' loop, with its wrapping accumulator. */
  method ComputeGroupStarts(items: seq<Item>, caps: Caps) returns (starts: seq<nat>)
    ensures starts == ComputeGroups(items, caps)
  {
    if |items| == 0 {
      return [0];
    }
    var n := |items|;
    ghost var test, goal, open := CodeTest(items, caps), ComputeGroups(items, caps), 0;
    starts := [0];
    assert [] + Groups(test, n, 0) == Groups(test, n, 0);
    var acc: int, manifest: nat, count: nat := 0, 0, 0;
    for i := 0 to n
      invariant Packing(test, n, starts, open, i, goal) && count == i - open && (i > 0 ==> count > 0)
      invariant Sums(items, open, i, acc, manifest)
    {
      SourceTest(items, caps, open, i, acc, manifest);
      if count > 0 && !Fits(items[i], caps, count, acc, manifest) {
        PackingCloses(test, n, starts, open, i, goal);
        starts := starts + [i];
        open := i;
        acc, manifest, count := 0, 0, 0;
      }
      PackingJoins(test, n, starts, open, i, goal);
      SumsGrow(items, open, i, acc, manifest);
      acc := Wrap(acc + items[i].bytes);
      manifest := manifest + items[i].manifest;
      count := count + 1;
    }
    PackingCloses(test, n, starts, open, n, goal);
    starts := starts + [n];
    assert starts[..|starts| - 1] + [n] == starts;
  }

  lemma WrapAdd(x: int, y: int)
    ensures Wrap(Wrap(x) + y) == Wrap(x + y)
  {
  }

  /** GroupID: the unique group whose range holds the id, or the number of groups for
      an id past the last. */
  method GroupId(starts: seq<nat>, n: nat, id: nat) returns (k: nat)
    requires Partition(starts, n, 0)
    ensures id < n ==> k < |starts| - 1 && starts[k] <= id < starts[k + 1]
    ensures id < n ==> forall j: nat :: j < |starts| - 1 && j != k ==> !(starts[j] <= id < starts[j + 1])
    ensures id >= n ==> k == |starts| - 1
  {
    var lo, hi := 0, |starts| - 1;
    while lo < hi
      invariant 0 <= lo <= hi <= |starts| - 1
      invariant starts[lo] <= id || lo == 0
      invariant hi < |starts| - 1 ==> id < starts[hi + 1]
    {
      var h := (lo + hi) / 2;
      if starts[h + 1] > id {
        hi := h;
      } else {
        lo := h + 1;
      }
    }
    k := lo;
    StartsAscend(starts, n);
  }

  lemma StartsAscend(starts: seq<nat>, n: nat)
    requires Partition(starts, n, 0)
    ensures forall i, j :: 0 <= i < j < |starts| ==> starts[i] < starts[j]
  {
    forall i, j | 0 <= i < j < |starts|
      ensures starts[i] < starts[j]
    {
      StartBefore(starts, n, i, j);
    }
  }

  lemma {:induction false} StartBefore(starts: seq<nat>, n: nat, i: nat, j: nat)
    requires Partition(starts, n, 0) && i < j < |starts|
    ensures starts[i] < starts[j]
    decreases j
  {
    assert starts[j - 1] < starts[j];
    if i < j - 1 {
      StartBefore(starts, n, i, j - 1);
    }
  }
}
