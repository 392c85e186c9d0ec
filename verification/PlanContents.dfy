/** What a plan holds, in terms of the system rules and the filters alone (internal/plan/plan.go):
    which entries stay, which exclusions are recorded and why, and in which order. */
module PlanContents {
  import opened Bytes
  import opened Choosing
  import opened Optional
  import opened Order
  import opened Plan
  import G = Grouping

  // ---- the rules -----------------------------------------------------------

  /** The system rules come first, unless system files are kept. */
  function SystemMatch(opts: Options, e: Entry): Option<Match> {
    if opts.keepSystemFiles then None else opts.system(ToSlash(opts, e.relPath), e.kind.Dir?)
  }

  function Filtered(opts: Options, e: Entry): Verdict { opts.admits(ToSlash(opts, e.relPath), e.kind.Dir?) }

  /** The entry's own name is against it. */
  predicate Refused(opts: Options, e: Entry) { SystemMatch(opts, e).Some? || !Filtered(opts, e).admit }

  /** It takes its subtree with it: the system rule says so, or else it is a directory
      that the filters refuse. */
  predicate TakesSubtree(opts: Options, d: Entry) {
    if SystemMatch(opts, d).Some? then SystemMatch(opts, d).value.prune else !Filtered(opts, d).admit && d.kind.Dir?
  }

  ghost predicate BeneathPruned(opts: Options, xs: seq<Entry>, e: Entry) {
    exists d :: d in xs && TakesSubtree(opts, d) && Beneath(ToSlash(opts, e.relPath), ToSlash(opts, d.relPath))
  }

  ghost function Stays(opts: Options, xs: seq<Entry>): Entry -> bool {
    (e: Entry) => !BeneathPruned(opts, xs, e) && !Refused(opts, e)
  }

  ghost function IsRecorded(opts: Options, xs: seq<Entry>): Entry -> bool {
    (e: Entry) => !BeneathPruned(opts, xs, e) && Refused(opts, e)
  }

  /** An excluded entry is recorded with the rule that refused it. */
  function Reason(opts: Options): Entry -> Exclusion {
    (e: Entry) =>
      if SystemMatch(opts, e).Some?
      then Exclusion(e.relPath, SystemMatch(opts, e).value.rule, SystemMatch(opts, e).value.prune)
      else Exclusion(e.relPath, Ascii("filter:") + Filtered(opts, e).rule, e.kind.Dir?)
  }

  /** An entry that stays is planned as it is, marked if its path is not valid UTF-8. */
  function AsPlanned(opts: Options): Entry -> Entry {
    (e: Entry) =>
      if opts.validUtf8(ToSlash(opts, e.relPath)) || (e.flags / 2) % 2 == 1 then e else e.(flags := e.flags + 2)
  }

  // ---- which entries -------------------------------------------------------

  lemma SameRules(opts: Options, xs: seq<Entry>, e: Entry)
    ensures UnderPruned(PrunedPaths(opts, xs), ToSlash(opts, e.relPath)) <==> BeneathPruned(opts, xs, e)
    ensures Classify(opts, e).Some? <==> Refused(opts, e)
    ensures Refused(opts, e) ==>
              Exclusion(e.relPath, Classify(opts, e).value.rule, Classify(opts, e).value.prune) == Reason(opts)(e)
  {
    assert forall d :: Prunes(opts, d) <==> TakesSubtree(opts, d);
    if BeneathPruned(opts, xs, e) {
      var d :| d in xs && TakesSubtree(opts, d) && Beneath(ToSlash(opts, e.relPath), ToSlash(opts, d.relPath));
      assert ToSlash(opts, d.relPath) in PrunedPaths(opts, xs);
    }
  }

  /** The exclusions are the refused entries that are not beneath a pruned directory, in
      the order of the input, each with its reason. */
  lemma ExcludedAre(opts: Options, xs: seq<Entry>)
    ensures Excluded(opts, xs) == Mapped(Reason(opts), Keep(IsRecorded(opts, xs), xs))
  {
    forall e | e in xs
      ensures Dropping(opts, PrunedPaths(opts, xs))(e) == if IsRecorded(opts, xs)(e) then Some(Reason(opts)(e)) else None
    {
      SameRules(opts, xs, e);
    }
    CollectIsMapped(Dropping(opts, PrunedPaths(opts, xs)), IsRecorded(opts, xs), Reason(opts), xs);
  }

  function KeyedAs(opts: Options): Entry -> Keyed<Entry> {
    (e: Entry) =>
      var slash := ToSlash(opts, e.relPath);
      Keyed(AsPlanned(opts)(e), if opts.validUtf8(slash) then opts.nfc(slash) else slash, slash)
  }

  lemma SurvivorsAre(opts: Options, xs: seq<Entry>)
    ensures Survivors(opts, xs) == Mapped(KeyedAs(opts), Keep(Stays(opts, xs), xs))
  {
    forall e | e in xs
      ensures Admission(opts, PrunedPaths(opts, xs))(e) == if Stays(opts, xs)(e) then Some(KeyedAs(opts)(e)) else None
    {
      SameRules(opts, xs, e);
    }
    CollectIsMapped(Admission(opts, PrunedPaths(opts, xs)), Stays(opts, xs), KeyedAs(opts), xs);
  }

  function ItemOf(): Keyed<Entry> -> Option<Entry> { (k: Keyed<Entry>) => Some(k.item) }

  lemma {:induction false} ItemsAre(ks: seq<Keyed<Entry>>)
    ensures Collect(ItemOf(), ks) == EntriesOf(ks)
  {
    if ks != [] {
      ItemsAre(ks[1..]);
      assert EntriesOf(ks) == [ks[0].item] + EntriesOf(ks[1..]);
    }
  }

  lemma {:induction false} MappedItems(opts: Options, es: seq<Entry>)
    ensures EntriesOf(Mapped(KeyedAs(opts), es)) == Mapped(AsPlanned(opts), es)
  {
    if es != [] {
      MappedItems(opts, es[1..]);
      var ks := Mapped(KeyedAs(opts), es);
      assert EntriesOf(ks) == [ks[0].item] + EntriesOf(ks[1..]);
    }
  }

  lemma SortedItems(ks: seq<Keyed<Entry>>)
    ensures multiset(EntriesOf(Sort(ks))) == multiset(EntriesOf(ks))
  {
    SortPermutes(ks);
    CollectPermutes(ItemOf(), Sort(ks), ks);
    ItemsAre(ks);
    ItemsAre(Sort(ks));
  }

  /** The plan holds exactly the entries that are not beneath a pruned directory and that
      neither the system rules nor the filters refuse, as often as the input does; its
      exclusions are exactly the refused ones not beneath a pruned directory, with the
      system rule where there is one and the filter's otherwise. */
  lemma PlanHolds(opts: Options, xs: seq<Entry>)
    requires opts.filtersValid
    ensures var p := Build(opts, xs).plan;
            && multiset(p.entries) == multiset(Mapped(AsPlanned(opts), Keep(Stays(opts, xs), xs)))
            && p.exclusions == Mapped(Reason(opts), Keep(IsRecorded(opts, xs), xs))
            && p.excludedCount == |p.exclusions| % U64
  {
    SurvivorsAre(opts, xs);
    ExcludedAre(opts, xs);
    MappedItems(opts, Keep(Stays(opts, xs), xs));
    SortedItems(Survivors(opts, xs));
  }

  /** Whether an entry stays is a matter of its path and kind. */
  lemma SamePathSameFate(opts: Options, xs: seq<Entry>, e: Entry, d: Entry)
    requires AsPlanned(opts)(e) == AsPlanned(opts)(d)
    ensures Stays(opts, xs)(e) <==> Stays(opts, xs)(d)
  {
    assert e.relPath == d.relPath && e.kind == d.kind;
  }

  /** An entry of the input is in the plan exactly when it is not beneath a pruned
      directory, no system rule matches it and the filters admit it. */
  lemma InPlanIff(opts: Options, xs: seq<Entry>, e: Entry)
    requires opts.filtersValid && e in xs
    ensures AsPlanned(opts)(e) in Build(opts, xs).plan.entries
            <==> !BeneathPruned(opts, xs, e) && (opts.keepSystemFiles || SystemMatch(opts, e) == None) && Filtered(opts, e).admit
  {
    var kept := Keep(Stays(opts, xs), xs);
    var y := AsPlanned(opts)(e);
    PlanHolds(opts, xs);
    assert y in Build(opts, xs).plan.entries <==> y in multiset(Mapped(AsPlanned(opts), kept));
    InMapped(AsPlanned(opts), kept, y);
    Kept(Stays(opts, xs), xs, e);
    if y in Mapped(AsPlanned(opts), kept) {
      var i :| 0 <= i < |kept| && AsPlanned(opts)(kept[i]) == y;
      Kept(Stays(opts, xs), xs, kept[i]);
      SamePathSameFate(opts, xs, e, kept[i]);
    }
  }

  // ---- order and ids -------------------------------------------------------

  function SlashOf(opts: Options, e: Entry): seq<byte> { ToSlash(opts, e.relPath) }

  /** The normal form of the path if it is valid UTF-8, the path itself otherwise. */
  function KeyOf(opts: Options, e: Entry): seq<byte> {
    if opts.validUtf8(SlashOf(opts, e)) then opts.nfc(SlashOf(opts, e)) else SlashOf(opts, e)
  }

  /** Entries in the order of their keys, ties broken by the path; ids are positions, and
      a key stands for the first entry that has it. */
  ghost predicate InOrder(opts: Options, p: Plan) {
    && |p.keys| == |p.entries|
    && (forall i :: 0 <= i < |p.keys| ==> p.keys[i] == KeyOf(opts, p.entries[i]))
    && (forall i, j :: 0 <= i < j < |p.keys| ==>
          Less(p.keys[i], p.keys[j])
          || (p.keys[i] == p.keys[j] && Less(SlashOf(opts, p.entries[i]), SlashOf(opts, p.entries[j]))))
    && (forall k :: k in p.idByKey ==> p.idByKey[k] < |p.keys| && p.keys[p.idByKey[k]] == k)
    && (forall i :: 0 <= i < |p.keys| ==> p.keys[i] in p.idByKey && p.idByKey[p.keys[i]] <= i)
  }

  lemma {:induction false} IdsAreFirst(keys: seq<seq<byte>>)
    ensures var m := IdByKey(keys);
            && (forall k :: k in m ==> m[k] < |keys| && keys[m[k]] == k)
            && (forall i :: 0 <= i < |keys| ==> keys[i] in m && m[keys[i]] <= i)
  {
    if keys != [] {
      var front := keys[..|keys| - 1];
      IdsAreFirst(front);
      forall i | 0 <= i < |keys|
        ensures keys[i] in IdByKey(keys) && IdByKey(keys)[keys[i]] <= i
      {
        assert i < |front| ==> front[i] == keys[i];
      }
    }
  }

  /** Every key belongs to its entry. */
  ghost predicate Matches(opts: Options, k: Keyed<Entry>) {
    k.path == SlashOf(opts, k.item) && k.key == KeyOf(opts, k.item)
  }

  lemma KeyedMatches(opts: Options, e: Entry)
    ensures Matches(opts, KeyedAs(opts)(e))
  {
    var y := AsPlanned(opts)(e);
    assert y.relPath == e.relPath;
    assert KeyedAs(opts)(e).item == y;
    assert SlashOf(opts, y) == ToSlash(opts, e.relPath);
  }

  lemma {:induction false} MappedMatch(opts: Options, es: seq<Entry>)
    ensures forall i :: 0 <= i < |Mapped(KeyedAs(opts), es)| ==> Matches(opts, Mapped(KeyedAs(opts), es)[i])
  {
    if es != [] {
      MappedMatch(opts, es[1..]);
      var ks := Mapped(KeyedAs(opts), es);
      KeyedMatches(opts, es[0]);
      assert forall i :: 0 < i < |ks| ==> ks[i] == ks[1..][i - 1];
    }
  }

  lemma SortedMatch(opts: Options, ks: seq<Keyed<Entry>>)
    requires forall i :: 0 <= i < |ks| ==> Matches(opts, ks[i])
    ensures forall i :: 0 <= i < |Sort(ks)| ==> Matches(opts, Sort(ks)[i])
  {
    SortPermutes(ks);
    forall i | 0 <= i < |Sort(ks)|
      ensures Matches(opts, Sort(ks)[i])
    {
      assert Sort(ks)[i] in multiset(ks);
    }
  }

  /** The plan of distinct paths is in order. */
  lemma PlanInOrder(opts: Options, xs: seq<Entry>)
    requires opts.filtersValid && DistinctPathsOf(opts, xs)
    ensures InOrder(opts, Build(opts, xs).plan)
  {
    var ks := Survivors(opts, xs);
    SurvivorsAre(opts, xs);
    MappedMatch(opts, Keep(Stays(opts, xs), xs));
    SortedMatch(opts, ks);
    SurvivorsDistinct(Admission(opts, PrunedPaths(opts, xs)), opts, xs);
    SortAscending(ks);
    IdsAreFirst(KeysOf(Sort(ks)));
    SortedInOrder(opts, Sort(ks), Build(opts, xs).plan);
  }

  lemma SortedInOrder(opts: Options, ks: seq<Keyed<Entry>>, p: Plan)
    requires Ascending(ks) && forall i :: 0 <= i < |ks| ==> Matches(opts, ks[i])
    requires p.entries == EntriesOf(ks) && p.keys == KeysOf(ks) && p.idByKey == IdByKey(KeysOf(ks))
    ensures InOrder(opts, p)
  {
    IdsAreFirst(KeysOf(ks));
    forall i, j | 0 <= i < j < |p.keys|
      ensures Less(p.keys[i], p.keys[j])
              || (p.keys[i] == p.keys[j] && Less(SlashOf(opts, p.entries[i]), SlashOf(opts, p.entries[j])))
    {
      assert Before(ks[i], ks[j]);
    }
  }

  // ---- groups, in terms of the entries -------------------------------------

  /** Only regular files have bytes. */
  function RegularBytes(es: seq<Entry>, a: nat, b: nat): nat
    requires a <= b <= |es|
  {
    if a == b then 0 else RegularBytes(es, a, b - 1) + (if es[b - 1].kind.File? then es[b - 1].size else 0)
  }

  /** 30 bytes of fixed fields, the path, 64 for a file's digest, a link target with its
      length, and a hard-link key. */
  function EstimatedBytes(es: seq<Entry>, a: nat, b: nat): nat
    requires a <= b <= |es|
  {
    if a == b then 0
    else
      var e := es[b - 1];
      EstimatedBytes(es, a, b - 1) + 30 + |e.relPath|
      + (match e.kind case File => 64 case Dir => 0 case Symlink => 2 + |e.linkTarget|)
      + (if e.flags % 2 == 1 then 8 else 0)
  }

  lemma {:induction false} SameSums(es: seq<Entry>, a: nat, b: nat)
    requires a <= b <= |es|
    ensures G.Bytes(Items(es), a, b) == RegularBytes(es, a, b) && G.Manifest(Items(es), a, b) == EstimatedBytes(es, a, b)
  {
    if a < b {
      SameSums(es, a, b - 1);
    }
  }

  /** Every group has one entry, or at most 1024 with at most `target` bytes of regular
      files and an estimated manifest within the control-channel budget. */
  ghost predicate Packed(es: seq<Entry>, target: nat, starts: seq<nat>) {
    forall j :: 1 <= j < |starts| ==>
      && starts[j - 1] < starts[j] <= |es|
      && (starts[j] == starts[j - 1] + 1
          || (&& starts[j] - starts[j - 1] <= 1024
              && RegularBytes(es, starts[j - 1], starts[j]) <= target
              && EstimatedBytes(es, starts[j - 1], starts[j]) <= MAX_MANIFEST_ENTRY_BYTES))
  }

  lemma PackedIsObeys(opts: Options, es: seq<Entry>, starts: seq<nat>)
    ensures Packed(es, CapsOf(opts).target, starts) <==> G.Obeys(Items(es), CapsOf(opts), starts)
  {
    forall j | 1 <= j < |starts| && starts[j - 1] < starts[j] <= |es|
      ensures G.Bytes(Items(es), starts[j - 1], starts[j]) == RegularBytes(es, starts[j - 1], starts[j])
      ensures G.Manifest(Items(es), starts[j - 1], starts[j]) == EstimatedBytes(es, starts[j - 1], starts[j])
    {
      SameSums(es, starts[j - 1], starts[j]);
    }
  }

  /** The plan's groups: a partition of its entries, packed exactly when no byte sum
      overflows, and then no packed partition has fewer groups. */
  lemma PlanPacksBest(opts: Options, xs: seq<Entry>, other: seq<nat>)
    requires opts.filtersValid && opts.groupBytes < G.I63
    requires forall e :: e in Build(opts, xs).plan.entries ==> e.size < G.I63
    ensures var p := Build(opts, xs).plan;
            var target := if opts.groupBytes <= 0 then 512 * 0x10_0000 else opts.groupBytes;
            && G.Partition(p.groupStart, |p.entries|, 0)
            && (Packed(p.entries, target, p.groupStart) <==> G.NoOverflow(Items(p.entries), CapsOf(opts), 0))
            && (Packed(p.entries, target, p.groupStart) && Packed(p.entries, target, other)
                && G.Partition(other, |p.entries|, 0) ==>
                  |p.groupStart| <= |other|)
  {
    var es := Build(opts, xs).plan.entries;
    G.GreedyIsOptimal(Items(es), CapsOf(opts), other);
    PackedIsObeys(opts, es, G.ComputeGroups(Items(es), CapsOf(opts)));
    PackedIsObeys(opts, es, other);
  }

  // ---- totals --------------------------------------------------------------

  function IsRegular(): Entry -> bool { (e: Entry) => e.kind.File? }

  lemma {:induction false} KeepAppend(p: Entry -> bool, xs: seq<Entry>, x: Entry)
    ensures Keep(p, xs + [x]) == Keep(p, xs) + (if p(x) then [x] else [])
  {
    if xs == [] {
      assert xs + [x] == [x] && [x][1..] == [];
    } else {
      assert (xs + [x])[1..] == xs[1..] + [x];
      KeepAppend(p, xs[1..], x);
    }
  }

  lemma {:induction false} FilesCounted(es: seq<Entry>)
    ensures FileCount(es) == |Keep(IsRegular(), es)| && FileBytes(es) == RegularBytes(es, 0, |es|)
  {
    if es != [] {
      var front := es[..|es| - 1];
      FilesCounted(front);
      assert es == front + [es[|es| - 1]];
      KeepAppend(IsRegular(), front, es[|es| - 1]);
      PrefixBytes(es, |es| - 1);
    }
  }

  lemma {:induction false} PrefixBytes(es: seq<Entry>, n: nat)
    requires n <= |es|
    ensures RegularBytes(es[..n], 0, n) == RegularBytes(es, 0, n)
    decreases n
  {
    if n > 0 {
      PrefixBytes(es, n - 1);
      PrefixBytes(es[..n], n - 1);
      assert es[..n][..n - 1] == es[..n - 1];
    }
  }

  /** The totals count the regular files of the plan and their bytes, in 64 bits. */
  lemma TotalsAreOfFiles(opts: Options, xs: seq<Entry>)
    requires opts.filtersValid
    ensures var p := Build(opts, xs).plan;
            && p.totalFiles == |Keep(IsRegular(), p.entries)| % U64
            && p.totalBytes == RegularBytes(p.entries, 0, |p.entries|) % U64
  {
    FilesCounted(Build(opts, xs).plan.entries);
  }
}
