/** Plan construction (internal/plan/plan.go): exclusion with subtree pruning in two
    passes, ordering, grouping, totals and the plan digest.  The filter matcher, the
    system-file rules, UTF-8 validity, NFC and SHA-256 are uninterpreted functions. */
module Plan {
  import opened Bytes
  import opened Choosing
  import opened Optional
  import opened Order
  import G = Grouping
  import W = Frame

  datatype Kind = File | Dir | Symlink

  datatype Entry = Entry(
    relPath: seq<byte>, kind: Kind, flags: nat, size: nat, mode: nat, mtimeSec: int, mtimeNsec: nat,
    dev: nat, ino: nat, linkTarget: seq<byte>, hardlinkKey: nat)

  /** A system-file match: its rule, and whether the subtree goes too. */
  datatype Match = Match(rule: seq<byte>, prune: bool)

  datatype Verdict = Verdict(admit: bool, rule: seq<byte>)

  /** `system` and `admits` see the slash path and whether it is a directory. */
  datatype Options = Options(
    filtersValid: bool,
    keepSystemFiles: bool,
    system: (seq<byte>, bool) -> Option<Match>,
    admits: (seq<byte>, bool) -> Verdict,
    signature: seq<byte>,
    groupBytes: int,
    separator: byte,
    validUtf8: seq<byte> -> bool,
    nfc: seq<byte> -> seq<byte>,
    sha: seq<byte> -> seq<byte>)

  datatype Exclusion = Exclusion(path: seq<byte>, rule: seq<byte>, prune: bool)

  datatype Plan = Plan(
    entries: seq<Entry>,
    keys: seq<seq<byte>>,
    idByKey: map<seq<byte>, nat>,
    groupStart: seq<nat>,
    exclusions: seq<Exclusion>,
    digest: seq<byte>,
    totalFiles: nat,
    totalBytes: nat,
    excludedCount: nat)

  datatype Result = Built(plan: Plan) | BadFilters

  const SLASH: byte := 47

  // ---- classification ------------------------------------------------------

  function ToSlash(opts: Options, p: seq<byte>): (r: seq<byte>)
    ensures |r| == |p|
  {
    seq(|p|, i requires 0 <= i < |p| => if p[i] == opts.separator then SLASH else p[i])
  }

  /** Why an entry's own name drops it, and whether its subtree goes too. */
  function Classify(opts: Options, e: Entry): Option<Match> {
    var slash := ToSlash(opts, e.relPath);
    var sys := if opts.keepSystemFiles then None else opts.system(slash, e.kind.Dir?);
    if sys.Some? then sys
    else
      var v := opts.admits(slash, e.kind.Dir?);
      if v.admit then None else Some(Match(Ascii("filter:") + v.rule, e.kind.Dir?))
  }

  function Ascii(s: string): seq<byte> {
    seq(|s|, i requires 0 <= i < |s| => (s[i] as int % 256) as byte)
  }

  predicate Prunes(opts: Options, e: Entry) { Classify(opts, e).Some? && Classify(opts, e).value.prune }

  function PrunedPaths(opts: Options, entries: seq<Entry>): set<seq<byte>> {
    set e | e in entries && Prunes(opts, e) :: ToSlash(opts, e.relPath)
  }

  /** Strictly beneath directory q. */
  predicate Beneath(p: seq<byte>, q: seq<byte>) { |q| < |p| && p[|q|] == SLASH && p[..|q|] == q }

  ghost predicate UnderPruned(pruned: set<seq<byte>>, slash: seq<byte>) { exists q :: q in pruned && Beneath(slash, q) }

  function Flagged(opts: Options, slash: seq<byte>, e: Entry): Entry {
    if !opts.validUtf8(slash) && (e.flags / 2) % 2 == 0 then e.(flags := e.flags + 2) else e
  }

  function OrderingKey(opts: Options, slash: seq<byte>): seq<byte> {
    if opts.validUtf8(slash) then opts.nfc(slash) else slash
  }

  /** Pass 2, for an entry that stays and for one that is recorded as excluded. */
  ghost function Admission(opts: Options, pruned: set<seq<byte>>): Entry -> Option<Keyed<Entry>> {
    (e: Entry) =>
      var slash := ToSlash(opts, e.relPath);
      if UnderPruned(pruned, slash) || Classify(opts, e).Some? then None
      else Some(Keyed(Flagged(opts, slash, e), OrderingKey(opts, slash), slash))
  }

  ghost function Dropping(opts: Options, pruned: set<seq<byte>>): Entry -> Option<Exclusion> {
    (e: Entry) =>
      var own := Classify(opts, e);
      if UnderPruned(pruned, ToSlash(opts, e.relPath)) || own.None? then None
      else Some(Exclusion(e.relPath, own.value.rule, own.value.prune))
  }

  // ---- what the ordered entries determine ----------------------------------

  function EntriesOf(ks: seq<Keyed<Entry>>): (r: seq<Entry>)
    ensures |r| == |ks|
  {
    seq(|ks|, i requires 0 <= i < |ks| => ks[i].item)
  }

  function KeysOf(ks: seq<Keyed<Entry>>): (r: seq<seq<byte>>)
    ensures |r| == |ks|
  {
    seq(|ks|, i requires 0 <= i < |ks| => ks[i].key)
  }

  function FileCount(es: seq<Entry>): nat {
    if es == [] then 0 else FileCount(es[..|es| - 1]) + (if es[|es| - 1].kind.File? then 1 else 0)
  }

  function FileBytes(es: seq<Entry>): nat {
    if es == [] then 0 else FileBytes(es[..|es| - 1]) + (if es[|es| - 1].kind.File? then es[|es| - 1].size else 0)
  }

  /** The first id with each key. */
  function IdByKey(keys: seq<seq<byte>>): map<seq<byte>, nat> {
    if keys == [] then map[]
    else
      var n := |keys| - 1;
      var m := IdByKey(keys[..n]);
      if keys[n] in m then m else m[keys[n] := n]
  }

  const DIGEST_PREAMBLE: seq<byte> :=
    Ascii("esync/v1 manifest") + BigEndian(2, 2) + Ascii("md5") + BigEndian(0, 4) + BigEndian(0, 4)

  function KindCode(k: Kind): nat { match k case File => 0 case Dir => 1 case Symlink => 2 }

  function DigestEntry(e: Entry, key: seq<byte>): seq<byte> {
    BigEndian(|key|, 4) + key + BigEndian(KindCode(e.kind), 1) + BigEndian(e.size, 8)
    + BigEndian(e.mtimeSec % U64, 8) + BigEndian(e.mtimeNsec, 4)
  }

  function DigestEntries(es: seq<Entry>, keys: seq<seq<byte>>): seq<byte>
    requires |es| == |keys|
  {
    if es == [] then []
    else var n := |es| - 1; DigestEntries(es[..n], keys[..n]) + DigestEntry(es[n], keys[n])
  }

  function DigestInput(opts: Options, es: seq<Entry>, keys: seq<seq<byte>>): seq<byte>
    requires |es| == |keys|
  {
    DIGEST_PREAMBLE + opts.signature + Ascii("sys-v1") + DigestEntries(es, keys)
  }

  function EntrySize(pathLen: nat, digestLen: nat, symlink: bool, linkLen: nat, hardlink: bool): nat {
    30 + pathLen + digestLen + (if symlink then 2 + linkLen else 0) + (if hardlink then 8 else 0)
  }

  /** The planner's estimate of an encoded manifest entry: a file's digest is not
      known yet and counts as the longest there may be. */
  function ManifestEstimate(e: Entry): nat {
    EntrySize(|e.relPath|, if e.kind.File? then W.MAX_DIGEST else 0, e.kind.Symlink?,
              if e.kind.Symlink? then |e.linkTarget| else 0, e.flags % 2 == 1)
  }

  function ItemOf(e: Entry): G.Item { G.Item(if e.kind.File? then e.size else 0, ManifestEstimate(e)) }

  function Items(es: seq<Entry>): (r: seq<G.Item>)
    ensures |r| == |es|
  {
    seq(|es|, i requires 0 <= i < |es| => ItemOf(es[i]))
  }

  /** MaxCTControl less a pad block, the safety margin, the frame header and the fixed
      fields of GROUP_MANIFEST. */
  const MAX_MANIFEST_ENTRY_BYTES: nat := 0x8_0000 + 16 - 16 - 4096 - 5 - 14

  function CapsOf(opts: Options): G.Caps { G.Caps(G.GroupTarget(opts.groupBytes), MAX_MANIFEST_ENTRY_BYTES) }

  function Assemble(opts: Options, ks: seq<Keyed<Entry>>, exclusions: seq<Exclusion>): Plan {
    var es, keys := EntriesOf(ks), KeysOf(ks);
    Plan(es, keys, IdByKey(keys), G.ComputeGroups(Items(es), CapsOf(opts)), exclusions,
         opts.sha(DigestInput(opts, es, keys)), FileCount(es) % U64, FileBytes(es) % U64, |exclusions| % U64)
  }

  ghost function Survivors(opts: Options, entries: seq<Entry>): seq<Keyed<Entry>> {
    Collect(Admission(opts, PrunedPaths(opts, entries)), entries)
  }

  ghost function Excluded(opts: Options, entries: seq<Entry>): seq<Exclusion> {
    Collect(Dropping(opts, PrunedPaths(opts, entries)), entries)
  }

  ghost function Build(opts: Options, entries: seq<Entry>): Result {
    if !opts.filtersValid then BadFilters
    else Built(Assemble(opts, Sort(Survivors(opts, entries)), Excluded(opts, entries)))
  }

  // ---- a function of the entry set -----------------------------------------

  ghost predicate DistinctPathsOf(opts: Options, entries: seq<Entry>) {
    forall i, j :: 0 <= i < j < |entries| ==> ToSlash(opts, entries[i].relPath) != ToSlash(opts, entries[j].relPath)
  }

  lemma SamePruned(opts: Options, xs: seq<Entry>, ys: seq<Entry>)
    requires multiset(xs) == multiset(ys)
    ensures PrunedPaths(opts, xs) == PrunedPaths(opts, ys)
  {
    assert forall e :: e in xs <==> e in multiset(xs);
    assert forall e :: e in ys <==> e in multiset(ys);
  }

  lemma {:induction false} AdmittedFrom(f: Entry -> Option<Keyed<Entry>>, opts: Options, xs: seq<Entry>, j: nat)
    returns (i: nat)
    requires forall e :: f(e).Some? ==> f(e).value.path == ToSlash(opts, e.relPath)
    requires j < |Collect(f, xs)|
    ensures i < |xs| && f(xs[i]) == Some(Collect(f, xs)[j])
  {
    if f(xs[0]).Some? && j == 0 {
      i := 0;
    } else {
      i := AdmittedFrom(f, opts, xs[1..], if f(xs[0]).Some? then j - 1 else j);
      i := i + 1;
    }
  }

  /** Survivors of distinct paths have distinct paths. */
  lemma {:induction false} SurvivorsDistinct(f: Entry -> Option<Keyed<Entry>>, opts: Options, xs: seq<Entry>)
    requires forall e :: f(e).Some? ==> f(e).value.path == ToSlash(opts, e.relPath)
    requires DistinctPathsOf(opts, xs)
    ensures DistinctPaths(Collect(f, xs))
  {
    if xs != [] {
      SurvivorsDistinct(f, opts, xs[1..]);
      var rest := Collect(f, xs[1..]);
      if f(xs[0]).Some? {
        forall j | 0 <= j < |rest|
          ensures f(xs[0]).value.path != rest[j].path
        {
          var i := AdmittedFrom(f, opts, xs[1..], j);
          assert xs[1..][i] == xs[i + 1];
        }
      }
    }
  }

  /** For distinct paths, any permutation of the input gives the same plan: entries,
      keys, ids, groups, digest and totals are equal, and the exclusions are the same
      ones, in the order of the input. */
  lemma OrderOfInputIrrelevant(opts: Options, xs: seq<Entry>, ys: seq<Entry>)
    requires multiset(xs) == multiset(ys) && DistinctPathsOf(opts, xs)
    ensures match Build(opts, xs)
            case BadFilters => Build(opts, ys) == BadFilters
            case Built(p) =>
              && Build(opts, ys).Built?
              && var q := Build(opts, ys).plan;
                 q.(exclusions := []) == p.(exclusions := []) && multiset(q.exclusions) == multiset(p.exclusions)
  {
    SamePruned(opts, xs, ys);
    var pruned := PrunedPaths(opts, xs);
    CollectPermutes(Admission(opts, pruned), xs, ys);
    CollectPermutes(Dropping(opts, pruned), xs, ys);
    SurvivorsDistinct(Admission(opts, pruned), opts, xs);
    var a, b := Survivors(opts, xs), Survivors(opts, ys);
    DistinctKept(a, b);
    SortAscending(a);
    SortAscending(b);
    AscendingUnique(Sort(a), Sort(b));
    var e, f := Excluded(opts, xs), Excluded(opts, ys);
    assert |e| == |multiset(e)| == |multiset(f)| == |f|;
  }

  /** The entries recorded as excluded, in the order of the input. */
  ghost function Recorded(opts: Options, entries: seq<Entry>): seq<Entry> {
    Keep(Yields(Dropping(opts, PrunedPaths(opts, entries))), entries)
  }

  lemma DistinctAreInjective(opts: Options, pruned: set<seq<byte>>, xs: seq<Entry>)
    requires DistinctPathsOf(opts, xs)
    ensures InjectiveOn(Dropping(opts, pruned), xs)
  {
    forall x, y | x in xs && y in xs && Dropping(opts, pruned)(x).Some? && Dropping(opts, pruned)(x) == Dropping(opts, pruned)(y)
      ensures x == y
    {
      var i :| 0 <= i < |xs| && xs[i] == x;
      var j :| 0 <= j < |xs| && xs[j] == y;
      assert x.relPath == y.relPath;
    }
  }

  /** Exactly when a permutation of the input gives the same plan, its exclusions
      included: when the entries recorded as excluded come in the same order. */
  lemma SamePlanIff(opts: Options, xs: seq<Entry>, ys: seq<Entry>)
    requires multiset(xs) == multiset(ys) && DistinctPathsOf(opts, xs) && opts.filtersValid
    ensures Build(opts, xs) == Build(opts, ys) <==> Recorded(opts, xs) == Recorded(opts, ys)
  {
    OrderOfInputIrrelevant(opts, xs, ys);
    SamePruned(opts, xs, ys);
    var pruned := PrunedPaths(opts, xs);
    DistinctAreInjective(opts, pruned, xs);
    assert forall y :: y in ys ==> y in multiset(ys);
    CollectInjective(Dropping(opts, pruned), xs, ys);
    var p, q := Build(opts, xs).plan, Build(opts, ys).plan;
    assert p == q <==> p.exclusions == q.exclusions;
  }

  /** Options that exclude every entry by a filter. */
  function ExcludeAll(): Options {
    Options(true, true, (p: seq<byte>, d: bool) => None, (p: seq<byte>, d: bool) => Verdict(false, []), [], 0, SLASH,
            (p: seq<byte>) => true, (p: seq<byte>) => p, (b: seq<byte>) => [])
  }

  function FileNamed(name: byte): Entry { Entry([name], File, 0, 0, 0, 0, 0, 0, 0, [], 0) }

  /** Two excluded files in the other order: the same entry set, another plan. */
  lemma ExclusionsFollowTheInput()
    ensures var a, b := FileNamed(97), FileNamed(98);
            Build(ExcludeAll(), [a, b]) != Build(ExcludeAll(), [b, a])
  {
    var opts, a, b := ExcludeAll(), FileNamed(97), FileNamed(98);
    NothingPruned([a, b]);
    NothingPruned([b, a]);
    var drop := Dropping(opts, {});
    FirstExcluded(a, b);
    FirstExcluded(b, a);
  }

  lemma NothingPruned(xs: seq<Entry>)
    requires forall e :: e in xs ==> e.kind.File?
    ensures PrunedPaths(ExcludeAll(), xs) == {}
  {
  }

  lemma FirstExcluded(a: Entry, b: Entry)
    requires a.kind.File? && b.kind.File?
    ensures var ex := Excluded(ExcludeAll(), [a, b]); ex != [] && ex[0].path == a.relPath
  {
    NothingPruned([a, b]);
    assert Dropping(ExcludeAll(), {})(a).Some?;
  }

  // ---- pruned subtrees -----------------------------------------------------

  lemma BeneathTransitive(p: seq<byte>, q: seq<byte>, r: seq<byte>)
    requires Beneath(p, q) && Beneath(q, r)
    ensures Beneath(p, r)
  {
    assert p[..|r|] == p[..|q|][..|r|];
    assert p[|r|] == p[..|q|][|r|];
  }

  function Outside(opts: Options, root: seq<byte>): Entry -> bool {
    (e: Entry) => !Beneath(ToSlash(opts, e.relPath), root)
  }

  /** Leaving out what lies beneath a pruned directory changes no verdict about what
      does not. */
  lemma SameVerdict(opts: Options, root: seq<byte>, xs: seq<Entry>, slash: seq<byte>)
    requires !Beneath(slash, root)
    ensures UnderPruned(PrunedPaths(opts, xs), slash)
            <==> UnderPruned(PrunedPaths(opts, Keep(Outside(opts, root), xs)), slash)
  {
    var kept := Keep(Outside(opts, root), xs);
    if UnderPruned(PrunedPaths(opts, xs), slash) {
      var q :| q in PrunedPaths(opts, xs) && Beneath(slash, q);
      var e :| e in xs && Prunes(opts, e) && ToSlash(opts, e.relPath) == q;
      if Beneath(q, root) {
        BeneathTransitive(slash, q, root);
        assert false;
      }
      Kept(Outside(opts, root), xs, e);
      assert q in PrunedPaths(opts, kept);
    }
    if UnderPruned(PrunedPaths(opts, kept), slash) {
      var q :| q in PrunedPaths(opts, kept) && Beneath(slash, q);
      var e :| e in kept && Prunes(opts, e) && ToSlash(opts, e.relPath) == q;
      Kept(Outside(opts, root), xs, e);
      assert q in PrunedPaths(opts, xs);
    }
  }

  /** Build sees only what is not beneath a present pruned directory. */
  lemma BuildOfRest(opts: Options, dir: Entry, xs: seq<Entry>)
    requires dir in xs && Prunes(opts, dir)
    ensures var rest := Keep(Outside(opts, ToSlash(opts, dir.relPath)), xs);
            Survivors(opts, xs) == Survivors(opts, rest) && Excluded(opts, xs) == Excluded(opts, rest)
  {
    var root := ToSlash(opts, dir.relPath);
    var rest := Keep(Outside(opts, root), xs);
    var all, some := PrunedPaths(opts, xs), PrunedPaths(opts, rest);
    assert root in all;
    CollectSkips(Admission(opts, all), Outside(opts, root), xs);
    CollectSkips(Dropping(opts, all), Outside(opts, root), xs);
    forall e | e in rest
      ensures Admission(opts, all)(e) == Admission(opts, some)(e) && Dropping(opts, all)(e) == Dropping(opts, some)(e)
    {
      Kept(Outside(opts, root), xs, e);
      SameVerdict(opts, root, xs, ToSlash(opts, e.relPath));
    }
    CollectAgrees(Admission(opts, all), Admission(opts, some), rest);
    CollectAgrees(Dropping(opts, all), Dropping(opts, some), rest);
  }

  /** Adding or removing entries beneath a pruned directory that is itself present,
      further excluded directories among them, changes nothing in the plan. */
  lemma PrunedSubtreeIrrelevant(opts: Options, dir: Entry, xs: seq<Entry>, ys: seq<Entry>)
    requires dir in xs && dir in ys && Prunes(opts, dir)
    requires var outside := Outside(opts, ToSlash(opts, dir.relPath)); Keep(outside, xs) == Keep(outside, ys)
    ensures Build(opts, xs) == Build(opts, ys)
  {
    BuildOfRest(opts, dir, xs);
    BuildOfRest(opts, dir, ys);
  }
}
