/** Build's own loops (internal/plan/plan.go), against the plan as a function of the
    entries. */
module PlanBuild {
  import opened Bytes
  import opened Choosing
  import opened Optional
  import opened Order
  import opened Plan
  import G = Grouping

  /** underPruned: test every proper ancestor of the path. */
  method IsUnderPruned(pruned: set<seq<byte>>, slash: seq<byte>) returns (under: bool)
    ensures under <==> UnderPruned(pruned, slash)
  {
    var start := 0;
    while true
      invariant 0 <= start <= |slash|
      invariant forall q :: q in pruned && Beneath(slash, q) ==> |q| >= start
      decreases |slash| - start
    {
      var j := IndexSlash(slash, start);
      if j == |slash| {
        return false;
      }
      if slash[..j] in pruned {
        assert Beneath(slash, slash[..j]);
        return true;
      }
      forall q | q in pruned && Beneath(slash, q)
        ensures |q| >= j + 1
      {
        assert slash[..|q|] == q;
      }
      start := j + 1;
    }
  }

  method IndexSlash(slash: seq<byte>, start: nat) returns (j: nat)
    requires start <= |slash|
    ensures start <= j <= |slash| && (j < |slash| ==> slash[j] == SLASH)
    ensures forall i :: start <= i < j ==> slash[i] != SLASH
  {
    j := start;
    while j < |slash| && slash[j] != SLASH
      invariant start <= j <= |slash|
      invariant forall i :: start <= i < j ==> slash[i] != SLASH
    {
      j := j + 1;
    }
  }

  /** Pass 1: every entry's own verdict, and the pruned directories. */
  method ClassifyAll(opts: Options, entries: seq<Entry>) returns (decs: seq<Option<Match>>, pruned: set<seq<byte>>)
    ensures |decs| == |entries| && forall i :: 0 <= i < |decs| ==> decs[i] == Classify(opts, entries[i])
    ensures pruned == PrunedPaths(opts, entries)
  {
    decs, pruned := [], {};
    for i := 0 to |entries|
      invariant |decs| == i && forall j :: 0 <= j < i ==> decs[j] == Classify(opts, entries[j])
      invariant pruned == PrunedPaths(opts, entries[..i])
    {
      var own := Classify(opts, entries[i]);
      decs := decs + [own];
      PrunedGrow(opts, entries, i);
      if own.Some? && own.value.prune {
        pruned := pruned + {ToSlash(opts, entries[i].relPath)};
      }
    }
    assert entries[..|entries|] == entries;
  }

  lemma PrunedGrow(opts: Options, entries: seq<Entry>, i: nat)
    requires i < |entries|
    ensures PrunedPaths(opts, entries[..i + 1])
            == PrunedPaths(opts, entries[..i])
               + (if Prunes(opts, entries[i]) then {ToSlash(opts, entries[i].relPath)} else {})
  {
    var some, more := entries[..i], entries[..i + 1];
    assert more == some + [entries[i]];
    assert forall e :: e in more <==> e in some || e == entries[i];
  }

  /** Pass 2: drop what lies beneath a pruned directory, record the other exclusions
      and key what stays. */
  method ApplyAll(opts: Options, entries: seq<Entry>, decs: seq<Option<Match>>, pruned: set<seq<byte>>)
    returns (exclusions: seq<Exclusion>, ks: seq<Keyed<Entry>>)
    requires |decs| == |entries| && forall i :: 0 <= i < |decs| ==> decs[i] == Classify(opts, entries[i])
    ensures exclusions == Collect(Dropping(opts, pruned), entries)
    ensures ks == Collect(Admission(opts, pruned), entries)
  {
    exclusions, ks := [], [];
    for i := 0 to |entries|
      invariant exclusions == Collect(Dropping(opts, pruned), entries[..i])
      invariant ks == Collect(Admission(opts, pruned), entries[..i])
    {
      var e := entries[i];
      CollectNext(Dropping(opts, pruned), entries, i);
      CollectNext(Admission(opts, pruned), entries, i);
      var slash := ToSlash(opts, e.relPath);
      var under := IsUnderPruned(pruned, slash);
      if under {
      } else if decs[i].Some? {
        exclusions := exclusions + [Exclusion(e.relPath, decs[i].value.rule, decs[i].value.prune)];
      } else {
        ks := ks + [Keyed(Flagged(opts, slash, e), OrderingKey(opts, slash), slash)];
      }
    }
    assert entries[..|entries|] == entries;
  }

  lemma CollectNext<S, T>(f: S -> Option<T>, xs: seq<S>, i: nat)
    requires i < |xs|
    ensures Collect(f, xs[..i + 1]) == Collect(f, xs[..i]) + match f(xs[i]) case None => [] case Some(v) => [v]
  {
    assert xs[..i + 1] == xs[..i] + [xs[i]];
    CollectAppend(f, xs[..i], [xs[i]]);
    CollectOne(f, xs[i]);
  }

  /** The last loop: ids by key, and the totals, in 64 bits. */
  method Tally(es: seq<Entry>, keys: seq<seq<byte>>) returns (ids: map<seq<byte>, nat>, files: nat, bytes: nat)
    requires |es| == |keys|
    ensures ids == IdByKey(keys) && files == FileCount(es) % U64 && bytes == FileBytes(es) % U64
  {
    ids, files, bytes := map[], 0, 0;
    for i := 0 to |es|
      invariant ids == IdByKey(keys[..i])
      invariant files == FileCount(es[..i]) % U64 && bytes == FileBytes(es[..i]) % U64
    {
      assert es[..i + 1][..i] == es[..i] && keys[..i + 1][..i] == keys[..i];
      if keys[i] !in ids {
        ids := ids[keys[i] := i];
      }
      if es[i].kind.File? {
        files := (files + 1) % U64;
        bytes := (bytes + es[i].size) % U64;
      }
    }
    assert es[..|es|] == es && keys[..|es|] == keys;
  }

  /** computeDigest: what is hashed, in order. */
  method DigestOf(opts: Options, es: seq<Entry>, keys: seq<seq<byte>>) returns (digest: seq<byte>)
    requires |es| == |keys|
    ensures digest == opts.sha(DigestInput(opts, es, keys))
  {
    var entries := [];
    for i := 0 to |es|
      invariant entries == DigestEntries(es[..i], keys[..i])
    {
      assert es[..i + 1][..i] == es[..i] && keys[..i + 1][..i] == keys[..i];
      entries := entries + DigestEntry(es[i], keys[i]);
    }
    assert es[..|es|] == es && keys[..|es|] == keys;
    digest := opts.sha(DIGEST_PREAMBLE + opts.signature + Ascii("sys-v1") + entries);
  }

  /** Build.  The library sort is any comparison sort. */
  method BuildPlan(opts: Options, entries: seq<Entry>) returns (r: Result)
    ensures r == Build(opts, entries)
  {
    if !opts.filtersValid {
      return BadFilters;
    }
    var decs, pruned := ClassifyAll(opts, entries);
    var exclusions, ks := ApplyAll(opts, entries, decs, pruned);
    var sorted := Sort(ks);
    var es, keys := EntriesOf(sorted), KeysOf(sorted);
    var ids, files, bytes := Tally(es, keys);
    var starts := G.ComputeGroupStarts(Items(es), CapsOf(opts));
    var digest := DigestOf(opts, es, keys);
    r := Built(Plan(es, keys, ids, starts, exclusions, digest, files, bytes, |exclusions| % U64));
  }
}
