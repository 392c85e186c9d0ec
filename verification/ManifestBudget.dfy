/** Every group the planner forms fits one control record: the planner's estimate
    (internal/plan/plan.go), the publisher's field mapping (internal/sender/manifest.go),
    the encoded manifest (internal/wire/frame.go, internal/wire/wire.go) and the record
    ceiling (internal/crypto/record/record.go). */
module ManifestBudget {
  import opened Bytes
  import opened Codec
  import opened Fields
  import opened Lists
  import opened Rows
  import opened Frame
  import opened Wire
  import P = Plan
  import G = Grouping
  import R = Record

  // ---- the encoded size of one entry ---------------------------------------

  /** ManifestEntrySize of an entry's own lengths. */
  function RealSize(e: ManifestEntry): nat {
    P.EntrySize(|e.path|, |e.digest|, e.kind == 2, |e.linkTarget|, e.flags % 2 == 1)
  }

  lemma FixedSize(e: ManifestEntry)
    ensures |PutAll(ENTRY_FIELDS, EntryRow(e).fixed)| == 30 + |e.path| + |e.digest|
  {
    var fs, vs := ENTRY_FIELDS, EntryRow(e).fixed;
    PutAllLength(fs, vs);
    assert Lengths(fs, vs, 8) == Lengths(fs, vs, 7) + |Put(fs[7], vs[7])|;
    assert Lengths(fs, vs, 7) == Lengths(fs, vs, 6) + |Put(fs[6], vs[6])|;
    assert Lengths(fs, vs, 6) == Lengths(fs, vs, 5) + |Put(fs[5], vs[5])|;
    assert Lengths(fs, vs, 5) == Lengths(fs, vs, 4) + |Put(fs[4], vs[4])|;
    assert Lengths(fs, vs, 4) == Lengths(fs, vs, 3) + |Put(fs[3], vs[3])|;
    assert Lengths(fs, vs, 3) == Lengths(fs, vs, 2) + |Put(fs[2], vs[2])|;
    assert Lengths(fs, vs, 2) == Lengths(fs, vs, 1) + |Put(fs[1], vs[1])|;
    assert Lengths(fs, vs, 1) == Lengths(fs, vs, 0) + |Put(fs[0], vs[0])|;
  }

  lemma OptionalSize(e: ManifestEntry)
    ensures |PutAll(EntryOptions(EntryRow(e).fixed), EntryRow(e).options)|
            == (if e.kind == 2 then 2 + |e.linkTarget| else 0) + (if e.flags % 2 == 1 then 8 else 0)
  {
    var fs, vs := EntryOptions(EntryRow(e).fixed), EntryRow(e).options;
    PutAllLength(fs, vs);
    if |fs| == 2 {
      assert Lengths(fs, vs, 2) == Lengths(fs, vs, 1) + |Put(fs[1], vs[1])|;
    }
    if |fs| >= 1 {
      assert Lengths(fs, vs, 1) == Lengths(fs, vs, 0) + |Put(fs[0], vs[0])|;
    }
  }

  /** The encoded size of an entry is exactly ManifestEntrySize of its real lengths. */
  lemma EncodedSize(e: ManifestEntry)
    ensures |PutRow(EntryFormat(), EntryRow(e))| == RealSize(e)
  {
    FixedSize(e);
    OptionalSize(e);
  }

  // ---- from plan entries to a manifest -------------------------------------

  /** publishGroup's field mapping; a directory or symlink carries no digest. */
  function ToManifest(opts: P.Options, e: P.Entry, digest: seq<byte>): ManifestEntry {
    ManifestEntry(P.KindCode(e.kind), e.flags % U16, P.ToSlash(opts, e.relPath), e.size, e.mode, e.mtimeSec, e.mtimeNsec,
                  if e.kind.File? then digest else [],
                  if e.kind.Symlink? then e.linkTarget else [],
                  if e.flags % 2 == 1 then e.hardlinkKey else 0)
  }

  function Published(opts: P.Options, es: seq<P.Entry>, digests: seq<seq<byte>>): (r: seq<ManifestEntry>)
    requires |digests| == |es|
    ensures |r| == |es|
  {
    seq(|es|, i requires 0 <= i < |es| => ToManifest(opts, es[i], digests[i]))
  }

  lemma OddStaysOdd(flags: nat)
    ensures (flags % U16) % 2 == flags % 2
  {
  }

  /** The estimate is never too small. */
  lemma EstimateCovers(opts: P.Options, e: P.Entry, digest: seq<byte>)
    requires |digest| <= MAX_DIGEST
    ensures RealSize(ToManifest(opts, e, digest)) <= P.ManifestEstimate(e)
  {
    OddStaysOdd(e.flags);
  }

  // ---- whole frames --------------------------------------------------------

  /** The encoded size of a list of entries, without its count. */
  function Encoded(list: seq<ManifestEntry>): nat { |PutEach(RowWriter(EntryFormat()), EntryRows(list))| }

  lemma EncodedGrows(list: seq<ManifestEntry>, last: ManifestEntry)
    ensures Encoded(list + [last]) == Encoded(list) + RealSize(last)
  {
    assert EntryRows(list + [last]) == EntryRows(list) + [EntryRow(last)];
    PutEachAppend(RowWriter(EntryFormat()), EntryRows(list), EntryRow(last));
    EncodedSize(last);
  }

  lemma PublishedLast(opts: P.Options, es: seq<P.Entry>, digests: seq<seq<byte>>, n: nat)
    requires |digests| == |es| == n + 1
    ensures Published(opts, es, digests) == Published(opts, es[..n], digests[..n]) + [ToManifest(opts, es[n], digests[n])]
  {
  }

  lemma EstimateLast(es: seq<P.Entry>, n: nat)
    requires |es| == n + 1
    ensures G.Manifest(P.Items(es), 0, n + 1) == G.Manifest(P.Items(es[..n]), 0, n) + P.ManifestEstimate(es[n])
  {
    ManifestPrefix(P.Items(es), P.Items(es[..n]), n);
  }

  lemma {:induction false} GroupSize(opts: P.Options, es: seq<P.Entry>, digests: seq<seq<byte>>)
    requires |digests| == |es| && forall i :: 0 <= i < |digests| ==> |digests[i]| <= MAX_DIGEST
    ensures Encoded(Published(opts, es, digests)) <= G.Manifest(P.Items(es), 0, |es|)
    decreases |es|
  {
    if es != [] {
      var n := |es| - 1;
      GroupSize(opts, es[..n], digests[..n]);
      PublishedLast(opts, es, digests, n);
      EncodedGrows(Published(opts, es[..n], digests[..n]), ToManifest(opts, es[n], digests[n]));
      EstimateCovers(opts, es[n], digests[n]);
      EstimateLast(es, n);
    } else {
      assert EntryRows(Published(opts, es, digests)) == [];
    }
  }

  lemma {:induction false} ManifestPrefix(items: seq<G.Item>, fewer: seq<G.Item>, n: nat)
    requires n <= |fewer| <= |items| && forall i :: 0 <= i < n ==> fewer[i] == items[i]
    ensures G.Manifest(items, 0, n) == G.Manifest(fewer, 0, n)
  {
    if n > 0 {
      ManifestPrefix(items, fewer, n - 1);
    }
  }

  lemma {:induction false} ManifestSlice(items: seq<G.Item>, a: nat, b: nat)
    requires a <= b <= |items|
    ensures G.Manifest(items[a..b], 0, b - a) == G.Manifest(items, a, b)
    decreases b
  {
    if a < b {
      ManifestSlice(items, a, b - 1);
      ManifestPrefix(items[a..b], items[a..b - 1], b - 1 - a);
    }
  }

  /** A group the code forms has one entry, or stays within the manifest budget:
      whether or not its byte sum overflowed. */
  lemma {:induction false} CodeGroupBudget(items: seq<G.Item>, caps: G.Caps, a: nat, j: nat)
    requires a <= |items|
    ensures var starts := G.Groups(G.CodeTest(items, caps), |items|, a);
            1 <= j < |starts| ==>
              starts[j - 1] < starts[j] <= |items| && starts[j] - starts[j - 1] <= G.MAX_ENTRIES
              && (starts[j] == starts[j - 1] + 1 || G.Manifest(items, starts[j - 1], starts[j]) <= caps.manifest)
    decreases |items| - a
  {
    if a < |items| && j >= 1 {
      var test := G.CodeTest(items, caps);
      var r := G.Next(test, |items|, a);
      CodeGroupBudget(items, caps, r, j - 1);
      if j == 1 && r > a + 1 {
        assert test(a, r - 1);
      }
    }
  }

  /** Paths and link targets of at most 65535 bytes. */
  predicate Nameable(e: P.Entry) { |e.relPath| <= MAX_STR && |e.linkTarget| <= MAX_STR }

  /** Every group of every plan encodes, whatever its digests, to a GROUP_MANIFEST
      frame that the control-channel writer accepts. */
  lemma EveryGroupFits(opts: P.Options, es: seq<P.Entry>, j: nat, digests: seq<seq<byte>>, group: nat, first: nat)
    requires forall i :: 0 <= i < |es| ==> Nameable(es[i])
    requires 1 <= j < |G.ComputeGroups(P.Items(es), P.CapsOf(opts))|
    requires forall i :: 0 <= i < |digests| ==> |digests[i]| <= MAX_DIGEST
    ensures var starts := G.ComputeGroups(P.Items(es), P.CapsOf(opts));
            var a, b := starts[j - 1], starts[j];
            && a < b <= |es| && b - a <= G.MAX_ENTRIES
            && (|digests| == b - a ==>
                  R.InRange(0, Marshal(GroupManifest(group, first, Published(opts, es[a..b], digests)))))
  {
    var starts := G.ComputeGroups(P.Items(es), P.CapsOf(opts));
    var a, b := starts[j - 1], starts[j];
    CodeGroupBudget(P.Items(es), P.CapsOf(opts), 0, j);
    if b == a + 1 {
      SingleFits(es, a);
    }
    if |digests| == b - a {
      RangeFits(opts, es, a, b, digests);
      FrameFits(group, first, Published(opts, es[a..b], digests));
    }
  }

  lemma RangeFits(opts: P.Options, es: seq<P.Entry>, a: nat, b: nat, digests: seq<seq<byte>>)
    requires a <= b <= |es| && |digests| == b - a && forall i :: 0 <= i < |digests| ==> |digests[i]| <= MAX_DIGEST
    ensures Encoded(Published(opts, es[a..b], digests)) <= G.Manifest(P.Items(es), a, b)
  {
    GroupSize(opts, es[a..b], digests);
    ItemsSlice(es, a, b);
    ManifestSlice(P.Items(es), a, b);
  }

  lemma ItemsSlice(es: seq<P.Entry>, a: nat, b: nat)
    requires a <= b <= |es|
    ensures P.Items(es[a..b]) == P.Items(es)[a..b]
  {
  }

  lemma FrameFits(group: nat, first: nat, list: seq<ManifestEntry>)
    requires Encoded(list) <= P.MAX_MANIFEST_ENTRY_BYTES
    ensures R.InRange(0, Marshal(GroupManifest(group, first, list)))
  {
    FrameSize(group, first, list);
  }

  lemma SingleFits(es: seq<P.Entry>, a: nat)
    requires a < |es| && Nameable(es[a])
    ensures G.Manifest(P.Items(es), a, a + 1) <= P.MAX_MANIFEST_ENTRY_BYTES
  {
    assert G.Manifest(P.Items(es), a, a + 1) == G.Manifest(P.Items(es), a, a) + P.Items(es)[a].manifest;
  }

  lemma FrameSize(group: nat, first: nat, list: seq<ManifestEntry>)
    ensures |Marshal(GroupManifest(group, first, list))| == 5 + 14 + Encoded(list)
  {
    var m := GroupManifest(group, first, list);
    PutAllLength(Table(0x12), Values(m));
    var fs, vs := Table(0x12), Values(m);
    assert Lengths(fs, vs, 2) == Lengths(fs, vs, 1) + |Put(fs[1], vs[1])|;
    assert Lengths(fs, vs, 1) == Lengths(fs, vs, 0) + |Put(fs[0], vs[0])|;
  }

  // ---- reading a published group back --------------------------------------

  /** Values of the types the plan holds them in. */
  predicate Typed(e: P.Entry) {
    e.size < U64 && e.mode < U32 && IsInt64(e.mtimeSec) && e.mtimeNsec < U32 && e.hardlinkKey < U64
  }

  /** The receiver reads paths and link targets of at most 4096 bytes. */
  predicate Short(e: P.Entry) { |e.relPath| <= MAX_PATH && (e.kind.Symlink? ==> |e.linkTarget| <= MAX_PATH) }

  predicate AllShort(es: seq<P.Entry>) { forall i :: 0 <= i < |es| ==> Short(es[i]) }

  lemma BoundedIffShort(opts: P.Options, e: P.Entry, digest: seq<byte>)
    requires Typed(e) && |digest| <= MAX_DIGEST
    ensures EntryBounded(ToManifest(opts, e, digest)) <==> Short(e)
  {
    OddStaysOdd(e.flags);
  }

  lemma ListBoundedIffShort(opts: P.Options, es: seq<P.Entry>, digests: seq<seq<byte>>)
    requires |digests| == |es| <= MAX_ROWS
    requires forall i :: 0 <= i < |es| ==> Typed(es[i]) && |digests[i]| <= MAX_DIGEST
    ensures EntriesBounded(Published(opts, es, digests)) <==> AllShort(es)
  {
    forall i | 0 <= i < |es|
      ensures EntryBounded(Published(opts, es, digests)[i]) <==> Short(es[i])
    {
      BoundedIffShort(opts, es[i], digests[i]);
    }
  }

  lemma HeadFits(group: nat, first: nat, list: seq<ManifestEntry>)
    requires group < U32 && first < U64
    ensures AllFit(Table(0x12), Values(GroupManifest(group, first, list)))
  {
    Pow256Values();
  }

  /** A published group reaches the receiver as it is exactly when every path and link
      target in it is at most 4096 bytes, although the planner and the record layer let
      longer ones through. */
  lemma GroupReadBackIffShort(opts: P.Options, es: seq<P.Entry>, j: nat, digests: seq<seq<byte>>, group: nat, first: nat)
    requires forall i :: 0 <= i < |es| ==> Nameable(es[i]) && Typed(es[i])
    requires 1 <= j < |G.ComputeGroups(P.Items(es), P.CapsOf(opts))|
    requires forall i :: 0 <= i < |digests| ==> |digests[i]| <= MAX_DIGEST
    requires group < U32 && first < U64
    ensures var starts := G.ComputeGroups(P.Items(es), P.CapsOf(opts));
            var a, b := starts[j - 1], starts[j];
            && a < b <= |es|
            && (|digests| == b - a ==>
                  var m := GroupManifest(group, first, Published(opts, es[a..b], digests));
                  Unmarshal(Marshal(m)) == Ok(m) <==> forall i :: a <= i < b ==> Short(es[i]))
  {
    EveryGroupFits(opts, es, j, digests, group, first);
    var starts := G.ComputeGroups(P.Items(es), P.CapsOf(opts));
    var a, b := starts[j - 1], starts[j];
    if |digests| == b - a {
      var m := GroupManifest(group, first, Published(opts, es[a..b], digests));
      ListBoundedIffShort(opts, es[a..b], digests);
      ManifestReadBack(group, first, m.list);
      ShortSlice(es, a, b);
    }
  }

  lemma ManifestReadBack(group: nat, first: nat, list: seq<ManifestEntry>)
    requires group < U32 && first < U64 && R.InRange(0, Marshal(GroupManifest(group, first, list)))
    ensures var m := GroupManifest(group, first, list); Unmarshal(Marshal(m)) == Ok(m) <==> EntriesBounded(list)
  {
    HeadFits(group, first, list);
    RoundTrip(GroupManifest(group, first, list));
  }

  lemma ShortSlice(es: seq<P.Entry>, a: nat, b: nat)
    requires a <= b <= |es|
    ensures AllShort(es[a..b]) <==> forall i :: a <= i < b ==> Short(es[i])
  {
    assert forall i :: a <= i < b ==> es[i] == es[a..b][i - a];
  }
}
