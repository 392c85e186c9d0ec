/** From a plan to a session: the groups the planner forms, as the receiver sees them
    (internal/plan/plan.go, internal/sender/manifest.go, internal/receiver/decide.go lines
    236-305, internal/receiver/config.go line 23). */
module Planned {
  import opened Bytes
  import opened Finite
  import opened Optional
  import opened Rows
  import opened Frame
  import opened Wire
  import opened NeedQueue
  import P = Plan
  import G = Grouping
  import MB = ManifestBudget
  import R = Receiver
  import C = Credit
  import QC = QueueClients
  import J = Pipeline

  // ---- what the receiver makes of a plan -----------------------------------

  /** The ids of the regular files among entries a to b. */
  function FileIds(es: seq<P.Entry>, a: nat, b: nat): (ids: seq<nat>)
    requires a <= b <= |es|
    ensures |ids| <= b - a
  {
    if a == b then []
    else FileIds(es, a, b - 1) + (if es[b - 1].kind.File? then [b - 1] else [])
  }

  lemma {:induction false} FileIdsAre(es: seq<P.Entry>, a: nat, b: nat, f: nat)
    requires a <= b <= |es|
    ensures f in FileIds(es, a, b) <==> a <= f < b && es[f].kind.File?
  {
    if a < b {
      FileIdsAre(es, a, b - 1, f);
    }
  }

  lemma {:induction false} FileIdsDistinct(es: seq<P.Entry>, a: nat, b: nat, i: nat, j: nat)
    requires a <= b <= |es| && i < j < |FileIds(es, a, b)|
    ensures FileIds(es, a, b)[i] != FileIds(es, a, b)[j]
  {
    if a < b {
      var front := FileIds(es, a, b - 1);
      if j < |front| {
        FileIdsDistinct(es, a, b - 1, i, j);
      } else {
        FileIdsAre(es, a, b - 1, front[i]);
      }
    }
  }

  function Text(path: seq<byte>): string { seq(|path|, i requires 0 <= i < |path| => path[i] as int as char) }

  function EntryOf(opts: P.Options, e: P.Entry): R.Entry {
    R.Entry(if e.flags % 2 == 1 then Some(e.hardlinkKey) else None, Text(P.ToSlash(opts, e.relPath)), e.size)
  }

  /** computeGroups on the plan's entries. */
  function StartsOf(opts: P.Options, es: seq<P.Entry>): (starts: seq<nat>)
    ensures G.Partition(starts, |es|, 0)
  {
    G.GroupsPartition(G.CodeTest(P.Items(es), P.CapsOf(opts)), |es|, 0);
    G.ComputeGroups(P.Items(es), P.CapsOf(opts))
  }

  function GroupCount(starts: seq<nat>): nat { if starts == [] then 0 else |starts| - 1 }

  function GroupFiles(es: seq<P.Entry>, starts: seq<nat>, g: nat): seq<nat>
    requires G.Partition(starts, |es|, 0) && g < GroupCount(starts)
  {
    assert starts[g + 1 - 1] < starts[g + 1] <= |es|;
    FileIds(es, starts[g], starts[g + 1])
  }

  /** Group g lists the regular files from its start to the next; file ids are positions
      in the plan. */
  function SessionPlan(opts: P.Options, es: seq<P.Entry>, starts: seq<nat>): R.Plan
    requires G.Partition(starts, |es|, 0)
  {
    R.Plan(map f: nat | f < |es| && es[f].kind.File? :: EntryOf(opts, es[f]),
           map g | g in Below(GroupCount(starts)) :: GroupFiles(es, starts, g))
  }

  lemma {:induction false} StartsAscend(starts: seq<nat>, n: nat, i: nat, j: nat)
    requires G.Partition(starts, n, 0) && i <= j < |starts|
    ensures starts[i] <= starts[j]
    decreases j
  {
    if i < j {
      StartsAscend(starts, n, i, j - 1);
      assert starts[j - 1] < starts[j];
    }
  }

  lemma OneGroupEach(es: seq<P.Entry>, starts: seq<nat>, g: nat, h: nat, f: nat)
    requires G.Partition(starts, |es|, 0) && g < h < GroupCount(starts)
    ensures !(f in GroupFiles(es, starts, g) && f in GroupFiles(es, starts, h))
  {
    StartsAscend(starts, |es|, g + 1, h);
    FileIdsAre(es, starts[g], starts[g + 1], f);
    FileIdsAre(es, starts[h], starts[h + 1], f);
  }

  /** The groups of a plan list every regular file exactly once. */
  lemma SessionPlanWellFormed(opts: P.Options, es: seq<P.Entry>, starts: seq<nat>)
    requires G.Partition(starts, |es|, 0)
    ensures SessionPlan(opts, es, starts).WellFormed()
    ensures SessionPlan(opts, es, starts).groups.Keys == Below(GroupCount(starts))
  {
    var plan := SessionPlan(opts, es, starts);
    forall g, i | g in plan.groups && 0 <= i < |plan.groups[g]|
      ensures plan.groups[g][i] in plan.files
    {
      FileIdsAre(es, starts[g], starts[g + 1], plan.groups[g][i]);
    }
    forall g, i, j | g in plan.groups && 0 <= i < j < |plan.groups[g]|
      ensures plan.groups[g][i] != plan.groups[g][j]
    {
      FileIdsDistinct(es, starts[g], starts[g + 1], i, j);
    }
    forall g, h, f | g in plan.groups && h in plan.groups && f in plan.groups[g] && f in plan.groups[h]
      ensures g == h
    {
      if g < h {
        OneGroupEach(es, starts, g, h, f);
      } else if h < g {
        OneGroupEach(es, starts, h, g, f);
      }
    }
  }

  lemma {:induction false} SomeGroup(es: seq<P.Entry>, starts: seq<nat>, f: nat, k: nat) returns (g: nat)
    requires G.Partition(starts, |es|, 0) && k < |starts| && f < starts[k]
    ensures g < GroupCount(starts) && starts[g] <= f < starts[g + 1]
    decreases k
  {
    if k > 0 && f < starts[k - 1] {
      g := SomeGroup(es, starts, f, k - 1);
    } else {
      g := k - 1;
    }
  }

  // ---- every group fits the queue ------------------------------------------

  /** A planned group is never larger than a session's need queue. */
  lemma PlannedGroupFits(opts: P.Options, es: seq<P.Entry>, g: nat)
    requires g < GroupCount(StartsOf(opts, es))
    ensures var starts := StartsOf(opts, es);
            |GroupFiles(es, starts, g)| <= starts[g + 1] - starts[g] <= G.MAX_ENTRIES <= NEED_QUEUE_DEPTH
  {
    MB.CodeGroupBudget(P.Items(es), P.CapsOf(opts), 0, g + 1);
  }

  /** Nor is any group that decodes, whoever sent it. */
  lemma DecodedGroupFits(frame: seq<byte>)
    requires Unmarshal(frame).Ok? && Unmarshal(frame).msg.GroupManifest?
    ensures |Unmarshal(frame).msg.list| <= MAX_ROWS <= NEED_QUEUE_DEPTH
  {
    UnmarshalBounded(frame);
  }

  // ---- what arrives --------------------------------------------------------

  /** The file ids decideGroup gives the regular files of a manifest. */
  function FilesIn(first: nat, list: seq<ManifestEntry>): seq<nat> {
    if list == [] then []
    else
      var last := |list| - 1;
      FilesIn(first, list[..last]) + (if list[last].kind == 1 || list[last].kind == 2 then [] else [first + last])
  }

  lemma PublishedFront(opts: P.Options, xs: seq<P.Entry>, digests: seq<seq<byte>>, last: nat)
    requires |digests| == |xs| == last + 1
    ensures MB.Published(opts, xs, digests)[..last] == MB.Published(opts, xs[..last], digests[..last])
    ensures MB.Published(opts, xs, digests)[last].kind == P.KindCode(xs[last].kind)
  {
  }

  lemma {:induction false} FilesPublished(opts: P.Options, es: seq<P.Entry>, a: nat, b: nat, digests: seq<seq<byte>>)
    requires a <= b <= |es| && |digests| == b - a
    ensures FilesIn(a, MB.Published(opts, es[a..b], digests)) == FileIds(es, a, b)
  {
    if a < b {
      PublishedFront(opts, es[a..b], digests, b - a - 1);
      assert es[a..b][..b - a - 1] == es[a..b - 1];
      FilesPublished(opts, es, a, b - 1, digests[..b - a - 1]);
    }
  }

  /** The manifest entry says of the plan entry what the receiver needs to know. */
  predicate Describes(opts: P.Options, e: P.Entry, digest: seq<byte>, m: ManifestEntry) {
    && m.kind == (match e.kind case File => 0 case Dir => 1 case Symlink => 2)
    && m.path == P.ToSlash(opts, e.relPath) && m.size == e.size && m.mode == e.mode
    && m.mtimeSec == e.mtimeSec && m.mtimeNsec == e.mtimeNsec
    && m.digest == (if e.kind.File? then digest else [])
    && (e.kind.Symlink? ==> m.linkTarget == e.linkTarget)
    && m.flags % 2 == e.flags % 2 && (e.flags % 2 == 1 ==> m.hardlinkKey == e.hardlinkKey)
  }

  /** What decideGroup keeps of a regular file. */
  function Received(m: ManifestEntry): R.Entry {
    R.Entry(if m.flags % 2 == 1 then Some(m.hardlinkKey) else None, Text(m.path), m.size)
  }

  predicate Told(opts: P.Options, e: P.Entry, digest: seq<byte>, m: ManifestEntry) {
    Describes(opts, e, digest, m) && Received(m) == EntryOf(opts, e)
  }

  predicate AllTold(opts: P.Options, es: seq<P.Entry>, first: nat, digests: seq<seq<byte>>, list: seq<ManifestEntry>) {
    && first + |list| <= |es| && |digests| == |list|
    && forall i :: 0 <= i < |list| ==> Told(opts, es[first + i], digests[i], list[i])
  }

  lemma PublishedTold(opts: P.Options, es: seq<P.Entry>, a: nat, b: nat, digests: seq<seq<byte>>)
    requires a <= b <= |es| && |digests| == b - a
    ensures AllTold(opts, es, a, digests, MB.Published(opts, es[a..b], digests))
  {
    forall i | 0 <= i < b - a
      ensures Told(opts, es[a + i], digests[i], MB.Published(opts, es[a..b], digests)[i])
    {
      MB.OddStaysOdd(es[a + i].flags);
    }
  }

  /** What arrives for group g: its entries as planned, and the files of the session, each
      with the key, path and size that the session has for it. */
  ghost predicate Arrives(opts: P.Options, es: seq<P.Entry>, g: nat, digests: seq<seq<byte>>, first: nat, list: seq<ManifestEntry>)
    requires g < GroupCount(StartsOf(opts, es))
  {
    && first == StartsOf(opts, es)[g] && first + |list| == StartsOf(opts, es)[g + 1]
    && AllTold(opts, es, first, digests, list)
    && FilesIn(first, list) == SessionPlan(opts, es, StartsOf(opts, es)).groups[g]
  }

  lemma PublishedArrives(opts: P.Options, es: seq<P.Entry>, g: nat, digests: seq<seq<byte>>)
    requires g < GroupCount(StartsOf(opts, es))
    requires var starts := StartsOf(opts, es); starts[g] < starts[g + 1] <= |es| && |digests| == starts[g + 1] - starts[g]
    ensures var starts := StartsOf(opts, es);
            Arrives(opts, es, g, digests, starts[g], MB.Published(opts, es[starts[g]..starts[g + 1]], digests))
  {
    var starts := StartsOf(opts, es);
    FilesPublished(opts, es, starts[g], starts[g + 1], digests);
    PublishedTold(opts, es, starts[g], starts[g + 1], digests);
  }

  /** A published group of short paths arrives as the group of the session's plan: the
      same file ids, and of every entry what the plan says. */
  lemma GroupArrives(opts: P.Options, es: seq<P.Entry>, g: nat, digests: seq<seq<byte>>)
    requires forall i :: 0 <= i < |es| ==> MB.Nameable(es[i]) && MB.Typed(es[i]) && MB.Short(es[i])
    requires g < GroupCount(StartsOf(opts, es)) < U32 && |es| < U64
    requires forall i :: 0 <= i < |digests| ==> |digests[i]| <= MAX_DIGEST
    requires var starts := StartsOf(opts, es); |digests| == starts[g + 1] - starts[g]
    ensures var starts := StartsOf(opts, es);
            var (a, b) := (starts[g], starts[g + 1]);
            && a < b <= |es|
            && var got := Unmarshal(Marshal(GroupManifest(g, a, MB.Published(opts, es[a..b], digests))));
               && got.Ok? && got.msg.GroupManifest? && got.msg.group == g
               && Arrives(opts, es, g, digests, got.msg.first, got.msg.list)
  {
    var starts := StartsOf(opts, es);
    MB.GroupReadBackIffShort(opts, es, g + 1, digests, g, starts[g]);
    PublishedArrives(opts, es, g, digests);
  }

  // ---- a planned session ---------------------------------------------------

  function SessionOf(opts: P.Options, es: seq<P.Entry>, cfg: QC.Config, credit: nat, workers: nat): J.Setup {
    var starts := StartsOf(opts, es);
    J.Setup(cfg, SessionPlan(opts, es, starts), C.Setup(GroupCount(starts), credit), workers)
  }

  /** A session with workers that makes its queue and grants some credit can always go
      on: no planned group is too large for the queue. */
  lemma PlannedSessionWorks(opts: P.Options, es: seq<P.Entry>, cfg: QC.Config, credit: nat, workers: nat)
    requires GroupCount(StartsOf(opts, es)) < U32
    requires cfg.capacity == NEED_QUEUE_DEPTH && cfg.workers != {} && workers > 0 && credit % 0x1_0000 > 0
    ensures var su := SessionOf(opts, es, cfg, credit, workers); su.Valid() && J.Workable(su)
  {
    var starts := StartsOf(opts, es);
    var plan := SessionPlan(opts, es, starts);
    SessionPlanWellFormed(opts, es, starts);
    forall g | g in plan.groups
      ensures |plan.groups[g]| <= cfg.capacity
    {
      PlannedGroupFits(opts, es, g);
    }
  }

  /** A session over any plan that can go no further has drained, and every regular file
      of the plan has exactly one outcome. */
  lemma EveryPlannedFileSettles(opts: P.Options, es: seq<P.Entry>, cfg: QC.Config, credit: nat, workers: nat,
                                steps: seq<J.Step>)
    requires GroupCount(StartsOf(opts, es)) < U32
    requires cfg.capacity == NEED_QUEUE_DEPTH && cfg.workers != {} && workers > 0 && credit % 0x1_0000 > 0
    requires var su := SessionOf(opts, es, cfg, credit, workers);
             && J.Runs(su, J.Start(su), steps)
             && (forall step :: J.Enabled(su, J.End(su, J.Start(su), steps), step) ==> J.Returns(step))
    ensures var su := SessionOf(opts, es, cfg, credit, workers);
            var r := J.End(su, J.Start(su), steps).r;
            && r.c.q.Drained()
            && (forall f: nat :: f < |es| && es[f].kind.File? ==> f in r.place && r.place[f].Outcome())
  {
    var su := SessionOf(opts, es, cfg, credit, workers);
    PlannedSessionWorks(opts, es, cfg, credit, workers);
    J.StoppedMeansAllSettled(su, steps);
    FilesAllSettled(opts, es, StartsOf(opts, es), su, J.End(su, J.Start(su), steps).r);
  }

  lemma FilesAllSettled(opts: P.Options, es: seq<P.Entry>, starts: seq<nat>, su: J.Setup, r: R.State)
    requires G.Partition(starts, |es|, 0) && su.plan == SessionPlan(opts, es, starts) && J.AllSettled(su, r)
    ensures forall f: nat :: f < |es| && es[f].kind.File? ==> f in r.place && r.place[f].Outcome()
  {
    forall f: nat | f < |es| && es[f].kind.File?
      ensures f in r.place && r.place[f].Outcome()
    {
      var g := SomeGroup(es, starts, f, |starts| - 1);
      FileIdsAre(es, starts[g], starts[g + 1], f);
      assert g in su.plan.groups && f in su.plan.groups[g];
    }
  }
}
