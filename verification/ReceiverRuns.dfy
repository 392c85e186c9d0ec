/** Whole runs of the receiver: the theorems. */
module ReceiverRuns {
  import opened Finite
  import opened Optional
  import opened NeedQueue
  import opened HardlinkMap
  import opened Receiver
  import opened ReceiverInvariant
  import opened ReceiverSafety
  import opened ReceiverTaking
  import opened ReceiverRank
  import QC = QueueClients

  // ---- the remaining steps -------------------------------------------------

  /** Files leave a worker's needed list for the queue: the per-file books. */
  lemma NeededQueued(s: State, s': State, w: nat, ids: seq<nat>)
    requires NobodyForgotten(s) && MetaKnown(s) && PushedOnce(s) && Counted(s)
    requires forall f :: f in ids ==> f in s.place && s.place[f] == At(NeedBox(w))
    requires s'.c.history == s.c.history + ids && s'.links == s.links && s'.meta == s.meta
    requires s'.place == PutAll(s.place, ids, QueueBox)
    requires s'.filesFailed == s.filesFailed && s'.filesTransferred == s.filesTransferred
             && s'.filesRejected == s.filesRejected
    ensures NobodyForgotten(s') && MetaKnown(s') && PushedOnce(s') && Counted(s')
  {
    assert StillLive(s, s');
    SameLinks(s, s');
    CountSame(s, s');
  }

  lemma GroupQueuedSide(plan: Plan, s: State, s': State, w: nat, ids: seq<nat>)
    requires Side(plan, s) && Exact(s) && w in s.decide
    requires forall f :: f in ids <==> f in s.decide[w].items
    requires s'.c.history == s.c.history + ids && s'.c.held == s.c.held && s'.c.q.closed == s.c.q.closed
    requires s'.decide == s.decide - {w} && s'.fetch == s.fetch && s'.links == s.links && s'.meta == s.meta
    requires s'.place == PutAll(s.place, ids, QueueBox)
    requires s'.filesFailed == s.filesFailed && s'.filesTransferred == s.filesTransferred
             && s'.filesRejected == s.filesRejected
    ensures Side(plan, s')
  {
    forall f | f in ids
      ensures f in s.place && s.place[f] == At(NeedBox(w))
    {
      assert f in Contents(s, NeedBox(w));
      Listed(s, NeedBox(w), f);
    }
    NeededQueued(s, s', w, ids);
    forall v | v in s'.decide
      ensures PcAgrees(plan, s', s'.decide[v].pc)
    {
      assert PcAgrees(plan, s, s.decide[v].pc);
    }
  }

  lemma EndGroupSide(plan: Plan, s: State, w: nat)
    requires Side(plan, s) && Exact(s) && |s.c.history| == |s.c.tries| && w in s.decide
    ensures Side(plan, DoEndGroup(plan, s, w))
  {
    var d := s.decide[w];
    var s' := DoEndGroup(plan, s, w);
    if d.items == [] {
      assert StillLive(s, s');
      SameLinks(s, s');
      forall v | v in s'.decide
        ensures PcAgrees(plan, s', s'.decide[v].pc)
      {
        assert PcAgrees(plan, s, s.decide[v].pc);
      }
    } else {
      var ids := QC.Ids(LargestFirst(ItemsOf(plan, d.group, d.items)));
      SortedIds(plan, s, w);
      PutAllSame(s.place, d.items, ids, QueueBox);
      GroupQueuedSide(plan, s, s', w, ids);
    }
  }

  /** Steps that change the queue's own books only. */
  lemma QueueOnlySide(plan: Plan, s: State, s': State)
    requires Side(plan, s)
    requires s'.place == s.place && s'.links == s.links && s'.decide == s.decide && s'.meta == s.meta
    requires s'.c.history == s.c.history && s'.fetch.Keys == s'.c.held.Keys
    requires s'.c.q.closed ==> s'.decide == map[]
    requires s'.filesFailed == s.filesFailed && s'.filesTransferred == s.filesTransferred
             && s'.filesRejected == s.filesRejected
    ensures Side(plan, s')
  {
    assert StillLive(s, s');
    SameLinks(s, s');
    PcsKept(plan, s, s');
  }

  // ---- every step ----------------------------------------------------------

  ghost predicate Kept(cfg: QC.Config, plan: Plan, s: State, step: Step) {
    |s.c.history| == |s.c.tries| && Enabled(cfg, plan, s, step)
    && Exact(Apply(cfg, plan, s, step)) && Side(plan, Apply(cfg, plan, s, step))
  }

  ghost predicate Ready(cfg: QC.Config, plan: Plan, s: State, step: Step) {
    |s.c.history| == |s.c.tries| && Exact(s) && Side(plan, s) && Enabled(cfg, plan, s, step)
  }

  lemma BeginExact(plan: Plan, s: State, w: nat)
    requires Exact(s) && AtEntry(s, w)
    ensures Exact(DoBegin(plan, s, w))
  {
    var f := s.decide[w].todo[0];
    var pc := if EntryOrDefault(plan, f).key.Some? then AskPath(f) else Content(f, false);
    var s1 := TakeEntry(s, w, At(CurBox(w)), pc);
    TakeEntryExact(s, w, At(CurBox(w)), pc);
    Same(s1, DoBegin(plan, s, w));
  }

  lemma SkipBoth(plan: Plan, s: State, w: nat)
    requires Exact(s) && Side(plan, s) && AtEntry(s, w)
    ensures var t := TakeEntry(s, w, Skipped, Between([])); Exact(t) && Side(plan, t)
  {
    TakeEntryExact(s, w, Skipped, Between([]));
    TakeEntrySide(plan, s, w, Skipped, 0);
  }

  lemma SkipStep(cfg: QC.Config, plan: Plan, s: State, w: nat)
    requires Ready(cfg, plan, s, SkipJournalled(w))
    ensures Kept(cfg, plan, s, SkipJournalled(w))
  {
    SkipBoth(plan, s, w);
    KeptBy(cfg, plan, s, SkipJournalled(w), TakeEntry(s, w, Skipped, Between([])));
  }

  lemma BeginStep(cfg: QC.Config, plan: Plan, s: State, w: nat)
    requires Ready(cfg, plan, s, Begin(w))
    ensures Kept(cfg, plan, s, Begin(w))
  {
    BeginExact(plan, s, w);
    BeginSide(plan, s, w);
    KeptBy(cfg, plan, s, Begin(w), DoBegin(plan, s, w));
  }

  lemma StartStep(cfg: QC.Config, plan: Plan, s: State, w: nat, g: nat)
    requires plan.WellFormed() && TakenUp(plan, s) && Ready(cfg, plan, s, StartGroup(w, g))
    ensures Kept(cfg, plan, s, StartGroup(w, g))
  {
    StartExact(plan, s, w, g);
    StartSide(cfg, plan, s, w, g);
  }

  lemma RejectExact(s: State, w: nat)
    requires Exact(s) && AtEntry(s, w)
    ensures Exact(TakeEntry(s, w, Rejected, Between([])).(filesRejected := s.filesRejected + 1))
  {
    var s1 := TakeEntry(s, w, Rejected, Between([]));
    TakeEntryExact(s, w, Rejected, Between([]));
    Same(s1, s1.(filesRejected := s.filesRejected + 1));
  }

  lemma RejectStep(cfg: QC.Config, plan: Plan, s: State, w: nat)
    requires Ready(cfg, plan, s, Reject(w))
    ensures Kept(cfg, plan, s, Reject(w))
  {
    RejectExact(s, w);
    TakeEntrySide(plan, s, w, Rejected, 1);
  }

  lemma SeekStep(cfg: QC.Config, plan: Plan, s: State, w: nat)
    requires Ready(cfg, plan, s, SeekPath(w))
    ensures Kept(cfg, plan, s, SeekPath(w))
  {
    SeekBoth(plan, s, w);
    KeptBy(cfg, plan, s, SeekPath(w), DoSeek(plan, s, w));
  }

  lemma SeekIs(plan: Plan, s: State, w: nat)
    requires w in s.decide && s.decide[w].pc.AskPath?
    ensures var d := DoSeek(plan, s, w).decide[w];
            && (d.pc == TryLink(s.decide[w].pc.f) || d.pc == AskClaim(s.decide[w].pc.f))
            && DoSeek(plan, s, w) == LinkVia(SetPc(s, w, d.pc), w, d.via)
  {
  }

  lemma SeekBoth(plan: Plan, s: State, w: nat)
    requires Exact(s) && Side(plan, s) && w in s.decide && s.decide[w].pc.AskPath?
    ensures Exact(DoSeek(plan, s, w)) && Side(plan, DoSeek(plan, s, w))
  {
    var d := DoSeek(plan, s, w).decide[w];
    SeekIs(plan, s, w);
    assert PcAgrees(plan, s, s.decide[w].pc);
    PcExact(s, w, d.pc);
    PcSide(plan, s, w, d.pc);
    ViaExact(SetPc(s, w, d.pc), w, d.via);
    ViaSide(plan, SetPc(s, w, d.pc), w, d.via);
  }

  /** Where a worker's links go is no part of the accounting. */
  lemma ViaExact(s: State, w: nat, path: string)
    requires Exact(s) && w in s.decide
    ensures Exact(LinkVia(s, w, path))
  {
    Same(s, LinkVia(s, w, path));
  }

  lemma ViaSide(plan: Plan, s: State, w: nat, path: string)
    requires Side(plan, s) && w in s.decide
    ensures Side(plan, LinkVia(s, w, path))
  {
    var s' := LinkVia(s, w, path);
    assert forall p :: LivePrimary(s, p) ==> LivePrimary(s', p);
    SameLinks(s, s');
  }

  lemma LinkSteps(cfg: QC.Config, plan: Plan, s: State, step: Step)
    requires Ready(cfg, plan, s, step)
    requires step.LinkMade? || step.LinkRefused? || step.TakeOver?
    ensures Kept(cfg, plan, s, step)
  {
    match step
    case LinkMade(w) =>
      LinkMadeExact(s, w);
      LinkMadeSide(plan, s, w);
      KeptBy(cfg, plan, s, step, DoLinkMade(s, w));
    case LinkRefused(w) =>
      LinkRefusedExact(s, w, KeyOf(plan, s.decide[w].pc.f));
      LinkRefusedSide(plan, s, w, KeyOf(plan, s.decide[w].pc.f));
      KeptBy(cfg, plan, s, step, DoLinkRefused(s, w, KeyOf(plan, s.decide[w].pc.f)));
    case TakeOver(w) =>
      LeadExact(s, w, KeyOf(plan, s.decide[w].pc.f));
      LeadSide(plan, s, w, KeyOf(plan, s.decide[w].pc.f));
      KeptBy(cfg, plan, s, step, DoLead(s, w, KeyOf(plan, s.decide[w].pc.f)));
  }

  lemma ClaimParks(cfg: QC.Config, plan: Plan, s: State, w: nat)
    requires Ready(cfg, plan, s, ClaimOrLead(w)) && Claimable(s.links, KeyOf(plan, s.decide[w].pc.f))
    ensures Kept(cfg, plan, s, ClaimOrLead(w))
  {
    ParkBoth(plan, s, w);
  }

  lemma ParkBoth(plan: Plan, s: State, w: nat)
    requires Exact(s) && Side(plan, s) && w in s.decide && s.decide[w].pc.AskClaim?
    requires Claimable(s.links, KeyOf(plan, s.decide[w].pc.f))
    ensures var f := s.decide[w].pc.f;
            var t := DoPark(s, w, KeyOf(plan, f), EntryOrDefault(plan, f).rel);
            Exact(t) && Side(plan, t)
  {
    var f := s.decide[w].pc.f;
    assert PcAgrees(plan, s, s.decide[w].pc);
    ParkExact(s, w, KeyOf(plan, f), EntryOrDefault(plan, f).rel);
    ParkSide(plan, s, w, KeyOf(plan, f), EntryOrDefault(plan, f).rel);
  }

  lemma ClaimLeads(cfg: QC.Config, plan: Plan, s: State, w: nat)
    requires Ready(cfg, plan, s, ClaimOrLead(w)) && !Claimable(s.links, KeyOf(plan, s.decide[w].pc.f))
    ensures Kept(cfg, plan, s, ClaimOrLead(w))
  {
    var f := s.decide[w].pc.f;
    assert PcAgrees(plan, s, s.decide[w].pc);
    PcExact(s, w, Clearing(f, []));
    PcSide(plan, s, w, Clearing(f, []));
  }

  lemma ClaimStep(cfg: QC.Config, plan: Plan, s: State, w: nat)
    requires Ready(cfg, plan, s, ClaimOrLead(w))
    ensures Kept(cfg, plan, s, ClaimOrLead(w))
  {
    if Claimable(s.links, KeyOf(plan, s.decide[w].pc.f)) {
      ClaimParks(cfg, plan, s, w);
    } else {
      ClaimLeads(cfg, plan, s, w);
    }
  }

  lemma ContentSteps(cfg: QC.Config, plan: Plan, s: State, step: Step)
    requires Ready(cfg, plan, s, step) && (step.NeedContent? || step.ContentMatches?)
    ensures Kept(cfg, plan, s, step)
  {
    match step
    case NeedContent(w) =>
      NeedExact(s, w);
      NeedSide(plan, s, w);
    case ContentMatches(w) =>
      var pc := s.decide[w].pc;
      SkipExact(s, w);
      if pc.primary {
        assert PcAgrees(plan, s, pc);
        RegisterExact(DoSkip(s, w), w, pc.f, EntryOrDefault(plan, pc.f).rel);
        RegisterSide(plan, s, w, EntryOrDefault(plan, pc.f).rel);
      } else {
        SkipSide(plan, s, w);
      }
  }

  lemma PushSteps(cfg: QC.Config, plan: Plan, s: State, step: Step)
    requires Ready(cfg, plan, s, step)
    requires step.OrphanFallsBack? || step.DecideLinks? || step.EndGroup?
    ensures Kept(cfg, plan, s, step)
  {
    match step
    case OrphanFallsBack(w, space) =>
      OrphanFallsExact(plan, s, w, space);
      OrphanFallsSide(plan, s, w, space);
    case DecideLinks(w, made, space) =>
      DecideLinkExact(plan, s, w, made, space);
      DecideLinkSide(plan, s, w, made, space);
    case EndGroup(w) =>
      EndGroupExact(plan, s, w);
      EndGroupSide(plan, s, w);
  }

  lemma CloseStep(cfg: QC.Config, plan: Plan, s: State)
    requires Ready(cfg, plan, s, CloseQueue)
    ensures Kept(cfg, plan, s, CloseQueue)
  {
    var s' := s.(c := QC.Apply(s.c, QC.CloseQueue));
    Same(s, s');
    QueueOnlySide(plan, s, s');
  }

  lemma FetchSteps(cfg: QC.Config, plan: Plan, s: State, step: Step)
    requires Ready(cfg, plan, s, step)
    requires step.PopItem? || step.FetchLinks? || step.FinishItem?
    ensures Kept(cfg, plan, s, step)
  {
    match step
    case PopItem(w) =>
      PopExact(s, w);
      PopSide(plan, s, w);
    case FetchLinks(w, made, space) =>
      FetchLinkExact(plan, s, w, made, space);
      FetchLinkSide(plan, s, w, made, space);
    case FinishItem(w) =>
      FinishExact(s, w);
      FinishSide(plan, s, w);
  }

  lemma RequeueSteps(cfg: QC.Config, plan: Plan, s: State, step: Step)
    requires Ready(cfg, plan, s, step) && (step.RetryItem? || step.ReturnItem?)
    ensures Kept(cfg, plan, s, step)
  {
    match step
    case RetryItem(w) =>
      RequeueExact(s, w, true);
      RequeueSide(plan, s, w, true);
    case ReturnItem(w) =>
      RequeueExact(s, w, false);
      RequeueSide(plan, s, w, false);
  }

  lemma PublishStep(cfg: QC.Config, plan: Plan, s: State, w: nat)
    requires Ready(cfg, plan, s, PublishItem(w))
    ensures Kept(cfg, plan, s, PublishItem(w))
  {
    var rel := EntryOrDefault(plan, s.c.held[w].fileID).rel;
    PublishAllExact(s, w, rel);
    PublishSide(plan, s, w, rel);
  }

  lemma GiveUpStep(cfg: QC.Config, plan: Plan, s: State, w: nat)
    requires Ready(cfg, plan, s, GiveUp(w))
    ensures Kept(cfg, plan, s, GiveUp(w))
  {
    GiveUpBoth(plan, s, w);
    KeptBy(cfg, plan, s, GiveUp(w), DoAbandon(DoGiveUp(s, w), w, s.c.held[w].fileID));
  }

  lemma KeptBy(cfg: QC.Config, plan: Plan, s: State, step: Step, t: State)
    requires |s.c.history| == |s.c.tries| && Enabled(cfg, plan, s, step) && t == Apply(cfg, plan, s, step)
    requires Exact(t) && Side(plan, t)
    ensures Kept(cfg, plan, s, step)
  {
  }

  lemma GiveUpBoth(plan: Plan, s: State, w: nat)
    requires Exact(s) && Side(plan, s) && Fetches(s, w)
    ensures var t := DoAbandon(DoGiveUp(s, w), w, s.c.held[w].fileID); Exact(t) && Side(plan, t)
  {
    GiveUpAllExact(s, w);
    GiveUpSide(plan, s, w);
  }

  lemma PublishAllExact(s: State, w: nat, rel: string)
    requires Exact(s) && Fetches(s, w)
    ensures Exact(DoRegisterFetched(DoPublish(s, w), w, s.c.held[w].fileID, rel))
  {
    PublishExact(s, w);
    RegisterFetchedExact(DoPublish(s, w), w, s.c.held[w].fileID, rel);
  }

  lemma GiveUpAllExact(s: State, w: nat)
    requires Exact(s) && Fetches(s, w)
    ensures Exact(DoAbandon(DoGiveUp(s, w), w, s.c.held[w].fileID))
  {
    GiveUpExact(s, w);
    AbandonExact(DoGiveUp(s, w), w, s.c.held[w].fileID);
  }

  lemma EndSteps(cfg: QC.Config, plan: Plan, s: State, step: Step)
    requires Ready(cfg, plan, s, step)
    requires step.FailOrphan? || step.FinishFailed?
    ensures Kept(cfg, plan, s, step)
  {
    match step
    case FailOrphan(w) =>
      FailOrphanExact(s, w);
      FailOrphanSide(plan, s, w);
    case FinishFailed(w) =>
      FinishFailedExact(s, w);
      QueueOnlySide(plan, s, s.(c := QC.Apply(s.c, QC.DoneBy(w)), fetch := s.fetch - {w}));
  }

  lemma StepKept(cfg: QC.Config, plan: Plan, s: State, step: Step)
    requires plan.WellFormed() && TakenUp(plan, s) && Ready(cfg, plan, s, step)
    ensures Kept(cfg, plan, s, step)
  {
    match step
    case StartGroup(w, g) => StartStep(cfg, plan, s, w, g);
    case Reject(w) => RejectStep(cfg, plan, s, w);
    case SkipJournalled(w) => SkipStep(cfg, plan, s, w);
    case Begin(w) => BeginStep(cfg, plan, s, w);
    case SeekPath(w) => SeekStep(cfg, plan, s, w);
    case LinkMade(_) => LinkSteps(cfg, plan, s, step);
    case LinkRefused(_) => LinkSteps(cfg, plan, s, step);
    case TakeOver(_) => LinkSteps(cfg, plan, s, step);
    case ClaimOrLead(w) => ClaimStep(cfg, plan, s, w);
    case NeedContent(_) => ContentSteps(cfg, plan, s, step);
    case ContentMatches(_) => ContentSteps(cfg, plan, s, step);
    case OrphanFallsBack(_, _) => PushSteps(cfg, plan, s, step);
    case DecideLinks(_, _, _) => PushSteps(cfg, plan, s, step);
    case EndGroup(_) => PushSteps(cfg, plan, s, step);
    case CloseQueue => CloseStep(cfg, plan, s);
    case PublishItem(w) => PublishStep(cfg, plan, s, w);
    case GiveUp(w) => GiveUpStep(cfg, plan, s, w);
    case FailOrphan(_) => EndSteps(cfg, plan, s, step);
    case FinishFailed(_) => EndSteps(cfg, plan, s, step);
    case RetryItem(_) => RequeueSteps(cfg, plan, s, step);
    case ReturnItem(_) => RequeueSteps(cfg, plan, s, step);
    case _ => FetchSteps(cfg, plan, s, step);
  }

  /** A fallback event, when the step makes one. */
  function Falls(plan: Plan, s: State, g: nat, sec: PendingLink, pusher: QC.Pusher, space: bool): Option<QC.Step> {
    if sec.fileID in s.meta && space
    then Some(QC.FallbackPush(NeedItem(sec.fileID, g, EntryOrDefault(plan, sec.fileID).size, sec.rel, 0), pusher))
    else None
  }

  /** The queue event a step makes, if any. */
  function EventOf(cfg: QC.Config, plan: Plan, s: State, step: Step): Option<QC.Step>
    requires Enabled(cfg, plan, s, step)
  {
    match step
    case OrphanFallsBack(w, space) =>
      Falls(plan, s, s.decide[w].group, s.decide[w].pc.rest[0], QC.DecideWorker, space)
    case DecideLinks(w, made, space) =>
      if made then None else Falls(plan, s, s.decide[w].group, s.decide[w].pc.rest[0], QC.DecideWorker, space)
    case FetchLinks(w, made, space) =>
      if made then None else Falls(plan, s, s.c.held[w].groupID, s.fetch[w].rest[0], QC.FetchWorker(w), space)
    case EndGroup(w) =>
      if s.decide[w].items == [] then None
      else Some(QC.GroupPush(ItemsOf(plan, s.decide[w].group, s.decide[w].items)))
    case CloseQueue => Some(QC.CloseQueue)
    case PopItem(w) => Some(QC.PopBy(w))
    case FinishItem(w) => Some(QC.DoneBy(w))
    case FinishFailed(w) => Some(QC.DoneBy(w))
    case RetryItem(w) => Some(QC.RetryBy(w))
    case ReturnItem(w) => Some(QC.ReturnBy(w))
    case _ => None
  }

  /** The client machine accepts e, and the receiver's queue moves by it. */
  ghost predicate Mirrors(cfg: QC.Config, c: QC.Clients, c': QC.Clients, e: Option<QC.Step>)
    requires |c.history| == |c.tries|
  {
    if e.None? then c' == c else QC.Enabled(cfg, c, e.value) && c' == QC.Apply(c, e.value)
  }

  ghost predicate Mirrored(cfg: QC.Config, plan: Plan, s: State, step: Step) {
    |s.c.history| == |s.c.tries| && Enabled(cfg, plan, s, step)
    && Mirrors(cfg, s.c, Apply(cfg, plan, s, step).c, EventOf(cfg, plan, s, step))
  }

  lemma FallsMirror(cfg: QC.Config, plan: Plan, s: State, s1: State, g: nat, sec: PendingLink, a: Actor, space: bool)
    requires |s.c.history| == |s.c.tries| && Exact(s) && Side(plan, s)
    requires sec.fileID in Contents(s, WakeBox(a))
    requires if a.D? then a.w in s.decide else a.w in s.c.held
    requires s1.c == s.c && s1.meta == s.meta
    ensures var pusher := if a.D? then QC.DecideWorker else QC.FetchWorker(a.w);
            Mirrors(cfg, s.c, FetchInstead(plan, s1, g, sec, pusher, space).c, Falls(plan, s, g, sec, pusher, space))
  {
    Listed(s, WakeBox(a), sec.fileID);
    FallbackAccepted(cfg, plan, s, NeedItem(sec.fileID, g, EntryOrDefault(plan, sec.fileID).size, sec.rel, 0), a);
  }

  lemma DecideMirrors(cfg: QC.Config, plan: Plan, s: State, step: Step)
    requires Ready(cfg, plan, s, step) && (step.OrphanFallsBack? || step.DecideLinks? || step.EndGroup?)
    ensures Mirrored(cfg, plan, s, step)
  {
    match step
    case OrphanFallsBack(w, space) =>
      var d := s.decide[w];
      assert LinkIds(d.pc.rest)[0] == d.pc.rest[0].fileID;
      FallsMirror(cfg, plan, s, SetPc(s, w, Clearing(d.pc.f, d.pc.rest[1..])), d.group, d.pc.rest[0], D(w), space);
    case DecideLinks(w, made, space) =>
      var d := s.decide[w];
      assert LinkIds(d.pc.rest)[0] == d.pc.rest[0].fileID;
      FallsMirror(cfg, plan, s, SetPc(s, w, Between(d.pc.rest[1..])), d.group, d.pc.rest[0], D(w), space);
    case EndGroup(w) =>
      if s.decide[w].items != [] {
        GroupAccepted(cfg, plan, s, w);
      }
  }

  lemma FetchMirrors(cfg: QC.Config, plan: Plan, s: State, w: nat, made: bool, space: bool)
    requires Ready(cfg, plan, s, FetchLinks(w, made, space))
    ensures Mirrored(cfg, plan, s, FetchLinks(w, made, space))
  {
    var rest := s.fetch[w].rest;
    assert LinkIds(rest)[0] == rest[0].fileID;
    FallsMirror(cfg, plan, s, s.(fetch := s.fetch[w := Linking(rest[1..])]), s.c.held[w].groupID, rest[0], F(w), space);
  }

  lemma WorkerMirrors(cfg: QC.Config, plan: Plan, s: State, step: Step)
    requires Ready(cfg, plan, s, step)
    requires step.CloseQueue? || step.PopItem? || step.FinishItem?
    ensures Mirrored(cfg, plan, s, step)
  {
  }

  lemma ReleaseMirrors(cfg: QC.Config, plan: Plan, s: State, step: Step)
    requires Ready(cfg, plan, s, step)
    requires step.FinishFailed? || step.RetryItem? || step.ReturnItem?
    ensures Mirrored(cfg, plan, s, step)
  {
  }

  lemma NoEvent(cfg: QC.Config, plan: Plan, s: State, step: Step)
    requires Ready(cfg, plan, s, step)
    requires step.StartGroup? || step.Reject? || step.SkipJournalled? || step.Begin? || step.SeekPath?
             || step.PublishItem? || step.GiveUp? || step.FailOrphan?
    ensures Mirrored(cfg, plan, s, step)
  {
  }

  lemma NoEventEither(cfg: QC.Config, plan: Plan, s: State, step: Step)
    requires Ready(cfg, plan, s, step)
    requires step.LinkMade? || step.LinkRefused? || step.TakeOver? || step.ClaimOrLead?
             || step.NeedContent? || step.ContentMatches?
    ensures Mirrored(cfg, plan, s, step)
  {
  }

  /** Every receiver step is a step of the queue's client machine, or none: the
      client machine's theorems hold of the receiver. */
  lemma RefinesClients(cfg: QC.Config, plan: Plan, s: State, step: Step)
    requires Ready(cfg, plan, s, step)
    ensures Mirrored(cfg, plan, s, step)
  {
    match step
    case OrphanFallsBack(_, _) => DecideMirrors(cfg, plan, s, step);
    case DecideLinks(_, _, _) => DecideMirrors(cfg, plan, s, step);
    case EndGroup(_) => DecideMirrors(cfg, plan, s, step);
    case FetchLinks(w, made, space) => FetchMirrors(cfg, plan, s, w, made, space);
    case CloseQueue => WorkerMirrors(cfg, plan, s, step);
    case PopItem(_) => WorkerMirrors(cfg, plan, s, step);
    case FinishItem(_) => WorkerMirrors(cfg, plan, s, step);
    case FinishFailed(_) => ReleaseMirrors(cfg, plan, s, step);
    case RetryItem(_) => ReleaseMirrors(cfg, plan, s, step);
    case ReturnItem(_) => ReleaseMirrors(cfg, plan, s, step);
    case LinkMade(_) => NoEventEither(cfg, plan, s, step);
    case LinkRefused(_) => NoEventEither(cfg, plan, s, step);
    case TakeOver(_) => NoEventEither(cfg, plan, s, step);
    case ClaimOrLead(_) => NoEventEither(cfg, plan, s, step);
    case NeedContent(_) => NoEventEither(cfg, plan, s, step);
    case ContentMatches(_) => NoEventEither(cfg, plan, s, step);
    case _ => NoEvent(cfg, plan, s, step);
  }

  lemma StepKeeps(cfg: QC.Config, plan: Plan, s: State, step: Step)
    requires plan.WellFormed() && Inv(cfg, plan, s) && Enabled(cfg, plan, s, step)
    ensures Inv(cfg, plan, Apply(cfg, plan, s, step))
  {
    RefinesClients(cfg, plan, s, step);
    var e := EventOf(cfg, plan, s, step);
    if e.Some? {
      QC.StepKeeps(cfg, s.c, e.value);
    }
    StepKept(cfg, plan, s, step);
    TakenUpKept(cfg, plan, s, step);
  }

  // ---- runs ----------------------------------------------------------------

  ghost predicate Runs(cfg: QC.Config, plan: Plan, s: State, steps: seq<Step>)
    requires plan.WellFormed() && Inv(cfg, plan, s)
    decreases |steps|
  {
    steps == [] ||
    (Enabled(cfg, plan, s, steps[0])
     && (StepKeeps(cfg, plan, s, steps[0]); Runs(cfg, plan, Apply(cfg, plan, s, steps[0]), steps[1..])))
  }

  ghost function End(cfg: QC.Config, plan: Plan, s: State, steps: seq<Step>): (r: State)
    requires plan.WellFormed() && Inv(cfg, plan, s) && Runs(cfg, plan, s, steps)
    ensures Inv(cfg, plan, r)
    decreases |steps|
  {
    if steps == [] then s
    else (StepKeeps(cfg, plan, s, steps[0]); End(cfg, plan, Apply(cfg, plan, s, steps[0]), steps[1..]))
  }

  /** The runs of a session. */
  ghost predicate IsRun(cfg: QC.Config, plan: Plan, steps: seq<Step>) {
    plan.WellFormed() && (InitInv(cfg, plan); Runs(cfg, plan, Init(cfg, plan), steps))
  }

  ghost function Final(cfg: QC.Config, plan: Plan, steps: seq<Step>): (r: State)
    requires IsRun(cfg, plan, steps)
    ensures Inv(cfg, plan, r)
  {
    InitInv(cfg, plan);
    End(cfg, plan, Init(cfg, plan), steps)
  }

  /** The states a session can reach. */
  ghost predicate Reachable(cfg: QC.Config, plan: Plan, s: State) {
    exists steps :: IsRun(cfg, plan, steps) && s == Final(cfg, plan, steps)
  }

  lemma InitInv(cfg: QC.Config, plan: Plan)
    requires plan.WellFormed()
    ensures Inv(cfg, plan, Init(cfg, plan))
  {
    var s := Init(cfg, plan);
    var c := b => Contents(s, b);
    assert forall b :: c(b) == [];
    assert ExactIn(c, s.place);
    assert forall p :: p != Undecided ==> Having(s.place, p) == {};
  }

  lemma ReachableInv(cfg: QC.Config, plan: Plan, s: State)
    requires Reachable(cfg, plan, s)
    ensures Inv(cfg, plan, s)
  {
  }

  // ---- the theorems --------------------------------------------------------

  lemma Exactly(s: State, b: Box, f: nat)
    requires Exact(s)
    ensures f in Contents(s, b) <==> f in s.place && s.place[f] == At(b)
    ensures Distinct(Contents(s, b))
  {
    var c := d => Contents(s, d);
    assert ExactIn(c, s.place) && c(b) == Contents(s, b);
    assert Distinct(c(b));
    assert f in c(b) ==> f in s.place && s.place[f] == At(b);
    if f in s.place && s.place[f] == At(b) {
      assert f in c(s.place[f].box);
    }
  }

  /** Every unresolved file is in exactly one place, and there once. */
  lemma NothingDuplicated(cfg: QC.Config, plan: Plan, s: State, b: Box, f: nat)
    requires Reachable(cfg, plan, s)
    ensures s.place.Keys == plan.files.Keys
    ensures f in Contents(s, b) <==> f in s.place && s.place[f] == At(b)
    ensures Distinct(Contents(s, b))
  {
    ReachableInv(cfg, plan, s);
    Exactly(s, b, f);
  }

  /** In every reachable state a key that is seen and not on disk has a primary
      that is still being decided, queued or in flight; so has every key with a
      parked secondary f. */
  lemma EverySecondaryIsAwaited(cfg: QC.Config, plan: Plan, s: State, key: nat, f: nat)
    requires Reachable(cfg, plan, s)
    ensures key in s.links.seen && key !in s.links.keyToPath ==> HasLivePrimary(s, key)
    ensures s.links.Waiting(key) != [] ==> HasLivePrimary(s, key)
    ensures f in s.place && s.place[f] == At(ParkBox(key)) ==> HasLivePrimary(s, key)
  {
    ReachableInv(cfg, plan, s);
    Awaited(s, key, f);
  }

  lemma Awaited(s: State, key: nat, f: nat)
    requires NobodyForgotten(s) && Exact(s)
    ensures Claimable(s.links, key) ==> HasLivePrimary(s, key)
    ensures s.links.Waiting(key) != [] ==> HasLivePrimary(s, key)
    ensures f in s.place && s.place[f] == At(ParkBox(key)) ==> HasLivePrimary(s, key)
  {
    Exactly(s, ParkBox(key), f);
    assert Claimable(s.links, key) ==> HasLivePrimary(s, key);
    assert s.links.Waiting(key) != [] ==> Claimable(s.links, key);
  }

  /** With no worker busy and an empty queue, nothing but parked secondaries
      could be unresolved. */
  lemma IdlePlaces(s: State, f: nat)
    requires Exact(s) && s.decide == map[] && s.fetch.Keys == {} && s.c.q.items == []
    requires f in s.place && s.place[f].At?
    ensures s.place[f].box.ParkBox?
  {
    Exactly(s, s.place[f].box, f);
  }

  lemma NoneParked(s: State, key: nat)
    requires Exact(s) && NobodyForgotten(s) && s.decide == map[] && s.fetch.Keys == {} && s.c.q.items == []
    ensures s.links.Waiting(key) == []
  {
    Awaited(s, key, 0);
    if s.links.Waiting(key) != [] {
      var p :| LivePrimary(s, p) && s.links.fileKey[p] == key;
      IdlePlaces(s, p);
    }
  }

  /** Once the queue has drained, nothing is parked, every file of every decided
      group has one outcome, and the counters count exactly the outcomes. */
  lemma DrainedMeansSettled(cfg: QC.Config, plan: Plan, s: State)
    requires Reachable(cfg, plan, s) && s.c.q.Drained()
    ensures s.place.Keys == plan.files.Keys
    ensures forall f :: f in s.place ==> s.place[f] == Undecided || s.place[f].Outcome()
    ensures forall key :: s.links.Waiting(key) == []
    ensures s.filesFailed == |Having(s.place, Failed)|
    ensures s.filesTransferred == |Having(s.place, Published)|
    ensures s.filesRejected == |Having(s.place, Rejected)|
  {
    ReachableInv(cfg, plan, s);
    DrainedSettles(cfg, plan, s);
  }

  lemma DrainedSettles(cfg: QC.Config, plan: Plan, s: State)
    requires Inv(cfg, plan, s) && s.c.q.Drained()
    ensures forall f :: f in s.place ==> s.place[f] == Undecided || s.place[f].Outcome()
    ensures forall key :: s.links.Waiting(key) == []
  {
    assert s.c.held == map[] && s.decide == map[] && s.fetch.Keys == {};
    Settled(s);
  }

  lemma Settled(s: State)
    requires Exact(s) && NobodyForgotten(s) && s.decide == map[] && s.fetch.Keys == {} && s.c.q.items == []
    ensures forall f :: f in s.place ==> s.place[f] == Undecided || s.place[f].Outcome()
    ensures forall key :: s.links.Waiting(key) == []
  {
    forall key
      ensures s.links.Waiting(key) == []
    {
      NoneParked(s, key);
    }
    forall f | f in s.place
      ensures !s.place[f].At?
    {
      if s.place[f].At? {
        IdlePlaces(s, f);
        var key := s.place[f].box.key;
        Exactly(s, ParkBox(key), f);
        NoneParked(s, key);
      }
    }
  }

  /** Once the queue has drained, a file has one of the five outcomes exactly when its
      group was taken up for decision, and is still undecided otherwise. */
  lemma EveryDecidedFileSettles(cfg: QC.Config, plan: Plan, s: State, g: nat, f: nat)
    requires Reachable(cfg, plan, s) && s.c.q.Drained() && g in plan.groups && f in plan.groups[g]
    ensures f in s.place
    ensures s.place[f].Outcome() <==> g in s.started
    ensures s.place[f] == Undecided <==> g !in s.started
  {
    ReachableInv(cfg, plan, s);
    DrainedSettles(cfg, plan, s);
  }

  /** Whatever is about to be fetched, linked or failed has its metadata on
      record: the fallback's and fetchOne's "no metadata" branches are dead. */
  lemma MetadataAlwaysKnown(cfg: QC.Config, plan: Plan, s: State, a: Actor, w: nat, f: nat)
    requires Reachable(cfg, plan, s)
    ensures f in Contents(s, WakeBox(a)) ==> f in s.meta
    ensures f in Contents(s, HeldBox(w)) ==> f in s.meta
  {
    ReachableInv(cfg, plan, s);
    Exactly(s, WakeBox(a), f);
    Exactly(s, HeldBox(w), f);
  }

  /** Over any session: a file id is pushed at most once and is in one worker's
      hands at most, so pushes never exceed the planned files; no attempt count
      exceeds the maximum; and the pops are bounded by the planned files and the
      uncharged requeues. */
  lemma RetriesBounded(cfg: QC.Config, plan: Plan, s: State)
    requires Reachable(cfg, plan, s)
    ensures Distinct(s.c.history) && s.c.q.pushed == |s.c.history| <= |plan.files.Keys|
    ensures QC.SingleOwner(s.c)
    ensures forall w :: w in s.c.held ==> s.c.held[w].attempt <= cfg.maxRetries
    ensures s.c.q.yielded <= (cfg.maxRetries + 1) * |plan.files.Keys| + s.c.returned
  {
    ReachableInv(cfg, plan, s);
    PushedWithin(cfg, plan, s);
    QC.BoundHere(cfg, s.c);
    Monotone(cfg.maxRetries + 1, s.c.q.pushed, |plan.files.Keys|);
  }

  lemma Monotone(k: nat, a: nat, b: nat)
    requires a <= b
    ensures k * a <= k * b
  {
  }

  lemma PushedWithin(cfg: QC.Config, plan: Plan, s: State)
    requires Inv(cfg, plan, s)
    ensures Distinct(s.c.history) && s.c.q.pushed == |s.c.history| <= |plan.files.Keys|
    ensures s.c.retries <= cfg.maxRetries * |plan.files.Keys|
  {
    DistinctWithin(s.c.history, plan.files.Keys);
    QC.SumBound(s.c.tries, cfg.maxRetries);
    Monotone(cfg.maxRetries, s.c.q.pushed, |plan.files.Keys|);
  }

  // ---- termination ---------------------------------------------------------

  /** How many uncharged requeues a run makes: lost channels and cancelled workers. */
  function Returns(steps: seq<Step>): nat {
    if steps == [] then 0 else (if steps[0].ReturnItem? then 1 else 0) + Returns(steps[1..])
  }

  lemma RankNotNegative(cfg: QC.Config, plan: Plan, s: State)
    requires Inv(cfg, plan, s)
    ensures Rank(cfg, plan, s) >= 0
  {
    PushedWithin(cfg, plan, s);
    QC.Card(s.started, plan.groups.Keys);
  }

  lemma {:induction false} RunSpends(cfg: QC.Config, plan: Plan, s: State, steps: seq<Step>)
    requires plan.WellFormed() && Inv(cfg, plan, s) && Runs(cfg, plan, s, steps)
    ensures |steps| + Rank(cfg, plan, End(cfg, plan, s, steps)) <= Rank(cfg, plan, s) + 2 * Returns(steps)
    decreases |steps|
  {
    if steps != [] {
      StepKeeps(cfg, plan, s, steps[0]);
      StepLowers(cfg, plan, s, steps[0]);
      RunSpends(cfg, plan, Apply(cfg, plan, s, steps[0]), steps[1..]);
    }
  }

  lemma InitRank(cfg: QC.Config, plan: Plan)
    ensures Rank(cfg, plan, Init(cfg, plan))
            == (2 * cfg.maxRetries + 12) * |plan.files.Keys| + 2 * |plan.groups.Keys| + 1
  {
    InitWork(cfg, plan);
    Regroup(cfg.maxRetries, |plan.files.Keys|);
  }

  lemma InitWork(cfg: QC.Config, plan: Plan)
    ensures Work(Init(cfg, plan)) == 12 * |plan.files.Keys|
  {
    var s := Init(cfg, plan);
    MapSumConstant(PlaceRanks(s.place), 12);
    assert PlaceRanks(s.place).Keys == plan.files.Keys;
    assert DecideRanks(s.decide) == map[] && FetchRanks(s.fetch) == map[];
  }

  lemma Regroup(a: nat, n: nat)
    ensures (2 * a + 12) * n == 2 * (a * n) + 12 * n
  {
  }

  /** Every session ends: a run makes no more steps than the plan, the retry limit and
      its uncharged requeues allow, because every other step lowers the rank. */
  lemma RunsTerminate(cfg: QC.Config, plan: Plan, steps: seq<Step>)
    requires IsRun(cfg, plan, steps)
    ensures |steps| <= (2 * cfg.maxRetries + 12) * |plan.files.Keys| + 2 * |plan.groups.Keys| + 1 + 2 * Returns(steps)
  {
    InitInv(cfg, plan);
    RunSpends(cfg, plan, Init(cfg, plan), steps);
    RankNotNegative(cfg, plan, Final(cfg, plan, steps));
    InitRank(cfg, plan);
  }
}
