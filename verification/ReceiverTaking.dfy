/** Which files have been taken up for decision: no step makes a file undecided
    again, and only taking up its group takes it up (internal/receiver/decide.go). */
module ReceiverTaking {
  import opened HardlinkMap
  import opened Receiver
  import opened ReceiverInvariant
  import QC = QueueClients

  predicate Taken(place: map<nat, Place>, f: nat) { f in place && place[f] != Undecided }

  lemma HandTakes(place: map<nat, Place>, secs: seq<PendingLink>, actor: Actor, f: nat)
    requires Taken(place, f)
    ensures Taken(Hand(place, secs, actor), f)
  {
  }

  lemma PutAllTakes(place: map<nat, Place>, fs: seq<nat>, box: Box, f: nat)
    requires f in place && (f in fs || Taken(place, f))
    ensures Taken(PutAll(place, fs, box), f)
  {
  }

  lemma FallbackTakes(plan: Plan, s: State, g: nat, sec: PendingLink, pusher: QC.Pusher, space: bool, f: nat)
    requires |s.c.history| == |s.c.tries| && Taken(s.place, f)
    ensures Taken(FetchInstead(plan, s, g, sec, pusher, space).place, f)
  {
  }

  /** A decide worker's step leaves no file undecided that was taken up. */
  lemma EntryTakes(cfg: QC.Config, plan: Plan, s: State, step: Step, f: nat)
    requires |s.c.history| == |s.c.tries| && Enabled(cfg, plan, s, step) && Taken(s.place, f)
    requires step.StartGroup? || step.Reject? || step.SkipJournalled? || step.Begin? || step.SeekPath? || step.LinkMade?
    ensures Taken(Apply(cfg, plan, s, step).place, f)
  {
    if step.StartGroup? {
      PutAllTakes(s.place, plan.groups[step.g], TodoBox(step.w), f);
    }
  }

  lemma LinkTakes(cfg: QC.Config, plan: Plan, s: State, step: Step, f: nat)
    requires |s.c.history| == |s.c.tries| && Enabled(cfg, plan, s, step) && Taken(s.place, f)
    requires step.LinkRefused? || step.OrphanFallsBack? || step.TakeOver? || step.ClaimOrLead? || step.DecideLinks?
    ensures Taken(Apply(cfg, plan, s, step).place, f)
  {
    match step
    case LinkRefused(w) => HandTakes(s.place, s.links.Waiting(KeyOf(plan, s.decide[w].pc.f)), D(w), f);
    case OrphanFallsBack(w, space) =>
      var d := s.decide[w];
      FallbackTakes(plan, SetPc(s, w, Clearing(d.pc.f, d.pc.rest[1..])), d.group, d.pc.rest[0], QC.DecideWorker, space, f);
    case DecideLinks(w, made, space) =>
      var d := s.decide[w];
      FallbackTakes(plan, SetPc(s, w, Between(d.pc.rest[1..])), d.group, d.pc.rest[0], QC.DecideWorker, space, f);
    case _ =>
  }

  lemma ContentTakes(cfg: QC.Config, plan: Plan, s: State, step: Step, f: nat)
    requires |s.c.history| == |s.c.tries| && Enabled(cfg, plan, s, step) && Taken(s.place, f)
    requires step.NeedContent? || step.ContentMatches? || step.EndGroup? || step.CloseQueue? || step.PopItem?
    ensures Taken(Apply(cfg, plan, s, step).place, f)
  {
    match step
    case ContentMatches(w) =>
      var pc := s.decide[w].pc;
      if pc.primary {
        HandTakes(DoSkip(s, w).place, WaitingOn(s.links, pc.f), D(w), f);
      }
    case EndGroup(w) => PutAllTakes(s.place, s.decide[w].items, QueueBox, f);
    case _ =>
  }

  /** So does a fetch worker's. */
  lemma FetchTakes(cfg: QC.Config, plan: Plan, s: State, step: Step, f: nat)
    requires |s.c.history| == |s.c.tries| && Enabled(cfg, plan, s, step) && Taken(s.place, f)
    requires step.PublishItem? || step.FetchLinks? || step.FinishItem? || step.RetryItem? || step.ReturnItem?
             || step.GiveUp? || step.FailOrphan? || step.FinishFailed?
    ensures Taken(Apply(cfg, plan, s, step).place, f)
  {
    match step
    case PublishItem(w) =>
      HandTakes(DoPublish(s, w).place, WaitingOn(s.links, s.c.held[w].fileID), F(w), f);
    case GiveUp(w) =>
      HandTakes(DoGiveUp(s, w).place, WaitingOn(s.links, s.c.held[w].fileID), F(w), f);
    case FetchLinks(w, made, space) =>
      var rest := s.fetch[w].rest;
      FallbackTakes(plan, s.(fetch := s.fetch[w := Linking(rest[1..])]), s.c.held[w].groupID, rest[0],
                    QC.FetchWorker(w), space, f);
    case _ =>
  }

  /** A file that has been taken up for decision never becomes undecided again. */
  lemma StaysTaken(cfg: QC.Config, plan: Plan, s: State, step: Step, f: nat)
    requires |s.c.history| == |s.c.tries| && Enabled(cfg, plan, s, step) && Taken(s.place, f)
    ensures Taken(Apply(cfg, plan, s, step).place, f)
  {
    if step.StartGroup? || step.Reject? || step.SkipJournalled? || step.Begin? || step.SeekPath? || step.LinkMade? {
      EntryTakes(cfg, plan, s, step, f);
    } else if step.LinkRefused? || step.OrphanFallsBack? || step.TakeOver? || step.ClaimOrLead? || step.DecideLinks? {
      LinkTakes(cfg, plan, s, step, f);
    } else if step.NeedContent? || step.ContentMatches? || step.EndGroup? || step.CloseQueue? || step.PopItem? {
      ContentTakes(cfg, plan, s, step, f);
    } else {
      FetchTakes(cfg, plan, s, step, f);
    }
  }

  // ---- files that are not being worked on ----------------------------------

  /** Undecided, or with an outcome, or published by a worker that is still linking. */
  predicate Resting(s: State, f: nat) { f in s.place && (s.place[f].At? ==> s.place[f].box.LandedBox?) }

  predicate Unmoved(s: State, s': State, f: nat) { f in s.place && f in s'.place && s'.place[f] == s.place[f] }

  lemma NotListed(s: State, b: Box, f: nat)
    requires Exact(s) && Resting(s, f) && !b.LandedBox?
    ensures f !in Contents(s, b)
  {
    if f in Contents(s, b) {
      Listed(s, b, f);
    }
  }

  lemma NotWaiting(s: State, key: nat, f: nat)
    requires Exact(s) && Resting(s, f)
    ensures f !in LinkIds(s.links.Waiting(key))
  {
    NotListed(s, ParkBox(key), f);
  }

  lemma NotWaitingOn(s: State, p: nat, f: nat)
    requires Exact(s) && Resting(s, f)
    ensures f !in LinkIds(WaitingOn(s.links, p))
  {
    if p in s.links.fileKey {
      NotWaiting(s, s.links.fileKey[p], f);
    }
  }

  lemma HandPassesBy(place: map<nat, Place>, secs: seq<PendingLink>, actor: Actor, f: nat)
    requires f in place && f !in LinkIds(secs)
    ensures f in Hand(place, secs, actor) && Hand(place, secs, actor)[f] == place[f]
  {
  }

  lemma FallbackPassesBy(plan: Plan, s: State, g: nat, sec: PendingLink, pusher: QC.Pusher, space: bool, f: nat)
    requires |s.c.history| == |s.c.tries| && f in s.place && sec.fileID != f
    ensures Unmoved(s, FetchInstead(plan, s, g, sec, pusher, space), f)
  {
  }

  lemma WakeNot(s: State, actor: Actor, secs: seq<PendingLink>, f: nat)
    requires Exact(s) && Resting(s, f) && secs != [] && Contents(s, WakeBox(actor)) == LinkIds(secs)
    ensures secs[0].fileID != f
  {
    NotListed(s, WakeBox(actor), f);
    assert LinkIds(secs)[0] in LinkIds(secs);
  }

  lemma EntryPassesBy(cfg: QC.Config, plan: Plan, s: State, step: Step, f: nat)
    requires |s.c.history| == |s.c.tries| && Enabled(cfg, plan, s, step) && Exact(s) && Resting(s, f)
    requires step.Reject? || step.SkipJournalled? || step.Begin? || step.SeekPath? || step.LinkMade?
    ensures Unmoved(s, Apply(cfg, plan, s, step), f)
  {
    NotListed(s, TodoBox(step.w), f);
    NotListed(s, CurBox(step.w), f);
    if AtEntry(s, step.w) {
      assert s.decide[step.w].todo[0] in Contents(s, TodoBox(step.w));
    } else if step.LinkMade? {
      assert s.decide[step.w].pc.f in Contents(s, CurBox(step.w));
    }
  }

  lemma LinkPassesBy(cfg: QC.Config, plan: Plan, s: State, step: Step, f: nat)
    requires |s.c.history| == |s.c.tries| && Enabled(cfg, plan, s, step) && Exact(s) && Resting(s, f)
    requires step.LinkRefused? || step.OrphanFallsBack? || step.TakeOver? || step.ClaimOrLead? || step.DecideLinks?
    ensures Unmoved(s, Apply(cfg, plan, s, step), f)
  {
    var w := step.w;
    var d := s.decide[w];
    match step
    case LinkRefused(_) =>
      NotWaiting(s, KeyOf(plan, d.pc.f), f);
      HandPassesBy(s.place, s.links.Waiting(KeyOf(plan, d.pc.f)), D(w), f);
    case OrphanFallsBack(_, space) =>
      WakeNot(s, D(w), d.pc.rest, f);
      FallbackPassesBy(plan, SetPc(s, w, Clearing(d.pc.f, d.pc.rest[1..])), d.group, d.pc.rest[0], QC.DecideWorker, space, f);
    case DecideLinks(_, made, space) =>
      WakeNot(s, D(w), d.pc.rest, f);
      FallbackPassesBy(plan, SetPc(s, w, Between(d.pc.rest[1..])), d.group, d.pc.rest[0], QC.DecideWorker, space, f);
    case ClaimOrLead(_) =>
      NotListed(s, CurBox(w), f);
      assert d.pc.f in Contents(s, CurBox(w));
    case TakeOver(_) =>
  }

  lemma ContentPassesBy(cfg: QC.Config, plan: Plan, s: State, step: Step, f: nat)
    requires |s.c.history| == |s.c.tries| && Enabled(cfg, plan, s, step) && Exact(s) && Resting(s, f)
    requires step.NeedContent? || step.ContentMatches? || step.EndGroup? || step.CloseQueue? || step.PopItem?
    ensures Unmoved(s, Apply(cfg, plan, s, step), f)
  {
    match step
    case NeedContent(w) =>
      NotListed(s, CurBox(w), f);
      assert s.decide[w].pc.f in Contents(s, CurBox(w));
    case ContentMatches(w) =>
      NotListed(s, CurBox(w), f);
      assert s.decide[w].pc.f in Contents(s, CurBox(w));
      NotWaitingOn(s, s.decide[w].pc.f, f);
      HandPassesBy(DoSkip(s, w).place, WaitingOn(s.links, s.decide[w].pc.f), D(w), f);
    case EndGroup(w) => NotListed(s, NeedBox(w), f);
    case PopItem(w) =>
      NotListed(s, QueueBox, f);
      assert QC.Ids(s.c.q.items)[0] in Contents(s, QueueBox);
    case CloseQueue =>
  }

  lemma FetchPassesBy(cfg: QC.Config, plan: Plan, s: State, step: Step, f: nat)
    requires |s.c.history| == |s.c.tries| && Enabled(cfg, plan, s, step) && Exact(s) && Resting(s, f)
    requires step.PublishItem? || step.RetryItem? || step.ReturnItem? || step.GiveUp?
    ensures Unmoved(s, Apply(cfg, plan, s, step), f)
  {
    var w := step.w;
    var p := s.c.held[w].fileID;
    NotListed(s, HeldBox(w), f);
    assert p in Contents(s, HeldBox(w));
    NotWaitingOn(s, p, f);
    if step.PublishItem? {
      HandPassesBy(DoPublish(s, w).place, WaitingOn(s.links, p), F(w), f);
    } else if step.GiveUp? {
      HandPassesBy(DoGiveUp(s, w).place, WaitingOn(s.links, p), F(w), f);
    }
  }

  lemma OrphanPassesBy(cfg: QC.Config, plan: Plan, s: State, step: Step, f: nat)
    requires |s.c.history| == |s.c.tries| && Enabled(cfg, plan, s, step) && Exact(s) && Resting(s, f)
    requires step.FetchLinks? || step.FailOrphan? || step.FinishFailed?
    ensures Unmoved(s, Apply(cfg, plan, s, step), f)
  {
    var w := step.w;
    match step
    case FetchLinks(_, made, space) =>
      var rest := s.fetch[w].rest;
      WakeNot(s, F(w), rest, f);
      FallbackPassesBy(plan, s.(fetch := s.fetch[w := Linking(rest[1..])]), s.c.held[w].groupID, rest[0],
                       QC.FetchWorker(w), space, f);
    case FailOrphan(_) => WakeNot(s, F(w), s.fetch[w].rest, f);
    case FinishFailed(_) =>
  }

  /** Only taking up its group moves an undecided file, only finishing it moves a
      published one, and nothing moves a file that has its outcome. */
  lemma PassesBy(cfg: QC.Config, plan: Plan, s: State, step: Step, f: nat)
    requires |s.c.history| == |s.c.tries| && Enabled(cfg, plan, s, step) && Exact(s) && Resting(s, f)
    requires step.StartGroup? ==> f !in plan.groups[step.g]
    requires step.FinishItem? ==> f != s.c.held[step.w].fileID
    ensures Unmoved(s, Apply(cfg, plan, s, step), f)
  {
    if step.StartGroup? || step.FinishItem? {
    } else if step.Reject? || step.SkipJournalled? || step.Begin? || step.SeekPath? || step.LinkMade? {
      EntryPassesBy(cfg, plan, s, step, f);
    } else if step.LinkRefused? || step.OrphanFallsBack? || step.TakeOver? || step.ClaimOrLead? || step.DecideLinks? {
      LinkPassesBy(cfg, plan, s, step, f);
    } else if step.NeedContent? || step.ContentMatches? || step.EndGroup? || step.CloseQueue? || step.PopItem? {
      ContentPassesBy(cfg, plan, s, step, f);
    } else if step.FetchLinks? || step.FailOrphan? || step.FinishFailed? {
      OrphanPassesBy(cfg, plan, s, step, f);
    } else {
      FetchPassesBy(cfg, plan, s, step, f);
    }
  }

  lemma FinishedWasLanded(s: State, w: nat)
    requires Exact(s) && w in s.fetch && w in s.c.held && s.fetch[w].Linking?
    ensures s.c.held[w].fileID in s.place && s.place[s.c.held[w].fileID] == At(LandedBox(w))
  {
    assert s.c.held[w].fileID in Contents(s, LandedBox(w));
    Listed(s, LandedBox(w), s.c.held[w].fileID);
  }

  /** An outcome is final, and an undecided file outside the group taken up stays so. */
  lemma StaysIdle(cfg: QC.Config, plan: Plan, s: State, step: Step, f: nat)
    requires |s.c.history| == |s.c.tries| && Enabled(cfg, plan, s, step) && Exact(s)
    requires f in s.place && !s.place[f].At?
    requires step.StartGroup? ==> f !in plan.groups[step.g]
    ensures Unmoved(s, Apply(cfg, plan, s, step), f)
  {
    if step.FinishItem? {
      FinishedWasLanded(s, step.w);
    }
    PassesBy(cfg, plan, s, step, f);
  }

  predicate ByFetch(step: Step) {
    step.PopItem? || step.PublishItem? || step.FetchLinks? || step.FinishItem? || step.RetryItem? || step.ReturnItem?
    || step.GiveUp? || step.FailOrphan? || step.FinishFailed?
  }

  predicate OnEntry(step: Step) {
    step.StartGroup? || step.Reject? || step.SkipJournalled? || step.Begin? || step.SeekPath? || step.LinkMade?
    || step.LinkRefused? || step.TakeOver? || step.ClaimOrLead?
  }

  /** A decide worker takes nothing out of the hands of a fetch worker. */
  lemma EntryLeavesHeld(cfg: QC.Config, plan: Plan, s: State, step: Step)
    requires |s.c.history| == |s.c.tries| && Enabled(cfg, plan, s, step) && OnEntry(step)
    ensures Apply(cfg, plan, s, step).c == s.c && Apply(cfg, plan, s, step).fetch == s.fetch
  {
  }

  lemma DecideLeavesHeld(cfg: QC.Config, plan: Plan, s: State, step: Step)
    requires |s.c.history| == |s.c.tries| && Enabled(cfg, plan, s, step) && !ByFetch(step)
    ensures Apply(cfg, plan, s, step).c.held == s.c.held && Apply(cfg, plan, s, step).fetch == s.fetch
  {
    if OnEntry(step) {
      EntryLeavesHeld(cfg, plan, s, step);
    }
  }

  // ---- published files -----------------------------------------------------

  /** Published, or on disk with its secondaries still to be linked. */
  predicate OnDisk(place: map<nat, Place>, f: nat) {
    f in place && (place[f].Published? || (place[f].At? && place[f].box.LandedBox?))
  }

  lemma StaysOnDisk(cfg: QC.Config, plan: Plan, s: State, step: Step, f: nat)
    requires |s.c.history| == |s.c.tries| && Enabled(cfg, plan, s, step) && Exact(s) && OnDisk(s.place, f)
    requires step.StartGroup? ==> f !in plan.groups[step.g]
    ensures OnDisk(Apply(cfg, plan, s, step).place, f)
  {
    if !(step.FinishItem? && f == s.c.held[step.w].fileID) {
      PassesBy(cfg, plan, s, step, f);
    }
  }

  lemma HeldIsHeld(s: State, w: nat)
    requires Exact(s) && Fetches(s, w)
    ensures s.c.held[w].fileID in s.place && s.place[s.c.held[w].fileID] == At(HeldBox(w))
  {
    assert s.c.held[w].fileID in Contents(s, HeldBox(w));
    Listed(s, HeldBox(w), s.c.held[w].fileID);
  }

  lemma PublishedIsOnDisk(cfg: QC.Config, plan: Plan, s: State, w: nat)
    requires Exact(s) && Fetches(s, w) && |s.c.history| == |s.c.tries|
    ensures OnDisk(Apply(cfg, plan, s, PublishItem(w)).place, s.c.held[w].fileID)
  {
    var p := s.c.held[w].fileID;
    HeldIsHeld(s, w);
    if p in LinkIds(WaitingOn(s.links, p)) {
      Listed(s, ParkBox(s.links.fileKey[p]), p);
    }
    HandPassesBy(DoPublish(s, w).place, WaitingOn(s.links, p), F(w), p);
  }

  lemma EntryNeverPublishes(cfg: QC.Config, plan: Plan, s: State, step: Step, f: nat)
    requires |s.c.history| == |s.c.tries| && Enabled(cfg, plan, s, step)
    requires step.StartGroup? || step.Reject? || step.SkipJournalled? || step.Begin? || step.SeekPath? || step.LinkMade?
             || step.LinkRefused? || step.TakeOver? || step.ClaimOrLead?
    requires OnDisk(Apply(cfg, plan, s, step).place, f)
    ensures OnDisk(s.place, f)
  {
  }

  lemma WokenNeverPublishes(cfg: QC.Config, plan: Plan, s: State, step: Step, f: nat)
    requires |s.c.history| == |s.c.tries| && Enabled(cfg, plan, s, step) && (step.OrphanFallsBack? || step.DecideLinks?)
    requires OnDisk(Apply(cfg, plan, s, step).place, f)
    ensures OnDisk(s.place, f)
  {
  }

  lemma DecideNeverPublishes(cfg: QC.Config, plan: Plan, s: State, step: Step, f: nat)
    requires |s.c.history| == |s.c.tries| && Enabled(cfg, plan, s, step) && !ByFetch(step)
    requires OnDisk(Apply(cfg, plan, s, step).place, f)
    ensures OnDisk(s.place, f)
  {
    if step.OrphanFallsBack? || step.DecideLinks? {
      WokenNeverPublishes(cfg, plan, s, step, f);
    } else if !(step.NeedContent? || step.ContentMatches? || step.EndGroup? || step.CloseQueue?) {
      EntryNeverPublishes(cfg, plan, s, step, f);
    }
  }

  lemma LinkingNeverPublishes(cfg: QC.Config, plan: Plan, s: State, step: Step, f: nat)
    requires |s.c.history| == |s.c.tries| && Enabled(cfg, plan, s, step)
    requires step.FetchLinks? || step.GiveUp? || step.FailOrphan? || step.FinishFailed?
    requires OnDisk(Apply(cfg, plan, s, step).place, f)
    ensures OnDisk(s.place, f)
  {
  }

  lemma FetchPublishes(cfg: QC.Config, plan: Plan, s: State, step: Step, f: nat)
    requires |s.c.history| == |s.c.tries| && Enabled(cfg, plan, s, step) && Exact(s) && ByFetch(step)
    requires OnDisk(Apply(cfg, plan, s, step).place, f)
    ensures OnDisk(s.place, f) || (step.PublishItem? && f == s.c.held[step.w].fileID)
  {
    if step.FetchLinks? || step.GiveUp? || step.FailOrphan? || step.FinishFailed? {
      LinkingNeverPublishes(cfg, plan, s, step, f);
    } else if step.FinishItem? {
      FinishedWasLanded(s, step.w);
    }
  }

  // ---- started groups ------------------------------------------------------

  lemma StartedByDecide(cfg: QC.Config, plan: Plan, s: State, step: Step)
    requires |s.c.history| == |s.c.tries| && Enabled(cfg, plan, s, step) && !ByFetch(step)
    ensures Apply(cfg, plan, s, step).started == if step.StartGroup? then s.started + {step.g} else s.started
  {
  }

  lemma StartedByFetch(cfg: QC.Config, plan: Plan, s: State, step: Step)
    requires |s.c.history| == |s.c.tries| && Enabled(cfg, plan, s, step) && ByFetch(step)
    ensures Apply(cfg, plan, s, step).started == s.started
  {
  }

  lemma StartedAfter(cfg: QC.Config, plan: Plan, s: State, step: Step)
    requires |s.c.history| == |s.c.tries| && Enabled(cfg, plan, s, step)
    ensures Apply(cfg, plan, s, step).started == if step.StartGroup? then s.started + {step.g} else s.started
  {
    if ByFetch(step) {
      StartedByFetch(cfg, plan, s, step);
    } else {
      StartedByDecide(cfg, plan, s, step);
    }
  }

  lemma TakenUpFile(cfg: QC.Config, plan: Plan, s: State, step: Step, g: nat, f: nat)
    requires plan.WellFormed() && |s.c.history| == |s.c.tries| && Enabled(cfg, plan, s, step)
    requires Exact(s) && TakenUp(plan, s) && g in plan.groups && f in plan.groups[g]
    ensures var s' := Apply(cfg, plan, s, step);
            f in s'.place && (s'.place[f] == Undecided <==> g !in s'.started)
  {
    StartedAfter(cfg, plan, s, step);
    if s.place[f] != Undecided {
      StaysTaken(cfg, plan, s, step, f);
    } else if step.StartGroup? && f in plan.groups[step.g] {
      PutAllTakes(s.place, plan.groups[step.g], TodoBox(step.w), f);
    } else {
      StaysIdle(cfg, plan, s, step, f);
    }
  }

  lemma TakenUpKept(cfg: QC.Config, plan: Plan, s: State, step: Step)
    requires plan.WellFormed() && |s.c.history| == |s.c.tries| && Enabled(cfg, plan, s, step)
    requires Exact(s) && TakenUp(plan, s)
    ensures TakenUp(plan, Apply(cfg, plan, s, step))
  {
    StartedAfter(cfg, plan, s, step);
    forall g, f | g in plan.groups && f in plan.groups[g]
      ensures var s' := Apply(cfg, plan, s, step);
              f in s'.place && (s'.place[f] == Undecided <==> g !in s'.started)
    {
      TakenUpFile(cfg, plan, s, step, g, f);
    }
  }
}
