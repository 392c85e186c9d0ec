/** A rank that every step of the receiver lowers, uncharged requeues apart
    (internal/receiver/decide.go, internal/receiver/fetch.go): files only move
    forward, retries are charged, and groups are taken up once. */
module ReceiverRank {
  import opened Finite
  import opened HardlinkMap
  import opened Receiver
  import opened ReceiverInvariant
  import QC = QueueClients

  /** How far a file is from its outcome. */
  function PlaceRank(p: Place): nat {
    match p
    case Undecided => 12
    case At(b) =>
      (match b
       case TodoBox(_) => 11
       case CurBox(_) => 6
       case ParkBox(_) => 5
       case NeedBox(_) => 4
       case WakeBox(_) => 4
       case QueueBox => 3
       case HeldBox(_) => 2
       case LandedBox(_) => 1)
    case _ => 0
  }

  /** How far a decide worker is from the end of its entry. */
  function PcRank(pc: DecidePc): nat {
    match pc
    case Between(_) => 0
    case AskPath(_) => 4
    case TryLink(_) => 3
    case AskClaim(_) => 3
    case Clearing(_, _) => 2
    case Content(_, _) => 1
  }

  function FetchRank(pc: FetchPc): nat { if pc.Abandoning? then 1 else 0 }

  function PlaceRanks(place: map<nat, Place>): map<nat, nat> { map f | f in place :: PlaceRank(place[f]) }

  function DecideRanks(decide: map<nat, Decider>): map<nat, nat> { map w | w in decide :: 1 + PcRank(decide[w].pc) }

  function FetchRanks(fetch: map<nat, FetchPc>): map<nat, nat> { map w | w in fetch :: FetchRank(fetch[w]) }

  ghost function Work(s: State): nat {
    MapSum(PlaceRanks(s.place)) + MapSum(DecideRanks(s.decide)) + MapSum(FetchRanks(s.fetch))
  }

  ghost function Rank(cfg: QC.Config, plan: Plan, s: State): int {
    2 * (cfg.maxRetries * |plan.files| - s.c.retries) + Work(s)
    + 2 * (|plan.groups.Keys| - |s.started|) + (if s.c.q.closed then 0 else 1)
  }

  // ---- the three sums ------------------------------------------------------

  lemma PlaceMoves(place: map<nat, Place>, f: nat, p: Place)
    requires f in place
    ensures MapSum(PlaceRanks(place[f := p])) + PlaceRank(place[f]) == MapSum(PlaceRanks(place)) + PlaceRank(p)
  {
    MapSumUpdate(PlaceRanks(place), f, PlaceRank(p));
    assert PlaceRanks(place[f := p]) == PlaceRanks(place)[f := PlaceRank(p)];
  }

  lemma PlacesFall(place: map<nat, Place>, place': map<nat, Place>)
    requires place.Keys == place'.Keys && forall f :: f in place ==> PlaceRank(place'[f]) <= PlaceRank(place[f])
    ensures MapSum(PlaceRanks(place')) <= MapSum(PlaceRanks(place))
  {
    MapSumLess(PlaceRanks(place), PlaceRanks(place'));
  }

  lemma HandFalls(place: map<nat, Place>, secs: seq<PendingLink>, actor: Actor)
    requires forall f :: f in LinkIds(secs) && f in place ==> place[f].At? && place[f].box.ParkBox?
    ensures MapSum(PlaceRanks(Hand(place, secs, actor))) <= MapSum(PlaceRanks(place))
  {
    PlacesFall(place, Hand(place, secs, actor));
  }

  lemma PutAllFalls(place: map<nat, Place>, fs: seq<nat>, box: Box)
    requires forall f :: f in fs && f in place ==> PlaceRank(At(box)) <= PlaceRank(place[f])
    ensures MapSum(PlaceRanks(PutAll(place, fs, box))) <= MapSum(PlaceRanks(place))
  {
    PlacesFall(place, PutAll(place, fs, box));
  }

  lemma DecideMoves(decide: map<nat, Decider>, w: nat, d: Decider)
    requires w in decide
    ensures MapSum(DecideRanks(decide[w := d])) + PcRank(decide[w].pc) == MapSum(DecideRanks(decide)) + PcRank(d.pc)
  {
    MapSumUpdate(DecideRanks(decide), w, 1 + PcRank(d.pc));
    assert DecideRanks(decide[w := d]) == DecideRanks(decide)[w := 1 + PcRank(d.pc)];
  }

  lemma DecideStarts(decide: map<nat, Decider>, w: nat, d: Decider)
    requires w !in decide && d.pc == Between([])
    ensures MapSum(DecideRanks(decide[w := d])) == MapSum(DecideRanks(decide)) + 1
  {
    MapSumAdd(DecideRanks(decide), w, 1);
    assert DecideRanks(decide[w := d]) == DecideRanks(decide)[w := 1];
  }

  lemma DecideEnds(decide: map<nat, Decider>, w: nat)
    requires w in decide
    ensures MapSum(DecideRanks(decide - {w})) < MapSum(DecideRanks(decide))
  {
    MapSumAt(DecideRanks(decide), w);
    assert DecideRanks(decide - {w}) == Without(DecideRanks(decide), w);
  }

  lemma FetchMoves(fetch: map<nat, FetchPc>, w: nat, pc: FetchPc)
    requires w in fetch
    ensures MapSum(FetchRanks(fetch[w := pc])) + FetchRank(fetch[w]) == MapSum(FetchRanks(fetch)) + FetchRank(pc)
  {
    MapSumUpdate(FetchRanks(fetch), w, FetchRank(pc));
    assert FetchRanks(fetch[w := pc]) == FetchRanks(fetch)[w := FetchRank(pc)];
  }

  lemma FetchStarts(fetch: map<nat, FetchPc>, w: nat)
    requires w !in fetch
    ensures MapSum(FetchRanks(fetch[w := Fetching])) == MapSum(FetchRanks(fetch))
  {
    MapSumAdd(FetchRanks(fetch), w, 0);
    assert FetchRanks(fetch[w := Fetching]) == FetchRanks(fetch)[w := 0];
  }

  lemma FetchEnds(fetch: map<nat, FetchPc>, w: nat)
    requires w in fetch
    ensures MapSum(FetchRanks(fetch - {w})) + FetchRank(fetch[w]) == MapSum(FetchRanks(fetch))
  {
    MapSumAt(FetchRanks(fetch), w);
    assert FetchRanks(fetch - {w}) == Without(FetchRanks(fetch), w);
  }

  // ---- each step -----------------------------------------------------------

  /** The step does some work and nothing else of what the rank counts. */
  ghost predicate Falls(s: State, s': State) {
    s'.c.retries == s.c.retries && s'.started == s.started && s'.c.q.closed == s.c.q.closed && Work(s') < Work(s)
  }

  /** A decide worker moves its entry, or only itself. */
  lemma DecideFalls(s: State, s': State, w: nat, d: Decider, f: nat, p: Place)
    requires w in s.decide && f in s.place && s'.decide == s.decide[w := d] && s'.place == s.place[f := p]
    requires s'.fetch == s.fetch && s'.c == s.c && s'.started == s.started
    requires PlaceRank(p) + PcRank(d.pc) < PlaceRank(s.place[f]) + PcRank(s.decide[w].pc)
    ensures Falls(s, s')
  {
    DecideMoves(s.decide, w, d);
    PlaceMoves(s.place, f, p);
  }

  lemma PcFalls(s: State, s': State, w: nat, d: Decider)
    requires w in s.decide && s'.decide == s.decide[w := d] && s'.place == s.place
    requires s'.fetch == s.fetch && s'.c == s.c && s'.started == s.started
    requires PcRank(d.pc) < PcRank(s.decide[w].pc)
    ensures Falls(s, s')
  {
    DecideMoves(s.decide, w, d);
  }

  lemma EntryFalls(cfg: QC.Config, plan: Plan, s: State, step: Step)
    requires |s.c.history| == |s.c.tries| && Enabled(cfg, plan, s, step) && Exact(s)
    requires step.Reject? || step.SkipJournalled? || step.Begin?
    ensures Falls(s, Apply(cfg, plan, s, step))
  {
    var w, s' := step.w, Apply(cfg, plan, s, step);
    var f := s.decide[w].todo[0];
    assert f in Contents(s, TodoBox(w));
    Listed(s, TodoBox(w), f);
    DecideFalls(s, s', w, s'.decide[w], f, s'.place[f]);
  }

  lemma CurrentListed(s: State, w: nat)
    requires Exact(s) && w in s.decide && !s.decide[w].pc.Between?
    ensures s.decide[w].pc.f in s.place && s.place[s.decide[w].pc.f] == At(CurBox(w))
  {
    assert s.decide[w].pc.f in Contents(s, CurBox(w));
    Listed(s, CurBox(w), s.decide[w].pc.f);
  }

  lemma WaitingParked(s: State, key: nat)
    requires Exact(s)
    ensures forall f :: f in LinkIds(s.links.Waiting(key)) ==> f in s.place && s.place[f] == At(ParkBox(key))
  {
    forall f | f in LinkIds(s.links.Waiting(key))
      ensures f in s.place && s.place[f] == At(ParkBox(key))
    {
      assert f in Contents(s, ParkBox(key));
      Listed(s, ParkBox(key), f);
    }
  }

  lemma WaitingOnParked(s: State, p: nat)
    requires Exact(s)
    ensures forall f :: f in LinkIds(WaitingOn(s.links, p)) ==>
              f in s.place && s.place[f].At? && s.place[f].box.ParkBox?
  {
    if p in s.links.fileKey {
      WaitingParked(s, s.links.fileKey[p]);
    }
  }

  lemma PathFalls(cfg: QC.Config, plan: Plan, s: State, step: Step)
    requires |s.c.history| == |s.c.tries| && Enabled(cfg, plan, s, step) && Exact(s)
    requires step.SeekPath? || step.LinkMade? || step.TakeOver? || step.ClaimOrLead? || step.NeedContent?
    ensures Falls(s, Apply(cfg, plan, s, step))
  {
    var w, s' := step.w, Apply(cfg, plan, s, step);
    var f := s.decide[w].pc.f;
    CurrentListed(s, w);
    if s'.place == s.place {
      PcFalls(s, s', w, s'.decide[w]);
    } else {
      DecideFalls(s, s', w, s'.decide[w], f, s'.place[f]);
    }
  }

  lemma RefusedFalls(plan: Plan, s: State, w: nat, key: nat)
    requires Exact(s) && w in s.decide && s.decide[w].pc.TryLink?
    ensures Falls(s, DoLinkRefused(s, w, key))
  {
    WaitingParked(s, key);
    HandFalls(s.place, s.links.Waiting(key), D(w));
    DecideMoves(s.decide, w, s.decide[w].(pc := Clearing(s.decide[w].pc.f, s.links.Waiting(key))));
  }

  lemma SkipFalls(s: State, w: nat)
    requires Exact(s) && w in s.decide && s.decide[w].pc.Content?
    ensures Falls(s, DoSkip(s, w))
  {
    var s' := DoSkip(s, w);
    CurrentListed(s, w);
    DecideFalls(s, s', w, s'.decide[w], s.decide[w].pc.f, Skipped);
  }

  /** Waking parked secondaries adds no work. */
  lemma RegisterFalls(s: State, w: nat, f: nat, rel: string, secs: seq<PendingLink>)
    requires w in s.decide && s.decide[w].pc == Between([]) && secs == WaitingOn(s.links, f)
    requires forall x :: x in LinkIds(secs) && x in s.place ==> s.place[x].At? && s.place[x].box.ParkBox?
    ensures Work(DoRegister(s, w, f, rel)) <= Work(s)
    ensures var t := DoRegister(s, w, f, rel); t.c == s.c && t.started == s.started
  {
    HandFalls(s.place, secs, D(w));
    DecideMoves(s.decide, w, s.decide[w].(pc := Between(secs), via := rel));
    assert DoRegister(s, w, f, rel).decide == s.decide[w := s.decide[w].(pc := Between(secs), via := rel)];
  }

  lemma MatchesFalls(plan: Plan, s: State, w: nat)
    requires Exact(s) && w in s.decide && s.decide[w].pc.Content?
    ensures Falls(s, DoSkip(s, w))
    ensures Falls(s, DoRegister(DoSkip(s, w), w, s.decide[w].pc.f, EntryOrDefault(plan, s.decide[w].pc.f).rel))
  {
    var f, s1 := s.decide[w].pc.f, DoSkip(s, w);
    SkipFalls(s, w);
    CurrentListed(s, w);
    WaitingOnParked(s, f);
    assert f !in LinkIds(WaitingOn(s.links, f));
    RegisterFalls(s1, w, f, EntryOrDefault(plan, f).rel, WaitingOn(s1.links, f));
  }

  /** A woken secondary is linked, queued or failed. */
  lemma WokenMoves(s: State, s': State, sec: nat, p: Place)
    requires sec in s.place && s.place[sec].At? && s.place[sec].box.WakeBox? && s'.place == s.place[sec := p]
    requires p == Failed || p == Linked || p == At(QueueBox)
    ensures MapSum(PlaceRanks(s'.place)) < MapSum(PlaceRanks(s.place))
  {
    PlaceMoves(s.place, sec, p);
  }

  lemma FallbackPlaces(plan: Plan, s: State, g: nat, sec: PendingLink, pusher: QC.Pusher, space: bool)
    requires |s.c.history| == |s.c.tries|
    ensures var t := FetchInstead(plan, s, g, sec, pusher, space);
            && t.decide == s.decide && t.fetch == s.fetch && t.started == s.started
            && t.c.retries == s.c.retries && t.c.q.closed == s.c.q.closed
            && (t.place == s.place[sec.fileID := Failed] || t.place == s.place[sec.fileID := At(QueueBox)])
  {
  }

  lemma WokenListed(s: State, actor: Actor, secs: seq<PendingLink>)
    requires Exact(s) && secs != [] && Contents(s, WakeBox(actor)) == LinkIds(secs)
    ensures secs[0].fileID in s.place && s.place[secs[0].fileID] == At(WakeBox(actor))
  {
    assert LinkIds(secs)[0] in LinkIds(secs);
    Listed(s, WakeBox(actor), secs[0].fileID);
  }

  /** A decide worker deals with the first woken secondary. */
  lemma WokenByDecide(s: State, s': State, w: nat, pc: DecidePc, p: Place)
    requires Exact(s) && w in s.decide && RestOf(s.decide[w].pc) != [] && PcRank(pc) == PcRank(s.decide[w].pc)
    requires s'.decide == s.decide[w := s.decide[w].(pc := pc)] && s'.fetch == s.fetch && s'.started == s.started
    requires s'.c.retries == s.c.retries && s'.c.q.closed == s.c.q.closed
    requires s'.place == s.place[RestOf(s.decide[w].pc)[0].fileID := p] && (p == Failed || p == Linked || p == At(QueueBox))
    ensures Falls(s, s')
  {
    var rest := RestOf(s.decide[w].pc);
    WokenListed(s, D(w), rest);
    DecideMoves(s.decide, w, s.decide[w].(pc := pc));
    WokenMoves(s, s', rest[0].fileID, p);
  }

  lemma DecideWokenFalls(cfg: QC.Config, plan: Plan, s: State, step: Step)
    requires |s.c.history| == |s.c.tries| && Enabled(cfg, plan, s, step) && Exact(s)
    requires step.OrphanFallsBack? || step.DecideLinks?
    ensures Falls(s, Apply(cfg, plan, s, step))
  {
    var w, d := step.w, s.decide[step.w];
    var pc := if step.DecideLinks? then Between(d.pc.rest[1..]) else Clearing(d.pc.f, d.pc.rest[1..]);
    FallbackPlaces(plan, SetPc(s, w, pc), d.group, d.pc.rest[0], QC.DecideWorker, step.space);
    var s' := Apply(cfg, plan, s, step);
    WokenByDecide(s, s', w, pc, s'.place[d.pc.rest[0].fileID]);
  }

  lemma FetchWokenFalls(cfg: QC.Config, plan: Plan, s: State, step: Step)
    requires |s.c.history| == |s.c.tries| && Enabled(cfg, plan, s, step) && Exact(s)
    requires step.FetchLinks? || step.FailOrphan?
    ensures Falls(s, Apply(cfg, plan, s, step))
  {
    var w, rest := step.w, s.fetch[step.w].rest;
    var pc := if step.FetchLinks? then Linking(rest[1..]) else Abandoning(rest[1..]);
    WokenListed(s, F(w), rest);
    FetchMoves(s.fetch, w, pc);
    if step.FetchLinks? {
      FallbackPlaces(plan, s.(fetch := s.fetch[w := pc]), s.c.held[w].groupID, rest[0], QC.FetchWorker(w), step.space);
    }
    var s' := Apply(cfg, plan, s, step);
    WokenMoves(s, s', rest[0].fileID, s'.place[rest[0].fileID]);
  }

  lemma EndGroupFalls(plan: Plan, s: State, w: nat)
    requires |s.c.history| == |s.c.tries| && Exact(s) && w in s.decide
    ensures Falls(s, DoEndGroup(plan, s, w))
  {
    EndGroupIs(plan, s, w);
    DecideEnds(s.decide, w);
    NeededRank(s, w);
    PutAllFalls(s.place, s.decide[w].items, QueueBox);
  }

  lemma EndGroupIs(plan: Plan, s: State, w: nat)
    requires |s.c.history| == |s.c.tries| && w in s.decide
    ensures var t := DoEndGroup(plan, s, w);
            && t.decide == s.decide - {w} && t.fetch == s.fetch && t.started == s.started
            && t.c.retries == s.c.retries && t.c.q.closed == s.c.q.closed
            && (t.place == s.place || t.place == PutAll(s.place, s.decide[w].items, QueueBox))
  {
  }

  lemma NeededRank(s: State, w: nat)
    requires Exact(s) && w in s.decide
    ensures forall f :: f in s.decide[w].items && f in s.place ==> PlaceRank(At(QueueBox)) <= PlaceRank(s.place[f])
  {
    forall f | f in s.decide[w].items && f in s.place
      ensures PlaceRank(At(QueueBox)) <= PlaceRank(s.place[f])
    {
      assert f in Contents(s, NeedBox(w));
      Listed(s, NeedBox(w), f);
    }
  }

  lemma HeldListed(s: State, w: nat)
    requires Exact(s) && w in s.fetch && w in s.c.held && !s.fetch[w].Abandoning?
    ensures s.c.held[w].fileID in s.place
    ensures s.place[s.c.held[w].fileID] == At(if s.fetch[w].Fetching? then HeldBox(w) else LandedBox(w))
  {
    var b := if s.fetch[w].Fetching? then HeldBox(w) else LandedBox(w);
    assert s.c.held[w].fileID in Contents(s, b);
    Listed(s, b, s.c.held[w].fileID);
  }

  lemma QueuedListed(s: State)
    requires Exact(s) && s.c.q.items != []
    ensures var f := s.c.q.items[0].fileID; f in s.place && s.place[f] == At(QueueBox)
  {
    var f := s.c.q.items[0].fileID;
    assert QC.Ids(s.c.q.items)[0] in Contents(s, QueueBox);
    Listed(s, QueueBox, f);
  }

  lemma PopSpends(s: State, s': State, w: nat, f: nat)
    requires w !in s.fetch && f in s.place && s.place[f] == At(QueueBox)
    requires s'.place == s.place[f := At(HeldBox(w))] && s'.fetch == s.fetch[w := Fetching] && s'.decide == s.decide
    ensures Work(s') < Work(s)
  {
    PlaceMoves(s.place, f, At(HeldBox(w)));
    FetchStarts(s.fetch, w);
  }

  lemma PopFalls(s: State, w: nat)
    requires |s.c.history| == |s.c.tries| && Exact(s) && s.c.q.items != [] && w !in s.fetch
    ensures Falls(s, DoPop(s, w))
  {
    QueuedListed(s);
    PopSpends(s, DoPop(s, w), w, s.c.q.items[0].fileID);
  }

  /** A primary moves on and its parked secondaries wake. */
  lemma PrimaryMoves(place: map<nat, Place>, f: nat, p: Place, secs: seq<PendingLink>, actor: Actor)
    requires f in place && !(place[f].At? && place[f].box.ParkBox?)
    requires forall x :: x in LinkIds(secs) ==> x in place && place[x].At? && place[x].box.ParkBox?
    ensures MapSum(PlaceRanks(Hand(place[f := p], secs, actor))) + PlaceRank(place[f])
            <= MapSum(PlaceRanks(place)) + PlaceRank(p)
  {
    PlaceMoves(place, f, p);
    HandFalls(place[f := p], secs, actor);
  }

  /** A held file moves on, and its secondaries are handed to its worker. */
  lemma HolderSpends(s: State, s': State, w: nat, f: nat, p: Place, pc: FetchPc, secs: seq<PendingLink>)
    requires w in s.fetch && s.fetch[w].Fetching? && f in s.place && s.place[f] == At(HeldBox(w))
    requires forall x :: x in LinkIds(secs) ==> x in s.place && s.place[x].At? && s.place[x].box.ParkBox?
    requires s'.place == Hand(s.place[f := p], secs, F(w)) && s'.fetch == s.fetch[w := pc] && s'.decide == s.decide
    requires PlaceRank(p) + FetchRank(pc) < 2
    ensures Work(s') < Work(s)
  {
    PrimaryMoves(s.place, f, p, secs, F(w));
    FetchMoves(s.fetch, w, pc);
  }

  lemma HolderFalls(s: State, s': State, w: nat, p: Place, pc: FetchPc)
    requires Exact(s) && Fetches(s, w)
    requires s'.place == Hand(s.place[s.c.held[w].fileID := p], WaitingOn(s.links, s.c.held[w].fileID), F(w))
    requires s'.fetch == s.fetch[w := pc] && s'.decide == s.decide && s'.c == s.c && s'.started == s.started
    requires PlaceRank(p) + FetchRank(pc) < 2
    ensures Falls(s, s')
  {
    var f := s.c.held[w].fileID;
    HeldListed(s, w);
    WaitingOnParked(s, f);
    HolderSpends(s, s', w, f, p, pc, WaitingOn(s.links, f));
  }

  lemma PublishFalls(s: State, w: nat, rel: string)
    requires Exact(s) && Fetches(s, w)
    ensures Falls(s, DoRegisterFetched(DoPublish(s, w), w, s.c.held[w].fileID, rel))
  {
    var f := s.c.held[w].fileID;
    HolderFalls(s, DoRegisterFetched(DoPublish(s, w), w, f, rel), w, At(LandedBox(w)), Linking(WaitingOn(s.links, f)));
  }

  lemma GiveUpFalls(s: State, w: nat)
    requires Exact(s) && Fetches(s, w)
    ensures Falls(s, DoAbandon(DoGiveUp(s, w), w, s.c.held[w].fileID))
  {
    var f := s.c.held[w].fileID;
    HolderFalls(s, DoAbandon(DoGiveUp(s, w), w, f), w, Failed, Abandoning(WaitingOn(s.links, f)));
  }

  lemma DoneCounts(c: QC.Clients, w: nat)
    requires |c.history| == |c.tries| && w in c.held
    ensures var c' := QC.Apply(c, QC.DoneBy(w)); c'.retries == c.retries && c'.q.closed == c.q.closed
  {
  }

  lemma LandedFalls(s: State, s': State, w: nat)
    requires w in s.fetch && w in s.c.held && s.fetch[w] == Linking([])
    requires s.c.held[w].fileID in s.place && s.place[s.c.held[w].fileID] == At(LandedBox(w))
    requires s'.place == s.place[s.c.held[w].fileID := Published] && s'.fetch == s.fetch - {w} && s'.decide == s.decide
    ensures Work(s') < Work(s)
  {
    PlaceMoves(s.place, s.c.held[w].fileID, Published);
    FetchEnds(s.fetch, w);
  }

  lemma FinishFalls(s: State, w: nat)
    requires |s.c.history| == |s.c.tries| && Exact(s) && w in s.fetch && w in s.c.held && s.fetch[w] == Linking([])
    ensures Falls(s, DoFinish(s, w))
  {
    DoneCounts(s.c, w);
    HeldListed(s, w);
    LandedFalls(s, DoFinish(s, w), w);
  }

  /** Back to the queue: one more unit of work. */
  lemma RequeueRises(s: State, s': State, w: nat)
    requires Exact(s) && Fetches(s, w)
    requires s'.place == s.place[s.c.held[w].fileID := At(QueueBox)] && s'.fetch == s.fetch - {w} && s'.decide == s.decide
    ensures Work(s') == Work(s) + 1
  {
    HeldListed(s, w);
    PlaceMoves(s.place, s.c.held[w].fileID, At(QueueBox));
    FetchEnds(s.fetch, w);
  }

  lemma RequeueCounts(s: State, w: nat, retry: bool)
    requires |s.c.history| == |s.c.tries| && Fetches(s, w)
    ensures var s' := DoRequeue(s, w, retry);
            && s'.started == s.started && s'.c.q.closed == s.c.q.closed
            && s'.c.retries == s.c.retries + (if retry then 1 else 0)
            && s'.c.returned == s.c.returned + (if retry then 0 else 1)
  {
  }

  // ---- the rank falls ------------------------------------------------------

  lemma StartLowers(cfg: QC.Config, plan: Plan, s: State, w: nat, g: nat)
    requires TakenUp(plan, s) && Enabled(cfg, plan, s, StartGroup(w, g))
    ensures Rank(cfg, plan, DoStart(plan, s, w, g)) < Rank(cfg, plan, s)
  {
    PutAllFalls(s.place, plan.groups[g], TodoBox(w));
    DecideStarts(s.decide, w, Decider(g, plan.groups[g], [], Between([]), ""));
  }

  lemma DecideLowers(cfg: QC.Config, plan: Plan, s: State, step: Step)
    requires |s.c.history| == |s.c.tries| && Enabled(cfg, plan, s, step) && Exact(s)
    requires step.LinkRefused? || step.ContentMatches? || step.EndGroup? || step.CloseQueue?
    ensures Rank(cfg, plan, Apply(cfg, plan, s, step)) < Rank(cfg, plan, s)
  {
    match step
    case LinkRefused(w) => RefusedFalls(plan, s, w, KeyOf(plan, s.decide[w].pc.f));
    case ContentMatches(w) => MatchesFalls(plan, s, w);
    case EndGroup(w) => EndGroupFalls(plan, s, w);
    case CloseQueue =>
  }

  lemma HolderLowers(cfg: QC.Config, plan: Plan, s: State, step: Step)
    requires |s.c.history| == |s.c.tries| && Enabled(cfg, plan, s, step) && Exact(s)
    requires step.PublishItem? || step.GiveUp?
    ensures Rank(cfg, plan, Apply(cfg, plan, s, step)) < Rank(cfg, plan, s)
  {
    match step
    case PublishItem(w) => PublishFalls(s, w, EntryOrDefault(plan, s.c.held[w].fileID).rel);
    case GiveUp(w) => GiveUpFalls(s, w);
  }

  lemma FailedFalls(s: State, w: nat)
    requires |s.c.history| == |s.c.tries| && w in s.fetch && w in s.c.held && s.fetch[w] == Abandoning([])
    ensures Falls(s, s.(c := QC.Apply(s.c, QC.DoneBy(w)), fetch := s.fetch - {w}))
  {
    FetchEnds(s.fetch, w);
  }

  lemma FetchLowers(cfg: QC.Config, plan: Plan, s: State, step: Step)
    requires |s.c.history| == |s.c.tries| && Enabled(cfg, plan, s, step) && Exact(s)
    requires step.PopItem? || step.FinishItem? || step.FinishFailed?
    ensures Rank(cfg, plan, Apply(cfg, plan, s, step)) < Rank(cfg, plan, s)
  {
    match step
    case PopItem(w) => PopFalls(s, w);
    case FinishItem(w) => FinishFalls(s, w);
    case FinishFailed(w) => FailedFalls(s, w);
  }

  lemma RequeueLowers(cfg: QC.Config, plan: Plan, s: State, step: Step)
    requires |s.c.history| == |s.c.tries| && Enabled(cfg, plan, s, step) && Exact(s)
    requires step.RetryItem? || step.ReturnItem?
    ensures Rank(cfg, plan, Apply(cfg, plan, s, step)) == Rank(cfg, plan, s) + (if step.ReturnItem? then 1 else -1)
    ensures Apply(cfg, plan, s, step).c.returned == s.c.returned + (if step.ReturnItem? then 1 else 0)
  {
    RequeueRises(s, DoRequeue(s, step.w, step.RetryItem?), step.w);
    RequeueCounts(s, step.w, step.RetryItem?);
  }

  /** Every step lowers the rank, but for an uncharged requeue, which raises it by one. */
  lemma StepLowers(cfg: QC.Config, plan: Plan, s: State, step: Step)
    requires |s.c.history| == |s.c.tries| && Enabled(cfg, plan, s, step) && Exact(s) && TakenUp(plan, s)
    ensures var r, r' := Rank(cfg, plan, s), Rank(cfg, plan, Apply(cfg, plan, s, step));
            if step.ReturnItem? then r' == r + 1 else r' < r
  {
    match step
    case StartGroup(w, g) => StartLowers(cfg, plan, s, w, g);
    case Reject(_) => EntryFalls(cfg, plan, s, step);
    case SkipJournalled(_) => EntryFalls(cfg, plan, s, step);
    case Begin(_) => EntryFalls(cfg, plan, s, step);
    case SeekPath(_) => PathFalls(cfg, plan, s, step);
    case LinkMade(_) => PathFalls(cfg, plan, s, step);
    case TakeOver(_) => PathFalls(cfg, plan, s, step);
    case ClaimOrLead(_) => PathFalls(cfg, plan, s, step);
    case NeedContent(_) => PathFalls(cfg, plan, s, step);
    case OrphanFallsBack(_, _) => DecideWokenFalls(cfg, plan, s, step);
    case DecideLinks(_, _, _) => DecideWokenFalls(cfg, plan, s, step);
    case FetchLinks(_, _, _) => FetchWokenFalls(cfg, plan, s, step);
    case FailOrphan(_) => FetchWokenFalls(cfg, plan, s, step);
    case RetryItem(_) => RequeueLowers(cfg, plan, s, step);
    case ReturnItem(_) => RequeueLowers(cfg, plan, s, step);
    case LinkRefused(_) => DecideLowers(cfg, plan, s, step);
    case ContentMatches(_) => DecideLowers(cfg, plan, s, step);
    case EndGroup(_) => DecideLowers(cfg, plan, s, step);
    case CloseQueue => DecideLowers(cfg, plan, s, step);
    case PublishItem(_) => HolderLowers(cfg, plan, s, step);
    case GiveUp(_) => HolderLowers(cfg, plan, s, step);
    case _ => FetchLowers(cfg, plan, s, step);
  }
}
