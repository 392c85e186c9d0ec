/** The receiver's accounting machine: decide workers and fetch workers over one
    need queue and one hard-link map (internal/receiver/decide.go, fetch.go,
    hlfallback.go, and run.go lines 684-743).

    A step is one critical section of one worker, in any interleaving.  What the
    outside world decides (link success, content comparison, fetch outcome, free
    space, channel loss, cancellation) is a choice between steps.  A run covers a
    session up to its first fatal error; dry runs are not part of the model. */
module Receiver {
  import opened Finite
  import opened Optional
  import opened NeedQueue
  import opened HardlinkMap
  import QC = QueueClients

  /** A regular-file entry of the manifest. */
  datatype Entry = Entry(key: Option<nat>, rel: string, size: int)

  datatype Plan = Plan(files: map<nat, Entry>, groups: map<nat, seq<nat>>) {
    /** Every group lists known files, once each, and no file is in two groups. */
    ghost predicate WellFormed() {
      && (forall g, i :: g in groups && 0 <= i < |groups[g]| ==> groups[g][i] in files)
      && (forall g, i, j :: g in groups && 0 <= i < j < |groups[g]| ==> groups[g][i] != groups[g][j])
      && (forall g, h, f :: g in groups && h in groups && f in groups[g] && f in groups[h] ==> g == h)
    }
  }

  datatype Actor = D(w: nat) | F(w: nat)

  /** The places where an unresolved file can be. */
  datatype Box =
    | TodoBox(w: nat)       // listed in the group worker w is deciding
    | CurBox(w: nat)        // the entry worker w is deciding now
    | NeedBox(w: nat)       // decided as needed, not pushed yet
    | ParkBox(key: nat)     // a secondary parked on its key
    | WakeBox(actor: Actor) // a secondary taken off the map, to be linked, fetched or failed
    | QueueBox
    | HeldBox(w: nat)       // in flight on fetch worker w
    | LandedBox(w: nat)     // published by w, which is still linking its secondaries

  datatype Place = Undecided | At(box: Box) | Rejected | Skipped | Linked | Published | Failed {
    predicate Outcome() { Rejected? || Skipped? || Linked? || Published? || Failed? }
  }

  datatype DecidePc =
    | Between(rest: seq<PendingLink>)               // between entries; first link `rest` to a skipped primary
    | AskPath(f: nat)
    | TryLink(f: nat)
    | AskClaim(f: nat)
    | Clearing(f: nat, rest: seq<PendingLink>)      // fall the orphans back, then become primary
    | Content(f: nat, primary: bool)

  /** `via` is the path that the worker's next links are made to. */
  datatype Decider = Decider(group: nat, todo: seq<nat>, items: seq<nat>, pc: DecidePc, via: string)

  datatype FetchPc = Fetching | Linking(rest: seq<PendingLink>) | Abandoning(rest: seq<PendingLink>)

  /** `started` are the groups a decide worker has taken up, and `linked` the path each
      file was linked to. */
  datatype State = State(
    c: QC.Clients,
    links: Links,
    place: map<nat, Place>,
    started: set<nat>,
    decide: map<nat, Decider>,
    fetch: map<nat, FetchPc>,
    meta: set<nat>,
    linked: map<nat, string>,
    filesFailed: nat,
    filesTransferred: nat,
    filesRejected: nat)

  datatype Step =
    | StartGroup(w: nat, g: nat)
    | Reject(w: nat)
    | SkipJournalled(w: nat)
    | Begin(w: nat)
    | SeekPath(w: nat)
    | LinkMade(w: nat)
    | LinkRefused(w: nat)
    | OrphanFallsBack(w: nat, space: bool)
    | TakeOver(w: nat)
    | ClaimOrLead(w: nat)
    | NeedContent(w: nat)
    | ContentMatches(w: nat)
    | DecideLinks(w: nat, made: bool, space: bool)
    | EndGroup(w: nat)
    | CloseQueue
    | PopItem(w: nat)
    | PublishItem(w: nat)
    | FetchLinks(w: nat, made: bool, space: bool)
    | FinishItem(w: nat)
    | RetryItem(w: nat)
    | ReturnItem(w: nat)
    | GiveUp(w: nat)
    | FailOrphan(w: nat)
    | FinishFailed(w: nat)

  function Init(cfg: QC.Config, plan: Plan): State {
    State(QC.Init(cfg), NO_LINKS, map f | f in plan.files :: Undecided, {}, map[], map[], {}, map[], 0, 0, 0)
  }

  // ---- what is where -------------------------------------------------------

  function LinkIds(s: seq<PendingLink>): (ids: seq<nat>)
    ensures |ids| == |s| && forall i :: 0 <= i < |s| ==> ids[i] == s[i].fileID
  {
    seq(|s|, i requires 0 <= i < |s| => s[i].fileID)
  }

  function Current(pc: DecidePc): seq<nat> {
    if pc.Between? then [] else [pc.f]
  }

  function RestOf(pc: DecidePc): seq<PendingLink> {
    if pc.Between? || pc.Clearing? then pc.rest else []
  }

  function RestOfFetch(pc: FetchPc): seq<PendingLink> {
    if pc.Fetching? then [] else pc.rest
  }

  function Contents(s: State, box: Box): seq<nat> {
    match box
    case TodoBox(w) => if w in s.decide then s.decide[w].todo else []
    case CurBox(w) => if w in s.decide then Current(s.decide[w].pc) else []
    case NeedBox(w) => if w in s.decide then s.decide[w].items else []
    case ParkBox(k) => LinkIds(s.links.Waiting(k))
    case WakeBox(D(w)) => if w in s.decide then LinkIds(RestOf(s.decide[w].pc)) else []
    case WakeBox(F(w)) => if w in s.fetch then LinkIds(RestOfFetch(s.fetch[w])) else []
    case QueueBox => QC.Ids(s.c.q.items)
    case HeldBox(w) => if w in s.fetch && w in s.c.held && s.fetch[w].Fetching? then [s.c.held[w].fileID] else []
    case LandedBox(w) => if w in s.fetch && w in s.c.held && s.fetch[w].Linking? then [s.c.held[w].fileID] else []
  }

  // ---- the steps -----------------------------------------------------------

  predicate AtEntry(s: State, w: nat) {
    w in s.decide && s.decide[w].pc == Between([]) && s.decide[w].todo != []
  }

  predicate Enabled(cfg: QC.Config, plan: Plan, s: State, step: Step) {
    match step
    case StartGroup(w, g) => w !in s.decide && g in plan.groups && g !in s.started && !s.c.q.closed
    case Reject(w) => AtEntry(s, w)
    case SkipJournalled(w) => AtEntry(s, w)
    case Begin(w) => AtEntry(s, w)
    case SeekPath(w) => w in s.decide && s.decide[w].pc.AskPath?
    case LinkMade(w) => w in s.decide && s.decide[w].pc.TryLink?
    case LinkRefused(w) => w in s.decide && s.decide[w].pc.TryLink?
    case OrphanFallsBack(w, _) => w in s.decide && s.decide[w].pc.Clearing? && s.decide[w].pc.rest != []
    case TakeOver(w) => w in s.decide && s.decide[w].pc.Clearing? && s.decide[w].pc.rest == []
    case ClaimOrLead(w) => w in s.decide && s.decide[w].pc.AskClaim?
    case NeedContent(w) => w in s.decide && s.decide[w].pc.Content?
    case ContentMatches(w) => w in s.decide && s.decide[w].pc.Content?
    case DecideLinks(w, _, _) => w in s.decide && s.decide[w].pc.Between? && s.decide[w].pc.rest != []
    case EndGroup(w) =>
      && w in s.decide && s.decide[w].pc == Between([]) && s.decide[w].todo == []
      && (s.decide[w].items != [] ==> TryPush(s.c.q, |s.decide[w].items|, false) == Pushed)
    case CloseQueue =>                       // decideWg.Wait() has returned
      s.decide == map[] && !s.c.q.closed
    case PopItem(w) => w in cfg.workers && w !in s.fetch && w !in s.c.held && TryPop(s.c.q, false).Got?
    case PublishItem(w) => Fetches(s, w)
    case FetchLinks(w, _, _) => w in s.fetch && w in s.c.held && s.fetch[w].Linking? && s.fetch[w].rest != []
    case FinishItem(w) => w in s.fetch && w in s.c.held && s.fetch[w] == Linking([])
    case RetryItem(w) => Fetches(s, w) && s.c.held[w].attempt + 1 <= cfg.maxRetries
    case ReturnItem(w) => Fetches(s, w)
    case GiveUp(w) => Fetches(s, w)
    case FailOrphan(w) => w in s.fetch && w in s.c.held && s.fetch[w].Abandoning? && s.fetch[w].rest != []
    case FinishFailed(w) => w in s.fetch && w in s.c.held && s.fetch[w] == Abandoning([])
  }

  predicate Fetches(s: State, w: nat) {
    w in s.fetch && w in s.c.held && s.fetch[w] == Fetching
  }

  function EntryOrDefault(plan: Plan, f: nat): Entry {
    if f in plan.files then plan.files[f] else Entry(None, "", 0)
  }

  function KeyOf(plan: Plan, f: nat): nat {
    if EntryOrDefault(plan, f).key.Some? then EntryOrDefault(plan, f).key.value else 0
  }

  /** The need items of a group's needed entries. */
  function ItemsOf(plan: Plan, g: nat, fs: seq<nat>): (r: seq<NeedItem>)
    ensures |r| == |fs|
    ensures forall i :: 0 <= i < |r| ==> r[i].fileID == fs[i] && r[i].groupID == g && r[i].attempt == 0
  {
    seq(|fs|, i requires 0 <= i < |fs| =>
      NeedItem(fs[i], g, EntryOrDefault(plan, fs[i]).size, EntryOrDefault(plan, fs[i]).rel, 0))
  }

  /** hlFallbackDeps.fetchInstead for a secondary, on behalf of group g. */
  function FetchInstead(plan: Plan, s: State, g: nat, sec: PendingLink,
                        pusher: QC.Pusher, space: bool): State
    requires |s.c.history| == |s.c.tries|
  {
    if sec.fileID !in s.meta || !space then
      s.(place := s.place[sec.fileID := Failed], filesFailed := s.filesFailed + 1)
    else
      var it := NeedItem(sec.fileID, g, EntryOrDefault(plan, sec.fileID).size, sec.rel, 0);
      s.(c := QC.Apply(s.c, QC.FallbackPush(it, pusher)),
         place := s.place[sec.fileID := At(QueueBox)])
  }

  /** Hand parked secondaries to `actor`. */
  function Hand(place: map<nat, Place>, secs: seq<PendingLink>, actor: Actor): map<nat, Place> {
    map f | f in place :: if f in LinkIds(secs) then At(WakeBox(actor)) else place[f]
  }

  function PutAll(place: map<nat, Place>, fs: seq<nat>, box: Box): map<nat, Place> {
    map f | f in place :: if f in fs then At(box) else place[f]
  }

  function SetPc(s: State, w: nat, pc: DecidePc): State
    requires w in s.decide
  {
    s.(decide := s.decide[w := s.decide[w].(pc := pc)])
  }

  function LinkVia(s: State, w: nat, path: string): State
    requires w in s.decide
  {
    s.(decide := s.decide[w := s.decide[w].(via := path)])
  }

  function DoStart(plan: Plan, s: State, w: nat, g: nat): State
    requires g in plan.groups
  {
    s.(started := s.started + {g},
       decide := s.decide[w := Decider(g, plan.groups[g], [], Between([]), "")],
       place := PutAll(s.place, plan.groups[g], TodoBox(w)))
  }

  /** Take the next entry off the group's list and settle or begin it. */
  function TakeEntry(s: State, w: nat, p: Place, pc: DecidePc): State
    requires w in s.decide && s.decide[w].todo != []
  {
    var d := s.decide[w];
    s.(decide := s.decide[w := d.(todo := d.todo[1..], pc := pc)],
       place := s.place[d.todo[0] := p])
  }

  /** decideGroup's file case up to decideFile: a hard-link entry records its
      metadata whether or not it will be needed. */
  function DoBegin(plan: Plan, s: State, w: nat): State
    requires AtEntry(s, w)
  {
    var f := s.decide[w].todo[0];
    if EntryOrDefault(plan, f).key.Some?
    then TakeEntry(s, w, At(CurBox(w)), AskPath(f)).(meta := s.meta + {f})
    else TakeEntry(s, w, At(CurBox(w)), Content(f, false))
  }

  function DoSeek(plan: Plan, s: State, w: nat): State
    requires w in s.decide && s.decide[w].pc.AskPath?
  {
    var f := s.decide[w].pc.f;
    var key := EntryOrDefault(plan, f).key;
    if key.Some? && PathFor(s.links, key.value).Some?
    then LinkVia(SetPc(s, w, TryLink(f)), w, PathFor(s.links, key.value).value)
    else SetPc(s, w, AskClaim(f))
  }

  function DoLinkMade(s: State, w: nat): State
    requires w in s.decide && s.decide[w].pc.TryLink?
  {
    var f := s.decide[w].pc.f;
    SetPc(s, w, Between([])).(place := s.place[f := Linked], linked := s.linked[f := s.decide[w].via])
  }

  function DoLinkRefused(s: State, w: nat, key: nat): State
    requires w in s.decide && s.decide[w].pc.TryLink?
  {
    SetPc(s, w, Clearing(s.decide[w].pc.f, s.links.Waiting(key)))
      .(links := Retire(s.links, key), place := Hand(s.place, s.links.Waiting(key), D(w)))
  }

  function DoOrphanFalls(plan: Plan, s: State, w: nat, space: bool): State
    requires |s.c.history| == |s.c.tries|
    requires w in s.decide && s.decide[w].pc.Clearing? && s.decide[w].pc.rest != []
  {
    var d := s.decide[w];
    FetchInstead(plan, SetPc(s, w, Clearing(d.pc.f, d.pc.rest[1..])), d.group, d.pc.rest[0], QC.DecideWorker, space)
  }

  function DoLead(s: State, w: nat, key: nat): State
    requires w in s.decide && s.decide[w].pc.Clearing?
  {
    SetPc(s, w, Content(s.decide[w].pc.f, true)).(links := MarkPrimary(s.links, s.decide[w].pc.f, key))
  }

  function DoPark(s: State, w: nat, key: nat, rel: string): State
    requires w in s.decide && s.decide[w].pc.AskClaim? && Claimable(s.links, key)
  {
    SetPc(s, w, Between([]))
      .(links := Claim(s.links, key, PendingLink(s.decide[w].pc.f, rel)),
        place := s.place[s.decide[w].pc.f := At(ParkBox(key))])
  }

  function DoNeed(s: State, w: nat): State
    requires w in s.decide && s.decide[w].pc.Content?
  {
    var d := s.decide[w];
    s.(decide := s.decide[w := d.(items := d.items + [d.pc.f], pc := Between([]))],
       place := s.place[d.pc.f := At(NeedBox(w))],
       meta := s.meta + {d.pc.f})
  }

  /** The destination already has the content: an ordinary skip. */
  function DoSkip(s: State, w: nat): State
    requires w in s.decide && s.decide[w].pc.Content?
  {
    SetPc(s, w, Between([])).(place := s.place[s.decide[w].pc.f := Skipped])
  }

  /** registerMaterialised by a decide worker whose primary f was a skip. */
  function DoRegister(s: State, w: nat, f: nat, rel: string): State
    requires w in s.decide
  {
    LinkVia(SetPc(s, w, Between(WaitingOn(s.links, f))), w, rel)
      .(links := Materialise(s.links, f, rel), place := Hand(s.place, WaitingOn(s.links, f), D(w)))
  }

  function DoDecideLink(plan: Plan, s: State, w: nat, made: bool, space: bool): State
    requires |s.c.history| == |s.c.tries|
    requires w in s.decide && s.decide[w].pc.Between? && s.decide[w].pc.rest != []
  {
    var d := s.decide[w];
    var s1 := SetPc(s, w, Between(d.pc.rest[1..]));
    var f := d.pc.rest[0].fileID;
    if made then s1.(place := s.place[f := Linked], linked := s.linked[f := d.via])
    else FetchInstead(plan, s1, d.group, d.pc.rest[0], QC.DecideWorker, space)
  }

  function DoEndGroup(plan: Plan, s: State, w: nat): State
    requires |s.c.history| == |s.c.tries| && w in s.decide
  {
    var d := s.decide[w];
    var s1 := s.(decide := s.decide - {w});
    if d.items == [] then s1
    else s1.(c := QC.Apply(s.c, QC.GroupPush(ItemsOf(plan, d.group, d.items))),
             place := PutAll(s.place, d.items, QueueBox))
  }

  function DoPop(s: State, w: nat): State
    requires |s.c.history| == |s.c.tries| && s.c.q.items != []
  {
    s.(c := QC.Apply(s.c, QC.PopBy(w)),
       fetch := s.fetch[w := Fetching],
       place := s.place[s.c.q.items[0].fileID := At(HeldBox(w))])
  }

  /** The content is on disk under its final name. */
  function DoPublish(s: State, w: nat): State
    requires w in s.c.held
  {
    s.(fetch := s.fetch[w := Linking([])], place := s.place[s.c.held[w].fileID := At(LandedBox(w))])
  }

  /** registerMaterialised by fetch worker w for the file f it just published. */
  function DoRegisterFetched(s: State, w: nat, f: nat, rel: string): State {
    s.(fetch := s.fetch[w := Linking(WaitingOn(s.links, f))],
       links := Materialise(s.links, f, rel),
       place := Hand(s.place, WaitingOn(s.links, f), F(w)))
  }

  function DoFetchLink(plan: Plan, s: State, w: nat, made: bool, space: bool): State
    requires |s.c.history| == |s.c.tries| && w in s.c.held
    requires w in s.fetch && s.fetch[w].Linking? && s.fetch[w].rest != []
  {
    var rest := s.fetch[w].rest;
    var s1 := s.(fetch := s.fetch[w := Linking(rest[1..])]);
    var f := rest[0].fileID;
    if made then s1.(place := s.place[f := Linked], linked := s.linked[f := EntryOrDefault(plan, s.c.held[w].fileID).rel])
    else FetchInstead(plan, s1, s.c.held[w].groupID, rest[0], QC.FetchWorker(w), space)
  }

  function DoFinish(s: State, w: nat): State
    requires |s.c.history| == |s.c.tries| && w in s.c.held
  {
    s.(c := QC.Apply(s.c, QC.DoneBy(w)),
       fetch := s.fetch - {w},
       place := s.place[s.c.held[w].fileID := Published],
       filesTransferred := s.filesTransferred + 1)
  }

  /** Back to the queue, with or without a retry charged. */
  function DoRequeue(s: State, w: nat, retry: bool): State
    requires |s.c.history| == |s.c.tries| && w in s.c.held
  {
    s.(c := QC.Apply(s.c, if retry then QC.RetryBy(w) else QC.ReturnBy(w)),
       fetch := s.fetch - {w},
       place := s.place[s.c.held[w].fileID := At(QueueBox)])
  }

  /** The content failed for good: count it. */
  function DoGiveUp(s: State, w: nat): State
    requires w in s.c.held
  {
    s.(fetch := s.fetch[w := Abandoning([])],
       place := s.place[s.c.held[w].fileID := Failed],
       filesFailed := s.filesFailed + 1)
  }

  /** abandon: the failed primary f takes its parked secondaries with it. */
  function DoAbandon(s: State, w: nat, f: nat): State {
    s.(fetch := s.fetch[w := Abandoning(WaitingOn(s.links, f))],
       links := Abandon(s.links, f),
       place := Hand(s.place, WaitingOn(s.links, f), F(w)))
  }

  function DoFailOrphan(s: State, w: nat): State
    requires w in s.fetch && s.fetch[w].Abandoning? && s.fetch[w].rest != []
  {
    var rest := s.fetch[w].rest;
    s.(fetch := s.fetch[w := Abandoning(rest[1..])],
       place := s.place[rest[0].fileID := Failed],
       filesFailed := s.filesFailed + 1)
  }

  function Apply(cfg: QC.Config, plan: Plan, s: State, step: Step): State
    requires |s.c.history| == |s.c.tries| && Enabled(cfg, plan, s, step)
  {
    match step
    case StartGroup(w, g) => DoStart(plan, s, w, g)
    case Reject(w) => TakeEntry(s, w, Rejected, Between([])).(filesRejected := s.filesRejected + 1)
    case SkipJournalled(w) => TakeEntry(s, w, Skipped, Between([]))
    case Begin(w) => DoBegin(plan, s, w)
    case SeekPath(w) => DoSeek(plan, s, w)
    case LinkMade(w) => DoLinkMade(s, w)
    case LinkRefused(w) => DoLinkRefused(s, w, KeyOf(plan, s.decide[w].pc.f))
    case OrphanFallsBack(w, space) => DoOrphanFalls(plan, s, w, space)
    case TakeOver(w) => DoLead(s, w, KeyOf(plan, s.decide[w].pc.f))
    case ClaimOrLead(w) =>
      var f := s.decide[w].pc.f;
      if Claimable(s.links, KeyOf(plan, f)) then DoPark(s, w, KeyOf(plan, f), EntryOrDefault(plan, f).rel)
      else SetPc(s, w, Clearing(f, []))
    case NeedContent(w) => DoNeed(s, w)
    case ContentMatches(w) =>
      var pc := s.decide[w].pc;
      if pc.primary then DoRegister(DoSkip(s, w), w, pc.f, EntryOrDefault(plan, pc.f).rel) else DoSkip(s, w)
    case DecideLinks(w, made, space) => DoDecideLink(plan, s, w, made, space)
    case EndGroup(w) => DoEndGroup(plan, s, w)
    case CloseQueue => s.(c := QC.Apply(s.c, QC.CloseQueue))
    case PopItem(w) => DoPop(s, w)
    case PublishItem(w) =>
      var f := s.c.held[w].fileID;
      DoRegisterFetched(DoPublish(s, w), w, f, EntryOrDefault(plan, f).rel)
    case FetchLinks(w, made, space) => DoFetchLink(plan, s, w, made, space)
    case FinishItem(w) => DoFinish(s, w)
    case RetryItem(w) => DoRequeue(s, w, true)
    case ReturnItem(w) => DoRequeue(s, w, false)
    case GiveUp(w) => DoAbandon(DoGiveUp(s, w), w, s.c.held[w].fileID)
    case FailOrphan(w) => DoFailOrphan(s, w)
    case FinishFailed(w) => s.(c := QC.Apply(s.c, QC.DoneBy(w)), fetch := s.fetch - {w})
  }

  // ---- the invariant -------------------------------------------------------

  /** Every unresolved file is in exactly the one place its status names, once. */
  ghost predicate ExactIn(c: Box -> seq<nat>, place: map<nat, Place>) {
    && (forall b, f :: f in c(b) ==> f in place && place[f] == At(b))
    && (forall f :: f in place && place[f].At? ==> f in c(place[f].box))
    && (forall b :: Distinct(c(b)))
  }

  ghost predicate Exact(s: State) {
    ExactIn(b => Contents(s, b), s.place)
  }

  ghost predicate Shape(plan: Plan, s: State) {
    && s.place.Keys == plan.files.Keys
    && s.fetch.Keys == s.c.held.Keys
    && (s.c.q.closed ==> s.decide == map[])
  }

  /** A file is undecided exactly as long as its group has not been taken up. */
  ghost predicate TakenUp(plan: Plan, s: State) {
    && s.started <= plan.groups.Keys
    && (forall g, f :: g in plan.groups && f in plan.groups[g] ==>
          f in s.place && (s.place[f] == Undecided <==> g !in s.started))
  }

  /** A primary that will still register its path or retire its key. */
  ghost predicate LivePrimary(s: State, p: nat) {
    && p in s.links.fileKey && p in s.place && s.place[p].At?
    && (s.place[p].box.CurBox? || s.place[p].box.NeedBox? || s.place[p].box.QueueBox? || s.place[p].box.HeldBox?)
  }

  ghost predicate HasLivePrimary(s: State, key: nat) {
    exists p :: LivePrimary(s, p) && s.links.fileKey[p] == key
  }

  /** A secondary waits only on a key that is seen and not on disk, and such a
      key always has a primary that is still live. */
  ghost predicate NobodyForgotten(s: State) {
    && (forall k :: s.links.Waiting(k) != [] ==> Claimable(s.links, k))
    && (forall k :: Claimable(s.links, k) ==> HasLivePrimary(s, k))
  }

  predicate CanHaveLed(p: Place) {
    match p
    case At(b) => b.CurBox? || b.NeedBox? || b.QueueBox? || b.HeldBox? || b.LandedBox?
    case Skipped => true
    case Published => true
    case Failed => true
    case _ => false
  }

  /** Only an entry that led its key is a primary; before that it has a key and
      its metadata is on record. */
  predicate PcAgrees(plan: Plan, s: State, pc: DecidePc) {
    match pc
    case Between(_) => true
    case Content(f, primary) => primary <==> f in s.links.fileKey
    case _ => pc.f !in s.links.fileKey && EntryOrDefault(plan, pc.f).key.Some? && pc.f in s.meta
  }

  ghost predicate Primaries(plan: Plan, s: State) {
    && (forall f :: f in s.links.fileKey ==> f in s.place && CanHaveLed(s.place[f]))
    && (forall w :: w in s.decide ==> PcAgrees(plan, s, s.decide[w].pc))
  }

  predicate MayBeFetched(p: Place) { p.At? && !p.box.TodoBox? && !p.box.CurBox? }

  /** Whatever may have to be fetched has its metadata on record. */
  ghost predicate MetaKnown(s: State) {
    forall f :: f in s.place && MayBeFetched(s.place[f]) ==> f in s.meta
  }

  predicate PushedBefore(p: Place) {
    match p
    case At(b) => b.QueueBox? || b.HeldBox? || b.LandedBox?
    case Published => true
    case Failed => true
    case _ => false
  }

  ghost predicate PushedOnce(s: State) {
    forall f :: f in s.c.history ==> f in s.place && PushedBefore(s.place[f])
  }

  function Having(place: map<nat, Place>, p: Place): set<nat> {
    set f | f in place && place[f] == p
  }

  ghost predicate Counted(s: State) {
    && s.filesFailed == |Having(s.place, Failed)|
    && s.filesTransferred == |Having(s.place, Published)|
    && s.filesRejected == |Having(s.place, Rejected)|
  }

  ghost predicate Inv(cfg: QC.Config, plan: Plan, s: State) {
    && QC.Inv(cfg, s.c)
    && Shape(plan, s)
    && Exact(s)
    && TakenUp(plan, s)
    && NobodyForgotten(s)
    && Primaries(plan, s)
    && MetaKnown(s)
    && PushedOnce(s)
    && Counted(s)
  }
}
