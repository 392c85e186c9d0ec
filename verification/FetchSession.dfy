/** A whole session on the receiving side: the accounting machine, and the data
    channels of its fetch workers over one set of part files
    (internal/receiver/fetch.go).  Channel c belongs to fetch worker c.  A worker asks
    only for the item it holds, and requeues, returns or gives up that item only once
    fetchOne has returned; that no other worker holds it is proved, not assumed.

    A journal that refuses a file already moved into place is a fatal error, but a worker
    that was cancelled in the meantime returns its item without looking at the error. */
module FetchSession {
  import opened Bytes
  import R = Receiver
  import RT = ReceiverTaking
  import RR = ReceiverRuns
  import QC = QueueClients
  import DC = DataChannel

  /** A file moved into place: for which request, with what, whether the journal has it,
      and (for the theorems) all the chunk data the servicer sent for that request. */
  datatype Publication = Publication(req: DC.Request, content: seq<byte>, recorded: bool, sent: seq<byte>)

  /** `lapsed` are the workers whose journal write failed and who still have their item,
      `swallowed` the files such a worker returned to the queue. */
  datatype Session = Session(
    r: R.State,
    chans: map<nat, DC.Channel>,
    parts: map<nat, seq<byte>>,
    nextReq: nat,
    published: seq<Publication>,
    lapsed: set<nat>,
    swallowed: set<nat>)

  /** What does not change: the queue's configuration, the plan, and what both sides
      agreed on about each file. */
  datatype Setup = Setup(cfg: QC.Config, plan: R.Plan, world: DC.World)

  /** `junk` is what a failed open, truncate or write may leave in the part file. */
  datatype Step = Join(c: nat) | On(c: nat, step: DC.Step, junk: seq<byte>) | Account(move: R.Step)

  predicate Asking(s: Session, c: nat) { c in s.chans && s.chans[c].worker.Busy? }

  predicate Enabled(su: Setup, s: Session, step: Step) {
    match step
    case Join(c) => c !in s.chans
    case On(c, st, _) =>
      && c in s.chans && DC.Enabled(s.chans[c], st)
      && (st.Ask? ==> st.req.id == s.nextReq && R.Fetches(s.r, c) && st.req.file == s.r.c.held[c].fileID)
    case Account(move) =>
      && |s.r.c.history| == |s.r.c.tries| && R.Enabled(su.cfg, su.plan, s.r, move) && !move.PublishItem?
      && (move.RetryItem? || move.ReturnItem? || move.GiveUp? ==> !Asking(s, move.w))
      && (move.RetryItem? || move.GiveUp? ==> move.w !in s.lapsed)
  }

  function VerdictOf(world: DC.World, ch: DC.Channel, io: DC.Local): DC.Verdict
    requires ch.worker.Busy? && ch.replies != []
  {
    DC.OnMessage(world.hash, world.DigestOf(ch.worker.req.file), ch.worker.pc, ch.replies[0], io)
  }

  /** What a consumed message does to the part file of the request in hand: the
      header truncates it, a chunk is appended, a publish moves it away. */
  function PartsAfter(s: Session, file: nat, v: DC.Verdict, m: DC.Msg, junk: seq<byte>): map<nat, seq<byte>> {
    match v
    case Continue(_) =>
      if m.Chunk? then s.parts[file := (if file in s.parts then s.parts[file] else []) + m.data]
      else s.parts[file := []]
    case Publish(_, _) => s.parts - {file}
    case Stop(_, _) => s.parts[file := junk]
  }

  /** The worker publishes what it holds; a worker that holds nothing would not. */
  function Publishes(su: Setup, r: R.State, c: nat): R.State {
    if R.Fetches(r, c) && |r.c.history| == |r.c.tries| then R.Apply(su.cfg, su.plan, r, R.PublishItem(c)) else r
  }

  function Apply(su: Setup, s: Session, step: Step): Session
    requires Enabled(su, s, step)
  {
    match step
    case Join(c) => s.(chans := s.chans[c := DC.FRESH_CHANNEL])
    case Account(move) =>
      var s1 := s.(r := R.Apply(su.cfg, su.plan, s.r, move));
      if move.ReturnItem? && move.w in s.lapsed
      then s1.(lapsed := s.lapsed - {move.w}, swallowed := s.swallowed + {s.r.c.held[move.w].fileID})
      else s1
    case On(c, st, junk) =>
      var ch := s.chans[c];
      var s1 := s.(chans := s.chans[c := DC.Apply(su.world, ch, st)],
                   nextReq := if st.Ask? then s.nextReq + 1 else s.nextReq);
      if !st.Receive? then s1
      else
        var file := ch.worker.req.file;
        var v := VerdictOf(su.world, ch, st.io);
        var s2 := s1.(parts := PartsAfter(s, file, v, ch.replies[0], junk));
        if !v.Publish? then s2
        else
          var onDisk := if file in s.parts then s.parts[file] else [];
          s2.(r := if v.recorded then Publishes(su, s.r, c) else s.r,
              lapsed := if v.recorded then s.lapsed else s.lapsed + {c},
              published := s.published + [Publication(ch.worker.req, onDisk, v.recorded, DC.Body(ch.log))])
  }

  // ---- the invariant -------------------------------------------------------

  /** What makes a publication right. */
  predicate Faithful(world: DC.World, p: Publication) {
    && p.content == p.sent
    && |p.content| == world.SizeOf(p.req.file)
    && (world.DigestOf(p.req.file) != [] ==> world.hash(p.content) == world.DigestOf(p.req.file))
  }

  /** The part file on disk is what the worker believes it wrote. */
  predicate PartMatches(parts: map<nat, seq<byte>>, w: DC.Worker) {
    w.Busy? && w.pc.Receiving? ==> w.req.file in parts && parts[w.req.file] == w.pc.part
  }

  /** A worker inside fetchOne holds the item it asked for. */
  predicate Holds(r: R.State, c: nat, w: DC.Worker) {
    w.Busy? ==> R.Fetches(r, c) && r.c.held[c].fileID == w.req.file
  }

  ghost predicate Channels(su: Setup, s: Session) {
    && (forall c :: c in s.chans ==> DC.InStep(su.world, s.chans[c]))
    && (forall c :: c in s.chans && s.chans[c].alive ==> PartMatches(s.parts, s.chans[c].worker))
  }

  ghost predicate Holders(s: Session) {
    forall c :: c in s.chans ==> Holds(s.r, c, s.chans[c].worker)
  }

  ghost predicate Listed(ps: seq<Publication>, f: nat) { exists i :: 0 <= i < |ps| && ps[i].req.file == f }

  ghost predicate ListedAs(ps: seq<Publication>, f: nat, recorded: bool) {
    exists i :: 0 <= i < |ps| && ps[i].req.file == f && ps[i].recorded == recorded
  }

  /** Every publication is right; the recorded ones are the files the accounting has on
      disk; and a file is published again only when its journal error was swallowed. */
  ghost predicate Publications(su: Setup, s: Session) {
    && (forall i :: 0 <= i < |s.published| ==> Faithful(su.world, s.published[i]))
    && (forall f :: RT.OnDisk(s.r.place, f) <==> ListedAs(s.published, f, true))
    && (forall i, j :: 0 <= i < j < |s.published| && s.published[i].req.file == s.published[j].req.file ==>
          !s.published[i].recorded && s.published[i].req.file in s.swallowed)
  }

  ghost predicate HeldAfterLapse(s: Session, f: nat) {
    exists c :: c in s.lapsed && c in s.r.c.held && s.r.c.held[c].fileID == f
  }

  /** A worker whose journal write failed is gone, and has the file in hand that it
      published without a record. */
  ghost predicate LapsedHolds(s: Session, c: nat) {
    && c in s.chans && s.chans[c].worker.Gone? && R.Fetches(s.r, c)
    && ListedAs(s.published, s.r.c.held[c].fileID, false)
  }

  /** Publications without a record: their worker still has the file, or swallowed the
      error. */
  ghost predicate Lapses(s: Session) {
    && (forall c :: c in s.lapsed ==> LapsedHolds(s, c))
    && (forall f :: f in s.swallowed ==> ListedAs(s.published, f, false))
    && (forall f :: ListedAs(s.published, f, false) ==> f in s.swallowed || HeldAfterLapse(s, f))
  }

  ghost predicate Inv(su: Setup, s: Session) {
    && su.plan.WellFormed()
    && R.Inv(su.cfg, su.plan, s.r)
    && Channels(su, s)
    && Holders(s)
    && Publications(su, s)
    && Lapses(s)
    && NothingLeft(s)
  }

  /** A file on disk has no part file. */
  ghost predicate NothingLeft(s: Session) { forall f :: RT.OnDisk(s.r.place, f) ==> f !in s.parts }

  predicate BothHold(w: DC.Worker, v: DC.Worker) {
    w.Busy? && v.Busy? && w.req.file == v.req.file
  }

  /** No two workers are writing the same part file. */
  ghost predicate OneWriter(s: Session) {
    forall c, d :: c in s.chans && d in s.chans && c != d ==> !BothHold(s.chans[c].worker, s.chans[d].worker)
  }

  /** One holder per file id, so one writer per part file. */
  lemma OneHolderOneWriter(s: Session)
    requires QC.SingleOwner(s.r.c) && Holders(s)
    ensures OneWriter(s)
  {
    forall c, d | c in s.chans && d in s.chans && c != d
      ensures !BothHold(s.chans[c].worker, s.chans[d].worker)
    {
      assert Holds(s.r, c, s.chans[c].worker) && Holds(s.r, d, s.chans[d].worker);
    }
  }

  // ---- the channels --------------------------------------------------------

  lemma ChannelMoves(world: DC.World, ch: DC.Channel, st: DC.Step)
    requires DC.Enabled(ch, st)
    ensures var ch' := DC.Apply(world, ch, st);
            && (ch'.alive ==> ch.alive)
            && (ch'.worker.Busy? ==> st.Ask? || (ch.worker.Busy? && ch'.worker.req == ch.worker.req))
            && (ch.worker.Gone? ==> ch'.worker.Gone?)
            && (!st.Receive? && ch'.worker.Busy? && ch'.worker.pc.Receiving? ==> ch'.worker == ch.worker)
  {
  }

  /** The part file after a message, as the worker sees it. */
  lemma PartAdvances(world: DC.World, s: Session, ch: DC.Channel, io: DC.Local, ends: bool, junk: seq<byte>)
    requires DC.InStep(world, ch) && DC.Enabled(ch, DC.Receive(io, ends)) && PartMatches(s.parts, ch.worker)
    ensures PartMatches(PartsAfter(s, ch.worker.req.file, VerdictOf(world, ch, io), ch.replies[0], junk),
                        DC.Apply(world, ch, DC.Receive(io, ends)).worker)
  {
    DC.VerdictFits(world.hash, world.DigestOf(ch.worker.req.file), ch.worker.pc, ch.replies[0], io);
  }

  /** What a publish finds on disk is one whole response, as planned. */
  lemma PublishIsFaithful(world: DC.World, s: Session, ch: DC.Channel, io: DC.Local)
    requires DC.InStep(world, ch) && ch.alive && ch.worker.Busy? && ch.replies != [] && PartMatches(s.parts, ch.worker)
    requires VerdictOf(world, ch, io).Publish?
    ensures ch.worker.req.file in s.parts
    ensures Faithful(world, Publication(ch.worker.req, s.parts[ch.worker.req.file], io.Works?, DC.Body(ch.log)))
    ensures VerdictOf(world, ch, io).recorded == io.Works?
  {
    DC.PublishedPart(world.hash, world.DigestOf(ch.worker.req.file), ch.worker.pc, ch.replies[0], io);
    DC.PublishHere(world, ch, io);
  }

  lemma OthersKeepParts(s: Session, parts': map<nat, seq<byte>>, c: nat, file: nat)
    requires forall d :: d in s.chans && s.chans[d].alive ==> PartMatches(s.parts, s.chans[d].worker)
    requires forall d :: d in s.chans && d != c && s.chans[d].worker.Busy? ==> s.chans[d].worker.req.file != file
    requires forall f :: f != file && f in s.parts ==> f in parts' && parts'[f] == s.parts[f]
    ensures forall d :: d in s.chans && d != c && s.chans[d].alive ==> PartMatches(parts', s.chans[d].worker)
  {
  }

  lemma ReceiveChannels(su: Setup, s: Session, c: nat, io: DC.Local, ends: bool, junk: seq<byte>)
    requires Channels(su, s) && OneWriter(s) && Enabled(su, s, On(c, DC.Receive(io, ends), junk))
    ensures Channels(su, Apply(su, s, On(c, DC.Receive(io, ends), junk)))
  {
    var st := DC.Receive(io, ends);
    var s' := Apply(su, s, On(c, st, junk));
    var ch := s.chans[c];
    DC.StepKeeps(su.world, ch, st);
    ChannelMoves(su.world, ch, st);
    PartAdvances(su.world, s, ch, io, ends, junk);
    OthersKeepParts(s, s'.parts, c, ch.worker.req.file);
  }

  lemma ChannelsKept(su: Setup, s: Session, step: Step)
    requires Channels(su, s) && OneWriter(s) && Enabled(su, s, step)
    ensures Channels(su, Apply(su, s, step))
  {
    match step
    case Join(_) =>
    case Account(_) =>
    case On(c, st, junk) =>
      if st.Receive? {
        ReceiveChannels(su, s, c, st.io, st.ends, junk);
      } else {
        DC.StepKeeps(su.world, s.chans[c], st);
        ChannelMoves(su.world, s.chans[c], st);
      }
  }

  // ---- the holders ---------------------------------------------------------

  lemma RestLeavesHeld(cfg: QC.Config, plan: R.Plan, r: R.State, move: R.Step, c: nat)
    requires |r.c.history| == |r.c.tries| && R.Enabled(cfg, plan, r, move) && R.Fetches(r, c)
    requires (move.RetryItem? || move.ReturnItem? || move.GiveUp? || move.PublishItem?) && move.w != c
    ensures var r' := R.Apply(cfg, plan, r, move); R.Fetches(r', c) && r'.c.held[c] == r.c.held[c]
  {
  }

  lemma FetchLeavesHeld(cfg: QC.Config, plan: R.Plan, r: R.State, move: R.Step, c: nat)
    requires |r.c.history| == |r.c.tries| && R.Enabled(cfg, plan, r, move) && RT.ByFetch(move) && R.Fetches(r, c)
    requires move.RetryItem? || move.ReturnItem? || move.GiveUp? || move.PublishItem? ==> move.w != c
    ensures var r' := R.Apply(cfg, plan, r, move); R.Fetches(r', c) && r'.c.held[c] == r.c.held[c]
  {
    if move.RetryItem? || move.ReturnItem? || move.GiveUp? || move.PublishItem? {
      RestLeavesHeld(cfg, plan, r, move, c);
    } else if move.FetchLinks? {
      LinksLeaveHeld(cfg, plan, r, move, c);
    }
  }

  lemma LinksLeaveHeld(cfg: QC.Config, plan: R.Plan, r: R.State, move: R.Step, c: nat)
    requires |r.c.history| == |r.c.tries| && R.Enabled(cfg, plan, r, move) && move.FetchLinks? && R.Fetches(r, c)
    ensures var r' := R.Apply(cfg, plan, r, move); R.Fetches(r', c) && r'.c.held[c] == r.c.held[c]
  {
  }

  lemma Undisturbed(cfg: QC.Config, plan: R.Plan, r: R.State, move: R.Step, c: nat)
    requires |r.c.history| == |r.c.tries| && R.Enabled(cfg, plan, r, move) && R.Fetches(r, c)
    requires move.RetryItem? || move.ReturnItem? || move.GiveUp? || move.PublishItem? ==> move.w != c
    ensures var r' := R.Apply(cfg, plan, r, move); R.Fetches(r', c) && r'.c.held[c] == r.c.held[c]
  {
    if RT.ByFetch(move) {
      FetchLeavesHeld(cfg, plan, r, move, c);
    } else {
      RT.DecideLeavesHeld(cfg, plan, r, move);
    }
  }

  lemma AccountHolders(su: Setup, s: Session, move: R.Step)
    requires Holders(s) && Enabled(su, s, Account(move))
    ensures Holders(Apply(su, s, Account(move)))
  {
    forall c | c in s.chans
      ensures Holds(R.Apply(su.cfg, su.plan, s.r, move), c, s.chans[c].worker)
    {
      assert Holds(s.r, c, s.chans[c].worker);
      if s.chans[c].worker.Busy? {
        Undisturbed(su.cfg, su.plan, s.r, move, c);
      }
    }
  }

  /** The worker that publishes is inside fetchOne, so it does hold the item. */
  lemma PublisherHolds(su: Setup, s: Session, c: nat)
    requires Holders(s) && Asking(s, c) && |s.r.c.history| == |s.r.c.tries|
    ensures R.Fetches(s.r, c) && s.r.c.held[c].fileID == s.chans[c].worker.req.file
    ensures R.Enabled(su.cfg, su.plan, s.r, R.PublishItem(c))
    ensures Publishes(su, s.r, c) == R.Apply(su.cfg, su.plan, s.r, R.PublishItem(c))
  {
    assert Holds(s.r, c, s.chans[c].worker);
  }

  /** The step publishes and the journal takes the record. */
  predicate Records(su: Setup, s: Session, c: nat, st: DC.Step) {
    && c in s.chans && DC.Enabled(s.chans[c], st) && st.Receive?
    && VerdictOf(su.world, s.chans[c], st.io).Publish? && VerdictOf(su.world, s.chans[c], st.io).recorded
  }

  lemma OnHolders(su: Setup, s: Session, c: nat, st: DC.Step, junk: seq<byte>)
    requires Holders(s) && Enabled(su, s, On(c, st, junk)) && |s.r.c.history| == |s.r.c.tries|
    ensures Holders(Apply(su, s, On(c, st, junk)))
  {
    var s' := Apply(su, s, On(c, st, junk));
    ChannelMoves(su.world, s.chans[c], st);
    forall d | d in s'.chans
      ensures Holds(s'.r, d, s'.chans[d].worker)
    {
      assert Holds(s.r, d, s.chans[d].worker);
      if Records(su, s, c, st) {
        PublisherHolds(su, s, c);
        if d != c && s.chans[d].worker.Busy? {
          Undisturbed(su.cfg, su.plan, s.r, R.PublishItem(c), d);
        }
      }
    }
  }

  // ---- the publications ----------------------------------------------------

  lemma NotTakenUp(plan: R.Plan, r: R.State, g: nat, f: nat)
    requires R.TakenUp(plan, r) && g in plan.groups && g !in r.started && RT.OnDisk(r.place, f)
    ensures f !in plan.groups[g]
  {
  }

  /** Accounting other than a publication leaves the files on disk as they are. */
  lemma AccountDisk(cfg: QC.Config, plan: R.Plan, r: R.State, move: R.Step, f: nat)
    requires R.TakenUp(plan, r) && R.Exact(r) && |r.c.history| == |r.c.tries| && R.Enabled(cfg, plan, r, move)
    ensures RT.OnDisk(r.place, f) ==> RT.OnDisk(R.Apply(cfg, plan, r, move).place, f)
    ensures RT.OnDisk(R.Apply(cfg, plan, r, move).place, f) ==>
              RT.OnDisk(r.place, f) || (move.PublishItem? && f == r.c.held[move.w].fileID)
  {
    if RT.OnDisk(r.place, f) {
      if move.StartGroup? {
        NotTakenUp(plan, r, move.g, f);
      }
      RT.StaysOnDisk(cfg, plan, r, move, f);
    }
    if RT.OnDisk(R.Apply(cfg, plan, r, move).place, f) {
      if RT.ByFetch(move) {
        RT.FetchPublishes(cfg, plan, r, move, f);
      } else {
        RT.DecideNeverPublishes(cfg, plan, r, move, f);
      }
    }
  }

  lemma AccountPublications(su: Setup, s: Session, move: R.Step)
    requires Publications(su, s) && R.TakenUp(su.plan, s.r) && R.Exact(s.r) && Enabled(su, s, Account(move))
    ensures Publications(su, Apply(su, s, Account(move)))
  {
    forall f
      ensures RT.OnDisk(s.r.place, f) <==> RT.OnDisk(R.Apply(su.cfg, su.plan, s.r, move).place, f)
    {
      AccountDisk(su.cfg, su.plan, s.r, move, f);
    }
  }

  lemma HeldNotOnDisk(r: R.State, c: nat)
    requires R.Exact(r) && R.Fetches(r, c)
    ensures r.c.held[c].fileID in r.place && !RT.OnDisk(r.place, r.c.held[c].fileID)
  {
    RT.HeldIsHeld(r, c);
  }

  lemma PublishLands(su: Setup, r: R.State, c: nat)
    requires R.Exact(r) && R.Fetches(r, c) && |r.c.history| == |r.c.tries|
    ensures RT.OnDisk(R.Apply(su.cfg, su.plan, r, R.PublishItem(c)).place, r.c.held[c].fileID)
  {
    RT.PublishedIsOnDisk(su.cfg, su.plan, r, c);
  }

  lemma ListedMore(ps: seq<Publication>, p: Publication, f: nat, recorded: bool)
    ensures ListedAs(ps + [p], f, recorded) <==> ListedAs(ps, f, recorded) || (p.req.file == f && p.recorded == recorded)
  {
    var qs := ps + [p];
    if ListedAs(ps, f, recorded) {
      var i :| 0 <= i < |ps| && ps[i].req.file == f && ps[i].recorded == recorded;
      assert qs[i] == ps[i];
    }
    assert qs[|ps|] == p;
  }

  /** A worker that publishes a file published before does so behind a swallowed error:
      a recorded file is not in anyone's hands, and no one else holds this one. */
  lemma OnlyBehindLapse(su: Setup, s: Session, c: nat, i: nat)
    requires Publications(su, s) && Lapses(s) && R.Exact(s.r) && QC.SingleOwner(s.r.c)
    requires R.Fetches(s.r, c) && c !in s.lapsed && i < |s.published|
    requires s.published[i].req.file == s.r.c.held[c].fileID
    ensures !s.published[i].recorded && s.published[i].req.file in s.swallowed
  {
    var f := s.published[i].req.file;
    HeldNotOnDisk(s.r, c);
    assert ListedAs(s.published, f, s.published[i].recorded);
  }

  lemma RepeatsBehindLapse(su: Setup, s: Session, s': Session, c: nat, p: Publication)
    requires Publications(su, s) && Lapses(s) && R.Exact(s.r) && QC.SingleOwner(s.r.c)
    requires R.Fetches(s.r, c) && c !in s.lapsed && s.r.c.held[c].fileID == p.req.file
    requires s'.published == s.published + [p] && s'.swallowed == s.swallowed
    ensures forall i, j :: 0 <= i < j < |s'.published| && s'.published[i].req.file == s'.published[j].req.file ==>
              !s'.published[i].recorded && s'.published[i].req.file in s'.swallowed
  {
    forall i, j | 0 <= i < j < |s'.published| && s'.published[i].req.file == s'.published[j].req.file
      ensures !s'.published[i].recorded && s'.published[i].req.file in s'.swallowed
    {
      if j == |s.published| {
        OnlyBehindLapse(su, s, c, i);
      }
    }
  }

  /** A recorded publication adds exactly its own file, which was not on disk before. */
  lemma DiskGrows(su: Setup, s: Session, s': Session, c: nat, p: Publication)
    requires Publications(su, s) && R.TakenUp(su.plan, s.r) && R.Exact(s.r) && |s.r.c.history| == |s.r.c.tries|
    requires R.Fetches(s.r, c) && s.r.c.held[c].fileID == p.req.file && p.recorded
    requires s'.r == R.Apply(su.cfg, su.plan, s.r, R.PublishItem(c)) && s'.published == s.published + [p]
    ensures forall f :: RT.OnDisk(s'.r.place, f) <==> ListedAs(s'.published, f, true)
  {
    PublishLands(su, s.r, c);
    forall f
      ensures RT.OnDisk(s'.r.place, f) <==> ListedAs(s'.published, f, true)
    {
      AccountDisk(su.cfg, su.plan, s.r, R.PublishItem(c), f);
      ListedMore(s.published, p, f, true);
    }
  }

  lemma PublishPublications(su: Setup, s: Session, s': Session, c: nat, p: Publication)
    requires Publications(su, s) && Lapses(s) && R.TakenUp(su.plan, s.r) && R.Exact(s.r) && QC.SingleOwner(s.r.c)
    requires |s.r.c.history| == |s.r.c.tries| && R.Fetches(s.r, c) && c !in s.lapsed
    requires s.r.c.held[c].fileID == p.req.file && Faithful(su.world, p)
    requires s'.r == (if p.recorded then R.Apply(su.cfg, su.plan, s.r, R.PublishItem(c)) else s.r)
    requires s'.published == s.published + [p] && s'.swallowed == s.swallowed
    ensures Publications(su, s')
  {
    RepeatsBehindLapse(su, s, s', c, p);
    if p.recorded {
      DiskGrows(su, s, s', c, p);
    } else {
      forall f
        ensures ListedAs(s'.published, f, true) <==> ListedAs(s.published, f, true)
      {
        ListedMore(s.published, p, f, true);
      }
    }
  }

  lemma ReceivePublications(su: Setup, s: Session, c: nat, io: DC.Local, ends: bool, junk: seq<byte>)
    requires Channels(su, s) && Holders(s) && Publications(su, s) && Lapses(s)
    requires R.TakenUp(su.plan, s.r) && R.Exact(s.r) && QC.SingleOwner(s.r.c)
    requires |s.r.c.history| == |s.r.c.tries| && Enabled(su, s, On(c, DC.Receive(io, ends), junk))
    ensures Publications(su, Apply(su, s, On(c, DC.Receive(io, ends), junk)))
  {
    if VerdictOf(su.world, s.chans[c], io).Publish? {
      PublishingAdds(su, s, c, io, ends, junk);
    }
  }

  lemma PublishingAdds(su: Setup, s: Session, c: nat, io: DC.Local, ends: bool, junk: seq<byte>)
    requires Channels(su, s) && Holders(s) && Publications(su, s) && Lapses(s)
    requires R.TakenUp(su.plan, s.r) && R.Exact(s.r) && QC.SingleOwner(s.r.c)
    requires |s.r.c.history| == |s.r.c.tries| && Enabled(su, s, On(c, DC.Receive(io, ends), junk))
    requires VerdictOf(su.world, s.chans[c], io).Publish?
    ensures Publications(su, Apply(su, s, On(c, DC.Receive(io, ends), junk)))
  {
    var ch := s.chans[c];
    PublisherHolds(su, s, c);
    PublishIsFaithful(su.world, s, ch, io);
    assert c in s.lapsed ==> LapsedHolds(s, c);
    PublishPublications(su, s, Apply(su, s, On(c, DC.Receive(io, ends), junk)), c,
                        Publication(ch.worker.req, s.parts[ch.worker.req.file], io.Works?, DC.Body(ch.log)));
  }

  // ---- the journal errors --------------------------------------------------

  /** Whatever leaves the lapsed workers, what they hold and the list of publications
      without a record as they are. */
  lemma LapsesStay(s: Session, s': Session)
    requires Lapses(s) && s'.lapsed == s.lapsed && s'.swallowed == s.swallowed
    requires forall f :: ListedAs(s'.published, f, false) <==> ListedAs(s.published, f, false)
    requires forall c :: c in s.lapsed ==>
               && c in s'.chans && s'.chans[c].worker.Gone?
               && R.Fetches(s'.r, c) && s'.r.c.held[c] == s.r.c.held[c]
    ensures Lapses(s')
  {
    forall c | c in s'.lapsed
      ensures LapsedHolds(s', c)
    {
      assert LapsedHolds(s, c);
    }
    forall f | ListedAs(s'.published, f, false) && f !in s'.swallowed
      ensures HeldAfterLapse(s', f)
    {
      var c :| c in s.lapsed && c in s.r.c.held && s.r.c.held[c].fileID == f;
      assert c in s'.lapsed && s'.r.c.held[c].fileID == f;
    }
  }

  /** A cancelled worker returns the item it published without a record. */
  lemma SwallowLapses(s: Session, s': Session, c: nat)
    requires Lapses(s) && c in s.lapsed && c in s.r.c.held
    requires s'.lapsed == s.lapsed - {c} && s'.swallowed == s.swallowed + {s.r.c.held[c].fileID}
    requires s'.published == s.published && s'.chans == s.chans
    requires forall d :: d in s'.lapsed ==> R.Fetches(s'.r, d) && s'.r.c.held[d] == s.r.c.held[d]
    ensures Lapses(s')
  {
    assert LapsedHolds(s, c);
    forall d | d in s'.lapsed
      ensures LapsedHolds(s', d)
    {
      assert LapsedHolds(s, d);
    }
    forall f | ListedAs(s'.published, f, false) && f !in s'.swallowed
      ensures HeldAfterLapse(s', f)
    {
      var d :| d in s.lapsed && d in s.r.c.held && s.r.c.held[d].fileID == f;
      assert d in s'.lapsed && s'.r.c.held[d].fileID == f;
    }
  }

  lemma AccountLapses(su: Setup, s: Session, move: R.Step)
    requires Lapses(s) && Enabled(su, s, Account(move))
    ensures Lapses(Apply(su, s, Account(move)))
  {
    var s' := Apply(su, s, Account(move));
    forall c | c in s'.lapsed
      ensures c in s'.chans && s'.chans[c].worker.Gone? && R.Fetches(s'.r, c) && s'.r.c.held[c] == s.r.c.held[c]
    {
      assert LapsedHolds(s, c);
      Undisturbed(su.cfg, su.plan, s.r, move, c);
    }
    if move.ReturnItem? && move.w in s.lapsed {
      SwallowLapses(s, s', move.w);
    } else {
      LapsesStay(s, s');
    }
  }

  /** The file is in place, the journal refused it, and the worker is going. */
  lemma UnrecordedLapses(s: Session, s': Session, c: nat, p: Publication)
    requires Lapses(s) && R.Fetches(s.r, c) && s.r.c.held[c].fileID == p.req.file && !p.recorded
    requires s'.r == s.r && s'.published == s.published + [p] && s'.lapsed == s.lapsed + {c}
    requires s'.swallowed == s.swallowed && c in s'.chans && s'.chans[c].worker.Gone?
    requires forall d :: d in s.chans && d != c ==> d in s'.chans && s'.chans[d] == s.chans[d]
    ensures Lapses(s')
  {
    forall f
      ensures ListedAs(s'.published, f, false) <==> ListedAs(s.published, f, false) || f == p.req.file
    {
      ListedMore(s.published, p, f, false);
    }
    forall d | d in s'.lapsed
      ensures LapsedHolds(s', d)
    {
      assert d != c ==> LapsedHolds(s, d);
    }
    forall f | ListedAs(s'.published, f, false) && f !in s'.swallowed
      ensures HeldAfterLapse(s', f)
    {
      if f == p.req.file {
        assert c in s'.lapsed && s'.r.c.held[c].fileID == f;
      } else {
        var d :| d in s.lapsed && d in s.r.c.held && s.r.c.held[d].fileID == f;
        assert d in s'.lapsed && s'.r.c.held[d].fileID == f;
      }
    }
  }

  lemma RecordedLapses(su: Setup, s: Session, s': Session, c: nat, p: Publication)
    requires Lapses(s) && R.Fetches(s.r, c) && |s.r.c.history| == |s.r.c.tries| && p.recorded && c !in s.lapsed
    requires s'.r == R.Apply(su.cfg, su.plan, s.r, R.PublishItem(c)) && s'.published == s.published + [p]
    requires s'.lapsed == s.lapsed && s'.swallowed == s.swallowed
    requires forall d :: d in s.chans && d != c ==> d in s'.chans && s'.chans[d] == s.chans[d]
    ensures Lapses(s')
  {
    forall f
      ensures ListedAs(s'.published, f, false) <==> ListedAs(s.published, f, false)
    {
      ListedMore(s.published, p, f, false);
    }
    forall d | d in s.lapsed
      ensures d in s'.chans && s'.chans[d].worker.Gone? && R.Fetches(s'.r, d) && s'.r.c.held[d] == s.r.c.held[d]
    {
      assert LapsedHolds(s, d);
      Undisturbed(su.cfg, su.plan, s.r, R.PublishItem(c), d);
    }
    LapsesStay(s, s');
  }

  lemma PublishingLapses(su: Setup, s: Session, c: nat, io: DC.Local, ends: bool, junk: seq<byte>)
    requires Channels(su, s) && Holders(s) && Lapses(s) && |s.r.c.history| == |s.r.c.tries|
    requires Enabled(su, s, On(c, DC.Receive(io, ends), junk)) && VerdictOf(su.world, s.chans[c], io).Publish?
    ensures Lapses(Apply(su, s, On(c, DC.Receive(io, ends), junk)))
  {
    var s' := Apply(su, s, On(c, DC.Receive(io, ends), junk));
    var ch := s.chans[c];
    PublisherHolds(su, s, c);
    PublishIsFaithful(su.world, s, ch, io);
    assert c in s.lapsed ==> LapsedHolds(s, c);
    var p := Publication(ch.worker.req, s.parts[ch.worker.req.file], io.Works?, DC.Body(ch.log));
    if io.Works? {
      RecordedLapses(su, s, s', c, p);
    } else {
      UnrecordedLapses(s, s', c, p);
    }
  }

  lemma OnLapses(su: Setup, s: Session, c: nat, st: DC.Step, junk: seq<byte>)
    requires Channels(su, s) && Holders(s) && Lapses(s) && |s.r.c.history| == |s.r.c.tries|
    requires Enabled(su, s, On(c, st, junk))
    ensures Lapses(Apply(su, s, On(c, st, junk)))
  {
    if st.Receive? && VerdictOf(su.world, s.chans[c], st.io).Publish? {
      PublishingLapses(su, s, c, st.io, st.ends, junk);
    } else {
      ChannelMoves(su.world, s.chans[c], st);
      forall d | d in s.lapsed
        ensures LapsedHolds(s, d)
      {
      }
      LapsesStay(s, Apply(su, s, On(c, st, junk)));
    }
  }

  // ---- every step ----------------------------------------------------------

  lemma AccountingKept(su: Setup, s: Session, step: Step)
    requires Inv(su, s) && Enabled(su, s, step)
    ensures R.Inv(su.cfg, su.plan, Apply(su, s, step).r)
  {
    match step
    case Join(_) =>
    case Account(move) => AccountKept(su, s, move);
    case On(c, st, junk) => OnKept(su, s, c, st, junk);
  }

  lemma OnKept(su: Setup, s: Session, c: nat, st: DC.Step, junk: seq<byte>)
    requires Inv(su, s) && Enabled(su, s, On(c, st, junk))
    ensures R.Inv(su.cfg, su.plan, Apply(su, s, On(c, st, junk)).r)
  {
    OnAccounts(su, s, c, st, junk);
    if Records(su, s, c, st) {
      PublishingKept(su, s, c);
    }
  }

  lemma OnAccounts(su: Setup, s: Session, c: nat, st: DC.Step, junk: seq<byte>)
    requires Enabled(su, s, On(c, st, junk))
    ensures Apply(su, s, On(c, st, junk)).r == if Records(su, s, c, st) then Publishes(su, s.r, c) else s.r
  {
  }

  lemma AccountKept(su: Setup, s: Session, move: R.Step)
    requires Inv(su, s) && Enabled(su, s, Account(move))
    ensures R.Inv(su.cfg, su.plan, R.Apply(su.cfg, su.plan, s.r, move))
  {
    RR.StepKeeps(su.cfg, su.plan, s.r, move);
  }

  lemma PublishingKept(su: Setup, s: Session, c: nat)
    requires Inv(su, s) && Asking(s, c)
    ensures R.Inv(su.cfg, su.plan, Publishes(su, s.r, c))
  {
    PublisherHolds(su, s, c);
    RR.StepKeeps(su.cfg, su.plan, s.r, R.PublishItem(c));
  }

  lemma HoldersKept(su: Setup, s: Session, step: Step)
    requires Inv(su, s) && Enabled(su, s, step)
    ensures Holders(Apply(su, s, step))
  {
    match step
    case Join(_) =>
    case Account(move) => AccountHolders(su, s, move);
    case On(c, st, junk) => OnHolders(su, s, c, st, junk);
  }

  lemma PublicationsKept(su: Setup, s: Session, step: Step)
    requires Inv(su, s) && Enabled(su, s, step)
    ensures Publications(su, Apply(su, s, step))
  {
    match step
    case Join(_) =>
    case Account(move) => AccountPublications(su, s, move);
    case On(c, st, junk) =>
      if st.Receive? {
        ReceivePublications(su, s, c, st.io, st.ends, junk);
      }
  }

  lemma LapsesKept(su: Setup, s: Session, step: Step)
    requires Inv(su, s) && Enabled(su, s, step)
    ensures Lapses(Apply(su, s, step))
  {
    match step
    case Join(c) =>
      assert forall d :: d in s.lapsed ==> LapsedHolds(s, d);
      LapsesStay(s, Apply(su, s, step));
    case Account(move) => AccountLapses(su, s, move);
    case On(c, st, junk) => OnLapses(su, s, c, st, junk);
  }

  lemma ReceiveParts(su: Setup, s: Session, c: nat, io: DC.Local, ends: bool, junk: seq<byte>)
    requires Enabled(su, s, On(c, DC.Receive(io, ends), junk))
    ensures var s' := Apply(su, s, On(c, DC.Receive(io, ends), junk));
            var file := s.chans[c].worker.req.file;
            && (forall f :: f != file && f in s'.parts ==> f in s.parts)
            && (VerdictOf(su.world, s.chans[c], io).Publish? ==> file !in s'.parts)
  {
  }

  lemma OnLeft(su: Setup, s: Session, c: nat, st: DC.Step, junk: seq<byte>)
    requires Holders(s) && NothingLeft(s) && R.TakenUp(su.plan, s.r) && R.Exact(s.r) && |s.r.c.history| == |s.r.c.tries|
    requires Enabled(su, s, On(c, st, junk))
    ensures NothingLeft(Apply(su, s, On(c, st, junk)))
  {
    OnAccounts(su, s, c, st, junk);
    if st.Receive? {
      var file := s.chans[c].worker.req.file;
      ReceiveParts(su, s, c, st.io, st.ends, junk);
      PublisherHolds(su, s, c);
      HeldNotOnDisk(s.r, c);
      forall f
        ensures RT.OnDisk(Publishes(su, s.r, c).place, f) ==> RT.OnDisk(s.r.place, f) || f == file
      {
        AccountDisk(su.cfg, su.plan, s.r, R.PublishItem(c), f);
      }
    }
  }

  lemma AccountLeft(su: Setup, s: Session, move: R.Step)
    requires NothingLeft(s) && R.TakenUp(su.plan, s.r) && R.Exact(s.r) && Enabled(su, s, Account(move))
    ensures NothingLeft(Apply(su, s, Account(move)))
  {
    forall f
      ensures RT.OnDisk(R.Apply(su.cfg, su.plan, s.r, move).place, f) ==> RT.OnDisk(s.r.place, f)
    {
      AccountDisk(su.cfg, su.plan, s.r, move, f);
    }
  }

  lemma LeftKept(su: Setup, s: Session, step: Step)
    requires Inv(su, s) && Enabled(su, s, step)
    ensures NothingLeft(Apply(su, s, step))
  {
    match step
    case Join(_) =>
    case Account(move) => AccountLeft(su, s, move);
    case On(c, st, junk) => OnLeft(su, s, c, st, junk);
  }

  lemma StepKeeps(su: Setup, s: Session, step: Step)
    requires Inv(su, s) && Enabled(su, s, step)
    ensures Inv(su, Apply(su, s, step))
  {
    OneHolderOneWriter(s);
    AccountingKept(su, s, step);
    ChannelsKept(su, s, step);
    HoldersKept(su, s, step);
    PublicationsKept(su, s, step);
    LapsesKept(su, s, step);
    LeftKept(su, s, step);
  }

  // ---- whole sessions ------------------------------------------------------

  function Start(su: Setup): Session { Session(R.Init(su.cfg, su.plan), map[], map[], 1, [], {}, {}) }

  ghost predicate Runs(su: Setup, s: Session, steps: seq<Step>)
    decreases |steps|
  {
    steps == [] || (Enabled(su, s, steps[0]) && Runs(su, Apply(su, s, steps[0]), steps[1..]))
  }

  ghost function End(su: Setup, s: Session, steps: seq<Step>): Session
    requires Runs(su, s, steps)
    decreases |steps|
  {
    if steps == [] then s else End(su, Apply(su, s, steps[0]), steps[1..])
  }

  lemma {:induction false} RunKeeps(su: Setup, s: Session, steps: seq<Step>)
    requires Inv(su, s) && Runs(su, s, steps)
    ensures Inv(su, End(su, s, steps))
    decreases |steps|
  {
    if steps != [] {
      StepKeeps(su, s, steps[0]);
      RunKeeps(su, Apply(su, s, steps[0]), steps[1..]);
    }
  }

  lemma SessionInv(su: Setup, steps: seq<Step>)
    requires su.plan.WellFormed() && Runs(su, Start(su), steps)
    ensures Inv(su, End(su, Start(su), steps))
  {
    RR.InitInv(su.cfg, su.plan);
    RunKeeps(su, Start(su), steps);
  }

  /** In any session, across retries, requeues, lost channels and journal errors: no two
      workers ever write the same part file; whatever is published is all the data of
      one request for that file, of the planned size, and matches the manifest digest
      when there is one; the files the accounting has on disk are exactly those with a
      recorded publication, and have no part file left; and a file is published again
      only behind a publication that the journal refused and a cancelled worker returned
      to the queue. */
  lemma EveryPublicationIsFaithful(su: Setup, steps: seq<Step>)
    requires su.plan.WellFormed() && Runs(su, Start(su), steps)
    ensures var s := End(su, Start(su), steps);
            && OneWriter(s)
            && Publications(su, s)
            && NothingLeft(s)
  {
    SessionInv(su, steps);
    OneHolderOneWriter(End(su, Start(su), steps));
  }

  ghost predicate OneEach(ps: seq<Publication>) {
    forall i, j :: 0 <= i < j < |ps| ==> ps[i].req.file != ps[j].req.file
  }

  /** The publications are the files the accounting has on disk, one each. */
  ghost predicate Settled(s: Session) {
    OneEach(s.published) && forall f :: Listed(s.published, f) <==> RT.OnDisk(s.r.place, f)
  }

  ghost predicate AllRecorded(ps: seq<Publication>) { forall i :: 0 <= i < |ps| ==> ps[i].recorded }

  lemma SettledHere(su: Setup, s: Session)
    requires Publications(su, s)
    ensures Settled(s) <==> AllRecorded(s.published)
  {
    if AllRecorded(s.published) {
      forall f
        ensures Listed(s.published, f) <==> ListedAs(s.published, f, true)
      {
      }
    } else {
      var i :| 0 <= i < |s.published| && !s.published[i].recorded;
      var f := s.published[i].req.file;
      assert Listed(s.published, f);
      if ListedAs(s.published, f, true) {
        var j :| 0 <= j < |s.published| && s.published[j].req.file == f && s.published[j].recorded;
        assert i < j || j < i;
      }
    }
  }

  /** In every session each file is published once, and the accounting has exactly the
      published files on disk, if and only if the journal took every record.  A file is
      published twice only if a cancelled worker swallowed the error; and once the queue
      has drained the journal took every record if and only if none was swallowed. */
  lemma PublishedOnceIff(su: Setup, steps: seq<Step>)
    requires su.plan.WellFormed() && Runs(su, Start(su), steps)
    ensures var s := End(su, Start(su), steps);
            && (Settled(s) <==> AllRecorded(s.published))
            && (s.swallowed == {} ==> OneEach(s.published))
            && (s.r.c.q.Drained() ==> (AllRecorded(s.published) <==> s.swallowed == {}))
  {
    var s := End(su, Start(su), steps);
    SessionInv(su, steps);
    SettledHere(su, s);
    if s.r.c.q.Drained() {
      DrainedLapses(su, s);
    }
  }

  lemma DrainedLapses(su: Setup, s: Session)
    requires R.Inv(su.cfg, su.plan, s.r) && Lapses(s) && s.r.c.q.Drained()
    ensures AllRecorded(s.published) <==> s.swallowed == {}
  {
    assert s.r.c.held == map[];
    if s.swallowed != {} {
      var f :| f in s.swallowed;
      assert ListedAs(s.published, f, false);
    } else {
      forall i | 0 <= i < |s.published|
        ensures s.published[i].recorded
      {
        assert !ListedAs(s.published, s.published[i].req.file, false);
      }
    }
  }
}
