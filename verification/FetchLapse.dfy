/** A session in which a file is published twice (internal/receiver/fetch.go, lines 58 to
    70 and 264 to 278): the journal refuses the record of a file that is already in
    place, and its worker, cancelled meanwhile, returns the item to the queue. */
module FetchLapse {
  import opened Bytes
  import opened Optional
  import opened FetchSession
  import NQ = NeedQueue
  import R = Receiver
  import QC = QueueClients
  import DC = DataChannel

  lemma {:induction false} Extend(su: Setup, s: Session, steps: seq<Step>, step: Step)
    requires Runs(su, s, steps) && Enabled(su, End(su, s, steps), step)
    ensures Runs(su, s, steps + [step]) && End(su, s, steps + [step]) == Apply(su, End(su, s, steps), step)
    decreases |steps|
  {
    if steps == [] {
      assert [] + [step] == [step] && [step][1..] == [];
      assert Runs(su, Apply(su, s, step), []);
    } else {
      assert (steps + [step])[1..] == steps[1..] + [step];
      Extend(su, Apply(su, s, steps[0]), steps[1..], step);
    }
  }

  /** One more step of a run. */
  lemma Go(su: Setup, s: Session, steps: seq<Step>, step: Step) returns (more: seq<Step>)
    requires Runs(su, s, steps) && Enabled(su, End(su, s, steps), step)
    ensures Runs(su, s, more) && End(su, s, more) == Apply(su, End(su, s, steps), step)
  {
    Extend(su, s, steps, step);
    more := steps + [step];
  }

  // ---- one empty file over one channel -------------------------------------

  function Ready(req: DC.Request, hash: seq<byte> -> seq<byte>): DC.Channel {
    var log := [DC.Header(req.id, 0, []), DC.Complete(req.id, hash([]))];
    DC.Channel(true, [], log, DC.Idle, DC.Busy(req, DC.AwaitHeader), log, 0)
  }

  function Filling(req: DC.Request, hash: seq<byte> -> seq<byte>): DC.Channel {
    var ch := Ready(req, hash);
    ch.(replies := ch.log[1..], worker := DC.Busy(req, DC.Receiving(0, [], [])), got := 1)
  }

  lemma NoBody(req: DC.Request, hash: seq<byte> -> seq<byte>)
    ensures DC.Body(Filling(req, hash).log) == []
  {
    var log := Filling(req, hash).log;
    assert log[1..] == [log[1]];
    DC.BodyOfOne(log[1]);
  }

  function Asked(req: DC.Request): DC.Channel {
    DC.Channel(true, [req], [], DC.Idle, DC.Busy(req, DC.AwaitHeader), [], 0)
  }

  function Headed(req: DC.Request): DC.Channel {
    var log := [DC.Header(req.id, 0, [])];
    DC.Channel(true, [], log, DC.Streaming(req, []), DC.Busy(req, DC.AwaitHeader), log, 0)
  }

  lemma Exchange(world: DC.World, req: DC.Request)
    requires world.sizes == map[] && world.digests == map[]
    ensures DC.Apply(world, DC.FRESH_CHANNEL, DC.Ask(req)) == Asked(req)
    ensures DC.Apply(world, DC.Apply(world, Asked(req), DC.Take), DC.SendHeader) == Headed(req)
    ensures DC.Apply(world, Headed(req), DC.Finish) == Ready(req, world.hash)
  {
  }

  /** A step of the channel that is neither a request nor a reception. */
  lemma OnChannel(su: Setup, s0: Session, done: seq<Step>, c: nat, st: DC.Step) returns (steps: seq<Step>)
    requires Runs(su, s0, done) && !st.Ask? && !st.Receive?
    requires var s := End(su, s0, done); c in s.chans && DC.Enabled(s.chans[c], st)
    ensures Runs(su, s0, steps)
    ensures var s := End(su, s0, done); End(su, s0, steps) == s.(chans := s.chans[c := DC.Apply(su.world, s.chans[c], st)])
  {
    steps := Go(su, s0, done, On(c, st, []));
  }

  lemma Requested(su: Setup, s0: Session, done: seq<Step>, c: nat) returns (steps: seq<Step>)
    requires Runs(su, s0, done)
    requires var s := End(su, s0, done); c !in s.chans && R.Fetches(s.r, c)
    requires su.world.sizes == map[] && su.world.digests == map[]
    ensures Runs(su, s0, steps)
    ensures var s := End(su, s0, done);
            var req := DC.Request(s.nextReq, s.r.c.held[c].fileID);
            End(su, s0, steps) == s.(chans := s.chans[c := Asked(req)], nextReq := s.nextReq + 1)
  {
    var s := End(su, s0, done);
    var req := DC.Request(s.nextReq, s.r.c.held[c].fileID);
    steps := Go(su, s0, done, Join(c));
    steps := Go(su, s0, steps, On(c, DC.Ask(req), []));
    Exchange(su.world, req);
    assert s.chans[c := DC.FRESH_CHANNEL][c := Asked(req)] == s.chans[c := Asked(req)];
  }

  /** The worker asks for the empty file it holds, and the servicer answers. */
  lemma Answered(su: Setup, s0: Session, done: seq<Step>, c: nat) returns (steps: seq<Step>)
    requires Runs(su, s0, done)
    requires var s := End(su, s0, done); c !in s.chans && R.Fetches(s.r, c)
    requires su.world.sizes == map[] && su.world.digests == map[]
    ensures Runs(su, s0, steps)
    ensures var s := End(su, s0, done);
            var req := DC.Request(s.nextReq, s.r.c.held[c].fileID);
            End(su, s0, steps) == s.(chans := s.chans[c := Ready(req, su.world.hash)], nextReq := s.nextReq + 1)
  {
    var s := End(su, s0, done);
    var req := DC.Request(s.nextReq, s.r.c.held[c].fileID);
    Exchange(su.world, req);
    steps := Requested(su, s0, done, c);
    steps := OnChannel(su, s0, steps, c, DC.Take);
    steps := OnChannel(su, s0, steps, c, DC.SendHeader);
    assert End(su, s0, steps).chans == s.chans[c := Headed(req)];
    steps := OnChannel(su, s0, steps, c, DC.Finish);
    assert End(su, s0, steps).chans == s.chans[c := Ready(req, su.world.hash)];
  }

  lemma HeaderTaken(su: Setup, s0: Session, done: seq<Step>, c: nat, req: DC.Request) returns (steps: seq<Step>)
    requires Runs(su, s0, done) && su.world.digests == map[]
    requires var s := End(su, s0, done); c in s.chans && s.chans[c] == Ready(req, su.world.hash)
    ensures Runs(su, s0, steps)
    ensures var s := End(su, s0, done);
            End(su, s0, steps) == s.(chans := s.chans[c := Filling(req, su.world.hash)], parts := s.parts[req.file := []])
  {
    steps := Go(su, s0, done, On(c, DC.Receive(DC.Works, false), []));
  }

  lemma MovedIntoPlace(su: Setup, s0: Session, done: seq<Step>, c: nat, req: DC.Request, io: DC.Local)
    returns (steps: seq<Step>)
    requires Runs(su, s0, done) && su.world.digests == map[] && !io.Fails?
    requires var s := End(su, s0, done);
             c in s.chans && s.chans[c] == Filling(req, su.world.hash) && req.file in s.parts && s.parts[req.file] == []
    ensures Runs(su, s0, steps)
    ensures var s, t := End(su, s0, done), End(su, s0, steps);
            && t.published == s.published + [Publication(req, [], io.Works?, [])]
            && t.r == (if io.Works? then Publishes(su, s.r, c) else s.r)
            && t.lapsed == (if io.Works? then s.lapsed else s.lapsed + {c}) && t.swallowed == s.swallowed
            && t.chans.Keys == s.chans.Keys && !t.chans[c].worker.Busy?
  {
    NoBody(req, su.world.hash);
    steps := Go(su, s0, done, On(c, DC.Receive(io, false), []));
  }

  /** The worker takes the header and moves the empty file into place. */
  lemma Fetched(su: Setup, s0: Session, done: seq<Step>, c: nat, io: DC.Local) returns (steps: seq<Step>)
    requires Runs(su, s0, done) && !io.Fails?
    requires var s := End(su, s0, done); c !in s.chans && R.Fetches(s.r, c)
    requires su.world.sizes == map[] && su.world.digests == map[]
    ensures Runs(su, s0, steps)
    ensures var s, t := End(su, s0, done), End(su, s0, steps);
            var req := DC.Request(s.nextReq, s.r.c.held[c].fileID);
            && t.published == s.published + [Publication(req, [], io.Works?, [])]
            && t.r == (if io.Works? then Publishes(su, s.r, c) else s.r)
            && t.lapsed == (if io.Works? then s.lapsed else s.lapsed + {c}) && t.swallowed == s.swallowed
            && t.chans.Keys == s.chans.Keys + {c} && !t.chans[c].worker.Busy?
  {
    var s := End(su, s0, done);
    var req := DC.Request(s.nextReq, s.r.c.held[c].fileID);
    steps := Answered(su, s0, done, c);
    steps := HeaderTaken(su, s0, steps, c, req);
    steps := MovedIntoPlace(su, s0, steps, c, req, io);
  }

  // ---- the session ---------------------------------------------------------

  const ONE_FILE := R.Plan(map[0 := R.Entry(None, "a", 0)], map[0 := [0]])

  function TwoWorkers(hash: seq<byte> -> seq<byte>): Setup {
    Setup(QC.Config(0, 1, {0, 1}), ONE_FILE, DC.World(map[], map[], hash))
  }

  /** A step of the decide worker. */
  lemma Decides(su: Setup, s0: Session, done: seq<Step>, move: R.Step) returns (steps: seq<Step>)
    requires Runs(su, s0, done) && (move.StartGroup? || move.Begin? || move.NeedContent?)
    requires var s := End(su, s0, done); |s.r.c.history| == |s.r.c.tries| && R.Enabled(su.cfg, su.plan, s.r, move)
    ensures Runs(su, s0, steps)
    ensures var s := End(su, s0, done); End(su, s0, steps) == s.(r := R.Apply(su.cfg, su.plan, s.r, move))
  {
    steps := Go(su, s0, done, Account(move));
  }

  lemma Deciding(cfg: QC.Config, r: R.State)
    requires r == R.Init(cfg, ONE_FILE)
    ensures R.Enabled(cfg, ONE_FILE, r, R.StartGroup(0, 0))
    ensures var t := R.Apply(cfg, ONE_FILE, r, R.StartGroup(0, 0));
            && t.c == r.c && t.fetch == map[] && t.decide == map[0 := R.Decider(0, [0], [], R.Between([]), "")]
  {
  }

  lemma Beginning(cfg: QC.Config, r: R.State)
    requires r.c == QC.Init(cfg) && r.fetch == map[] && r.decide == map[0 := R.Decider(0, [0], [], R.Between([]), "")]
    ensures R.Enabled(cfg, ONE_FILE, r, R.Begin(0))
    ensures var t := R.Apply(cfg, ONE_FILE, r, R.Begin(0));
            && t.c == r.c && t.fetch == map[] && t.decide == map[0 := R.Decider(0, [], [], R.Content(0, false), "")]
  {
    assert R.Apply(cfg, ONE_FILE, r, R.Begin(0)).decide[0] == R.Decider(0, [], [], R.Content(0, false), "");
  }

  lemma Needing(cfg: QC.Config, r: R.State)
    requires r.c == QC.Init(cfg) && r.fetch == map[] && r.decide == map[0 := R.Decider(0, [], [], R.Content(0, false), "")]
    ensures R.Enabled(cfg, ONE_FILE, r, R.NeedContent(0))
    ensures var t := R.Apply(cfg, ONE_FILE, r, R.NeedContent(0));
            && t.c == r.c && t.fetch == map[] && t.decide == map[0 := R.Decider(0, [], [0], R.Between([]), "")]
  {
    assert R.Apply(cfg, ONE_FILE, r, R.NeedContent(0)).decide[0] == R.Decider(0, [], [0], R.Between([]), "");
  }

  /** Worker 0 has decided that the only file of its group is needed. */
  lemma Needed(su: Setup) returns (steps: seq<Step>)
    requires su.cfg == QC.Config(0, 1, {0, 1}) && su.plan == ONE_FILE
    ensures Runs(su, Start(su), steps)
    ensures var s := End(su, Start(su), steps);
            && s == Start(su).(r := s.r) && s.r.c == QC.Init(su.cfg) && s.r.fetch == map[]
            && s.r.decide == map[0 := R.Decider(0, [], [0], R.Between([]), "")]
  {
    var s := Start(su);
    steps := [];
    assert Runs(su, s, steps) && End(su, s, steps) == s;
    Deciding(su.cfg, s.r);
    steps := Decides(su, s, steps, R.StartGroup(0, 0));
    Beginning(su.cfg, End(su, s, steps).r);
    steps := Decides(su, s, steps, R.Begin(0));
    Needing(su.cfg, End(su, s, steps).r);
    steps := Decides(su, s, steps, R.NeedContent(0));
  }

  lemma OneItem(it: NQ.NeedItem)
    ensures NQ.LargestFirst([it]) == [it]
  {
    NQ.LargestFirstFacts([it], 0);
    var r := NQ.LargestFirst([it]);
    assert r[0] in multiset(r);
  }

  /** Worker 0 pushes the group, and a worker pops its file. */
  lemma Pushed(su: Setup, s0: Session, done: seq<Step>) returns (steps: seq<Step>)
    requires su.cfg == QC.Config(0, 1, {0, 1}) && su.plan == ONE_FILE && Runs(su, s0, done)
    requires var s := End(su, s0, done);
             && s.r.c == QC.Init(su.cfg) && s.r.decide == map[0 := R.Decider(0, [], [0], R.Between([]), "")]
    ensures Runs(su, s0, steps)
    ensures var s, t := End(su, s0, done), End(su, s0, steps);
            && t == s.(r := t.r) && t.r.fetch == s.r.fetch && t.r.c.held == map[]
            && |t.r.c.q.items| == 1 && t.r.c.q.items[0].fileID == 0 && |t.r.c.history| == |t.r.c.tries|
  {
    var items := R.ItemsOf(su.plan, 0, [0]);
    OneItem(items[0]);
    assert items == [items[0]];
    steps := Go(su, s0, done, Account(R.EndGroup(0)));
  }

  lemma Taken(su: Setup, s0: Session, done: seq<Step>, w: nat) returns (steps: seq<Step>)
    requires su.cfg == QC.Config(0, 1, {0, 1}) && w < 2 && Runs(su, s0, done)
    requires var s := End(su, s0, done);
             && s.r.fetch == map[] && s.r.c.held == map[] && |s.r.c.q.items| == 1 && s.r.c.q.items[0].fileID == 0
             && |s.r.c.history| == |s.r.c.tries|
    ensures Runs(su, s0, steps)
    ensures var s, t := End(su, s0, done), End(su, s0, steps);
            && t == s.(r := t.r) && t.r.fetch == map[w := R.Fetching] && t.r.c.held.Keys == {w}
            && t.r.c.held[w].fileID == 0 && t.r.c.q.items == [] && |t.r.c.history| == |t.r.c.tries|
  {
    steps := Go(su, s0, done, Account(R.PopItem(w)));
  }

  /** The cancelled worker returns the file it has published. */
  lemma Returned(su: Setup, s0: Session, done: seq<Step>) returns (steps: seq<Step>)
    requires Runs(su, s0, done)
    requires var s := End(su, s0, done);
             && s.r.fetch == map[0 := R.Fetching] && s.r.c.held.Keys == {0} && s.r.c.held[0].fileID == 0
             && s.r.c.q.items == [] && |s.r.c.history| == |s.r.c.tries|
             && !Asking(s, 0) && 0 in s.lapsed
    ensures Runs(su, s0, steps)
    ensures var s, t := End(su, s0, done), End(su, s0, steps);
            && t == s.(r := t.r, lapsed := s.lapsed - {0}, swallowed := s.swallowed + {0})
            && t.r.fetch == map[] && t.r.c.held == map[]
            && |t.r.c.q.items| == 1 && t.r.c.q.items[0].fileID == 0 && |t.r.c.history| == |t.r.c.tries|
  {
    steps := Go(su, s0, done, Account(R.ReturnItem(0)));
  }

  lemma TwiceFrom(su: Setup, s0: Session, done: seq<Step>) returns (steps: seq<Step>)
    requires su.cfg == QC.Config(0, 1, {0, 1}) && Runs(su, s0, done)
    requires su.world.sizes == map[] && su.world.digests == map[]
    requires var s := End(su, s0, done);
             && s == s0.(r := s.r) && s.chans == map[] && s.published == [] && s.lapsed == s.swallowed == {}
             && s.r.fetch == map[] && s.r.c.held == map[] && |s.r.c.q.items| == 1 && s.r.c.q.items[0].fileID == 0
             && |s.r.c.history| == |s.r.c.tries|
    ensures Runs(su, s0, steps)
    ensures var s := End(su, s0, steps);
            && |s.published| == 2 && s.published[0].req.file == s.published[1].req.file
            && !s.published[0].recorded && s.published[1].recorded && s.swallowed == {0} && s.lapsed == {}
  {
    steps := Taken(su, s0, done, 0);
    steps := Fetched(su, s0, steps, 0, DC.Unrecorded);
    steps := Returned(su, s0, steps);
    steps := Taken(su, s0, steps, 1);
    steps := Fetched(su, s0, steps, 1, DC.Works);
  }

  lemma OneFileWellFormed()
    ensures ONE_FILE.WellFormed()
  {
  }

  /** The journal refuses the record of a file that worker 0 has moved into place; worker
      0, cancelled, returns it, and worker 1 publishes it again: the error is gone, and
      the accounting counts the file once. */
  lemma PublishedTwice(hash: seq<byte> -> seq<byte>) returns (steps: seq<Step>)
    ensures ONE_FILE.WellFormed() && Runs(TwoWorkers(hash), Start(TwoWorkers(hash)), steps)
    ensures var s := End(TwoWorkers(hash), Start(TwoWorkers(hash)), steps);
            && |s.published| == 2 && s.published[0].req.file == s.published[1].req.file
            && !s.published[0].recorded && s.published[1].recorded
            && !OneEach(s.published) && s.swallowed == {0} && s.lapsed == {}
  {
    var su := TwoWorkers(hash);
    OneFileWellFormed();
    steps := Needed(su);
    steps := Pushed(su, Start(su), steps);
    steps := TwiceFrom(su, Start(su), steps);
  }
}
