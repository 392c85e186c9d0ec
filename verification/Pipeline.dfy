/** The whole of a session's accounting: the exchange of manifests, decisions and credits
    joined with the receiver's decide and fetch workers (internal/receiver/run.go lines
    576-743, internal/receiver/decide.go lines 227-362).

    A decide worker takes a manifest off the channel and starts its group; it decides
    every entry, sends GROUP_DECISION, pushes what is needed and gives the credit back.
    The need queue is closed once every decide worker has returned.  A run covers a
    session up to its first fatal error. */
module Pipeline {
  import opened Bytes
  import opened Finite
  import C = Credit
  import R = Receiver
  import RT = ReceiverTaking
  import RK = ReceiverRank
  import RR = ReceiverRuns
  import RD = ReceiverDrain
  import QC = QueueClients

  /** `workers` is the number of decide workers. */
  datatype Setup = Setup(cfg: QC.Config, plan: R.Plan, credit: C.Setup, workers: nat) {
    /** The groups are numbered from 0, and their count travels as it is. */
    ghost predicate Valid() {
      plan.WellFormed() && plan.groups.Keys == Below(credit.groups) && credit.groups < U32
    }
  }

  datatype State = State(c: C.State, r: R.State)

  datatype Step =
    | Control(step: C.Step)   // the sender, the control channel, the control reader, a credit given back
    | Take(w: nat)            // a worker takes the next manifest and starts its group
    | Announce(w: nat)        // GROUP_DECISION
    | Push(w: nat)            // pushGroup
    | Work(move: R.Step)      // everything else the workers do

  function Start(su: Setup): State { State(C.Start(su.credit, su.workers), R.Init(su.cfg, su.plan)) }

  ghost predicate Deciding(r: R.State, g: nat) { exists w :: w in r.decide && r.decide[w].group == g }

  predicate Decided(r: R.State, w: nat) {
    w in r.decide && r.decide[w].pc == R.Between([]) && r.decide[w].todo == []
  }

  /** Every decide worker has left its loop over the manifest channel. */
  predicate AllReturned(c: C.State) { c.reader.closed && c.reader.manifests == [] && c.pool.held == map[] }

  ghost predicate Enabled(su: Setup, s: State, step: Step) {
    && |s.r.c.history| == |s.r.c.tries|
    && match step
       case Control(st) =>
         && C.Enabled(su.credit, s.c, st)
         && (st.SendScan? || st.Acquire? || st.Publish? || st.ReaderTakes? || st.SenderTakes?
             || (st.GiveBack? && !Deciding(s.r, st.group)))
       case Take(w) =>
         && C.Enabled(su.credit, s.c, C.WorkerTakes)
         && R.Enabled(su.cfg, su.plan, s.r, R.StartGroup(w, s.c.reader.manifests[0]))
       case Announce(w) => Decided(s.r, w) && C.Enabled(su.credit, s.c, C.Decide(s.r.decide[w].group))
       case Push(w) =>
         && R.Enabled(su.cfg, su.plan, s.r, R.EndGroup(w))
         && C.Holds(s.c.pool, s.r.decide[w].group, C.Decided)
       case Work(move) =>
         && R.Enabled(su.cfg, su.plan, s.r, move) && !move.StartGroup? && !move.EndGroup?
         && (move.CloseQueue? ==> AllReturned(s.c))
  }

  ghost function Apply(su: Setup, s: State, step: Step): State
    requires Enabled(su, s, step)
  {
    match step
    case Control(st) => s.(c := C.Apply(su.credit, s.c, st))
    case Take(w) =>
      State(C.Apply(su.credit, s.c, C.WorkerTakes),
            R.Apply(su.cfg, su.plan, s.r, R.StartGroup(w, s.c.reader.manifests[0])))
    case Announce(w) => s.(c := C.Apply(su.credit, s.c, C.Decide(s.r.decide[w].group)))
    case Push(w) => s.(r := R.Apply(su.cfg, su.plan, s.r, R.EndGroup(w)))
    case Work(move) => s.(r := R.Apply(su.cfg, su.plan, s.r, move))
  }

  ghost predicate Runs(su: Setup, s: State, steps: seq<Step>)
    decreases |steps|
  {
    steps == [] || (Enabled(su, s, steps[0]) && Runs(su, Apply(su, s, steps[0]), steps[1..]))
  }

  ghost function End(su: Setup, s: State, steps: seq<Step>): State
    requires Runs(su, s, steps)
    decreases |steps|
  {
    if steps == [] then s else End(su, Apply(su, s, steps[0]), steps[1..])
  }

  // ---- the invariant -------------------------------------------------------

  /** The groups started are those taken off the manifest channel; a group being decided
      is in a worker's hands, and one in hand without its decision is being decided; and
      the queue is closed only once every worker has returned. */
  ghost predicate Joined(s: State) {
    && s.c.reader.running && s.c.pool.dropped == {}
    && (forall g: nat :: g in s.r.started <==> g < C.Taken(s.c.reader))
    && (forall w :: w in s.r.decide ==> s.r.decide[w].group in s.c.pool.held)
    && (forall g :: C.Holds(s.c.pool, g, C.Deciding) ==> Deciding(s.r, g))
    && (s.r.c.q.closed ==> AllReturned(s.c))
  }

  ghost predicate Inv(su: Setup, s: State) {
    && su.Valid()
    && C.Inv(su.credit, s.c) && s.c.pool.workers == su.workers
    && R.Inv(su.cfg, su.plan, s.r) && RD.Loads(su.plan, s.r)
    && Joined(s)
  }

  // ---- every step keeps it -------------------------------------------------

  /** Work inside groups neither takes up nor ends one. */
  ghost predicate SameGroups(r: R.State, r': R.State) {
    && r'.started == r.started && r'.decide.Keys == r.decide.Keys
    && (forall w :: w in r.decide ==> r'.decide[w].group == r.decide[w].group)
    && r'.c.q.closed == r.c.q.closed
  }

  lemma EntryGroups(su: Setup, r: R.State, move: R.Step)
    requires |r.c.history| == |r.c.tries| && R.Enabled(su.cfg, su.plan, r, move)
    requires move.Reject? || move.SkipJournalled? || move.Begin? || move.SeekPath? || move.LinkMade?
             || move.LinkRefused? || move.TakeOver? || move.ClaimOrLead?
    ensures SameGroups(r, R.Apply(su.cfg, su.plan, r, move))
  {
  }

  lemma WokenGroups(su: Setup, r: R.State, move: R.Step)
    requires |r.c.history| == |r.c.tries| && R.Enabled(su.cfg, su.plan, r, move)
    requires move.OrphanFallsBack? || move.DecideLinks?
    ensures SameGroups(r, R.Apply(su.cfg, su.plan, r, move))
  {
  }

  lemma ContentGroups(su: Setup, r: R.State, move: R.Step)
    requires |r.c.history| == |r.c.tries| && R.Enabled(su.cfg, su.plan, r, move)
    requires move.NeedContent? || move.ContentMatches?
    ensures SameGroups(r, R.Apply(su.cfg, su.plan, r, move))
  {
  }

  lemma FetchGroups(su: Setup, r: R.State, move: R.Step)
    requires |r.c.history| == |r.c.tries| && R.Enabled(su.cfg, su.plan, r, move) && RT.ByFetch(move)
    ensures SameGroups(r, R.Apply(su.cfg, su.plan, r, move))
  {
    RD.FetchSame(su.cfg, su.plan, r, move);
  }

  lemma WorkGroups(su: Setup, r: R.State, move: R.Step)
    requires |r.c.history| == |r.c.tries| && R.Enabled(su.cfg, su.plan, r, move) && !move.StartGroup? && !move.EndGroup?
    requires !move.CloseQueue?
    ensures SameGroups(r, R.Apply(su.cfg, su.plan, r, move))
  {
    if RT.ByFetch(move) {
      FetchGroups(su, r, move);
    } else if move.OrphanFallsBack? || move.DecideLinks? {
      WokenGroups(su, r, move);
    } else if move.NeedContent? || move.ContentMatches? {
      ContentGroups(su, r, move);
    } else {
      EntryGroups(su, r, move);
    }
  }

  /** A closed queue means that every manifest has been read. */
  lemma NothingToRead(su: Setup, c: C.State)
    requires C.Pipes(su.credit, c.sender, c.down, c.reader) && c.reader.running && c.reader.closed && su.credit.groups < U32
    ensures c.down == []
  {
  }

  lemma ControlJoined(su: Setup, s: State, st: C.Step)
    requires C.Pipes(su.credit, s.c.sender, s.c.down, s.c.reader) && su.credit.groups < U32
    requires Joined(s) && Enabled(su, s, Control(st))
    ensures Joined(Apply(su, s, Control(st)))
  {
    if s.c.reader.closed {
      NothingToRead(su, s.c);
    }
  }

  lemma Takes(su: Setup, r: R.State, w: nat, g: nat)
    requires |r.c.history| == |r.c.tries| && R.Enabled(su.cfg, su.plan, r, R.StartGroup(w, g))
    ensures var r' := R.Apply(su.cfg, su.plan, r, R.StartGroup(w, g));
            && r'.started == r.started + {g} && !r'.c.q.closed
            && w !in r.decide && w in r'.decide && r'.decide[w].group == g
            && r'.decide.Keys == r.decide.Keys + {w} && (forall v :: v in r.decide ==> r'.decide[v] == r.decide[v])
  {
  }

  lemma TakenDecides(s: State, s': State, w: nat, g: nat, h: nat)
    requires C.Holds(s.c.pool, h, C.Deciding) ==> Deciding(s.r, h)
    requires s'.c.pool.held == s.c.pool.held[g := C.Deciding] && w in s'.r.decide && s'.r.decide[w].group == g
    requires forall v :: v in s.r.decide ==> v in s'.r.decide && s'.r.decide[v] == s.r.decide[v]
    ensures C.Holds(s'.c.pool, h, C.Deciding) ==> Deciding(s'.r, h)
  {
    if h != g && C.Holds(s'.c.pool, h, C.Deciding) {
      assert C.Holds(s.c.pool, h, C.Deciding);
      var v :| v in s.r.decide && s.r.decide[v].group == h;
      assert v in s'.r.decide && s'.r.decide[v].group == h;
    }
  }

  lemma ManifestLeaves(su: Setup, c: C.State)
    requires C.Enabled(su.credit, c, C.WorkerTakes)
    ensures var c' := C.Apply(su.credit, c, C.WorkerTakes);
            && c'.reader == c.reader.(manifests := c.reader.manifests[1..]) && c'.pool.dropped == c.pool.dropped
            && c'.pool.held == c.pool.held[c.reader.manifests[0] := C.Deciding]
  {
  }

  lemma TakenJoins(s: State, s': State, w: nat, g: nat)
    requires Joined(s) && s.c.reader.manifests != [] && g == C.Taken(s.c.reader)
    requires s'.c.reader == s.c.reader.(manifests := s.c.reader.manifests[1..]) && s'.c.pool.dropped == s.c.pool.dropped
    requires s'.c.pool.held == s.c.pool.held[g := C.Deciding]
    requires s'.r.started == s.r.started + {g} && !s'.r.c.q.closed && w in s'.r.decide && s'.r.decide[w].group == g
    requires s'.r.decide.Keys == s.r.decide.Keys + {w}
    requires forall v :: v in s.r.decide ==> s'.r.decide[v] == s.r.decide[v]
    ensures Joined(s')
  {
    forall h | C.Holds(s'.c.pool, h, C.Deciding)
      ensures Deciding(s'.r, h)
    {
      TakenDecides(s, s', w, g, h);
    }
  }

  lemma TakeJoined(su: Setup, s: State, w: nat)
    requires C.Pipes(su.credit, s.c.sender, s.c.down, s.c.reader) && Joined(s) && Enabled(su, s, Take(w))
    ensures Joined(Apply(su, s, Take(w)))
  {
    var g := s.c.reader.manifests[0];
    C.NextTaken(su.credit, s.c);
    ManifestLeaves(su, s.c);
    Takes(su, s.r, w, g);
    TakenJoins(s, Apply(su, s, Take(w)), w, g);
  }

  lemma AnnounceJoined(su: Setup, s: State, w: nat)
    requires Joined(s) && Enabled(su, s, Announce(w))
    ensures Joined(Apply(su, s, Announce(w)))
  {
    var s' := Apply(su, s, Announce(w));
    forall h | C.Holds(s'.c.pool, h, C.Deciding)
      ensures Deciding(s'.r, h)
    {
      assert C.Holds(s.c.pool, h, C.Deciding);
    }
  }

  lemma Leaves(su: Setup, r: R.State, w: nat)
    requires |r.c.history| == |r.c.tries| && R.Enabled(su.cfg, su.plan, r, R.EndGroup(w))
    ensures var r' := R.Apply(su.cfg, su.plan, r, R.EndGroup(w));
            && r'.decide == r.decide - {w} && r'.started == r.started && r'.c.q.closed == r.c.q.closed
  {
  }

  lemma PushJoined(su: Setup, s: State, w: nat)
    requires Joined(s) && Enabled(su, s, Push(w))
    ensures Joined(Apply(su, s, Push(w)))
  {
    var s' := Apply(su, s, Push(w));
    Leaves(su, s.r, w);
    forall h | C.Holds(s'.c.pool, h, C.Deciding)
      ensures Deciding(s'.r, h)
    {
      assert C.Holds(s.c.pool, h, C.Deciding);
      var v :| v in s.r.decide && s.r.decide[v].group == h;
      assert v in s'.r.decide && s'.r.decide[v].group == h;
    }
  }

  lemma WorkJoined(su: Setup, s: State, move: R.Step)
    requires Joined(s) && Enabled(su, s, Work(move))
    ensures Joined(Apply(su, s, Work(move)))
  {
    var s' := Apply(su, s, Work(move));
    if !move.CloseQueue? {
      WorkGroups(su, s.r, move);
    }
    forall h | C.Holds(s'.c.pool, h, C.Deciding)
      ensures Deciding(s'.r, h)
    {
      assert C.Holds(s.c.pool, h, C.Deciding);
      var v :| v in s.r.decide && s.r.decide[v].group == h;
      assert v in s'.r.decide && s'.r.decide[v].group == h;
    }
  }

  lemma JoinedKept(su: Setup, s: State, step: Step)
    requires Inv(su, s) && Enabled(su, s, step)
    ensures Joined(Apply(su, s, step))
  {
    match step
    case Control(st) => ControlJoined(su, s, st);
    case Take(w) => TakeJoined(su, s, w);
    case Announce(w) => AnnounceJoined(su, s, w);
    case Push(w) => PushJoined(su, s, w);
    case Work(move) => WorkJoined(su, s, move);
  }

  /** The moves of the two machines that a step makes. */
  function ControlMove(s: State, step: Step): seq<C.Step>
    requires step.Announce? ==> step.w in s.r.decide
  {
    match step
    case Control(st) => [st]
    case Take(w) => [C.WorkerTakes]
    case Announce(w) => [C.Decide(s.r.decide[w].group)]
    case _ => []
  }

  function WorkMove(s: State, step: Step): seq<R.Step>
    requires step.Take? ==> s.c.reader.manifests != []
  {
    match step
    case Take(w) => [R.StartGroup(w, s.c.reader.manifests[0])]
    case Push(w) => [R.EndGroup(w)]
    case Work(move) => [move]
    case _ => []
  }

  /** A step of the session is a step of one machine or of both. */
  lemma StepIsBoth(su: Setup, s: State, step: Step)
    requires Enabled(su, s, step)
    ensures var ms := ControlMove(s, step);
            if ms == [] then Apply(su, s, step).c == s.c
            else C.Enabled(su.credit, s.c, ms[0]) && Apply(su, s, step).c == C.Apply(su.credit, s.c, ms[0])
    ensures var ms := WorkMove(s, step);
            if ms == [] then Apply(su, s, step).r == s.r
            else R.Enabled(su.cfg, su.plan, s.r, ms[0]) && Apply(su, s, step).r == R.Apply(su.cfg, su.plan, s.r, ms[0])
    ensures ControlMove(s, step) != [] || WorkMove(s, step) != []
  {
  }

  lemma ControlKept(su: Setup, s: State, step: Step)
    requires C.Inv(su.credit, s.c) && s.c.pool.workers == su.workers && Enabled(su, s, step)
    ensures C.Inv(su.credit, Apply(su, s, step).c) && Apply(su, s, step).c.pool.workers == su.workers
  {
    StepIsBoth(su, s, step);
    if ControlMove(s, step) != [] {
      C.StepKeeps(su.credit, s.c, ControlMove(s, step)[0]);
    }
  }

  lemma WorkKept(su: Setup, s: State, step: Step)
    requires su.Valid() && R.Inv(su.cfg, su.plan, s.r) && RD.Loads(su.plan, s.r) && Enabled(su, s, step)
    ensures R.Inv(su.cfg, su.plan, Apply(su, s, step).r) && RD.Loads(su.plan, Apply(su, s, step).r)
  {
    StepIsBoth(su, s, step);
    if WorkMove(s, step) != [] {
      RR.StepKeeps(su.cfg, su.plan, s.r, WorkMove(s, step)[0]);
      RD.LoadsKept(su.cfg, su.plan, s.r, WorkMove(s, step)[0]);
    }
  }

  lemma StepKeeps(su: Setup, s: State, step: Step)
    requires Inv(su, s) && Enabled(su, s, step)
    ensures Inv(su, Apply(su, s, step))
  {
    ControlKept(su, s, step);
    WorkKept(su, s, step);
    JoinedKept(su, s, step);
  }

  lemma {:induction false} RunKeeps(su: Setup, s: State, steps: seq<Step>)
    requires Inv(su, s) && Runs(su, s, steps)
    ensures Inv(su, End(su, s, steps))
    decreases |steps|
  {
    if steps != [] {
      StepKeeps(su, s, steps[0]);
      RunKeeps(su, Apply(su, s, steps[0]), steps[1..]);
    }
  }

  lemma StartJoined(su: Setup)
    ensures Joined(Start(su)) && RD.Loads(su.plan, Start(su).r)
    ensures C.Inv(su.credit, Start(su).c)
  {
  }

  lemma StartInv(su: Setup)
    requires su.Valid()
    ensures Inv(su, Start(su))
  {
    StartJoined(su);
    RR.InitInv(su.cfg, su.plan);
  }

  // ---- theorems ------------------------------------------------------------

  /** Every file of every planned group has one of the five outcomes. */
  ghost predicate AllSettled(su: Setup, r: R.State) {
    forall g, f :: g in su.plan.groups && f in su.plan.groups[g] ==> f in r.place && r.place[f].Outcome()
  }

  lemma DrainedPool(su: Setup, s: State)
    requires C.Inv(su.credit, s.c) && su.credit.groups < U32 && Joined(s) && s.r.c.q.closed
    ensures C.PoolDone(s.c) && C.Taken(s.c.reader) == su.credit.groups
  {
  }

  lemma DrainedHere(su: Setup, s: State)
    requires Inv(su, s) && s.r.c.q.Drained()
    ensures C.PoolDone(s.c) && AllSettled(su, s.r)
  {
    DrainedPool(su, s);
    RR.DrainedSettles(su.cfg, su.plan, s.r);
    TakenSettled(su, s.r);
  }

  lemma TakenSettled(su: Setup, r: R.State)
    requires R.TakenUp(su.plan, r) && (forall g :: g in su.plan.groups ==> g in r.started)
    requires forall f :: f in r.place ==> r.place[f] == R.Undecided || r.place[f].Outcome()
    ensures AllSettled(su, r)
  {
  }

  /** When the queue has drained, the decide pool is done, with every planned group
      decided and credited exactly once, and every file of every planned group has
      exactly one outcome. */
  lemma DrainedMeansAllSettled(su: Setup, steps: seq<Step>)
    requires su.Valid() && Runs(su, Start(su), steps)
    ensures var s := End(su, Start(su), steps);
            s.r.c.q.Drained() ==>
              && C.PoolDone(s.c) && |s.c.pool.decisions| == su.credit.groups && C.EachDecided(su.credit, s.c.pool)
              && AllSettled(su, s.r)
  {
    var s := End(su, Start(su), steps);
    StartInv(su);
    RunKeeps(su, Start(su), steps);
    if s.r.c.q.Drained() {
      DrainedHere(su, s);
      C.EveryoneDecided(su.credit, s.c);
    }
  }

  // ---- progress ------------------------------------------------------------

  /** There are decide and fetch workers, every group fits the queue, and the receiver's
      credit setting grants something. */
  ghost predicate Workable(su: Setup) {
    RD.Workable(su.cfg, su.plan) && su.workers > 0 && su.credit.Initial() > 0
  }

  /** With no group being decided, a worker gives credit back or takes a manifest. */
  lemma CreditCanGo(su: Setup, s: State) returns (g: nat)
    requires Joined(s) && |s.r.c.history| == |s.r.c.tries| && s.r.decide == map[] && s.c.pool.held.Keys != {}
    ensures Enabled(su, s, Control(C.GiveBack(g)))
  {
    g :| g in s.c.pool.held.Keys;
    assert !C.Holds(s.c.pool, g, C.Deciding);
  }

  /** A free worker starts whatever group it takes off the channel: it is planned, it has
      not been started, and the queue is open. */
  lemma TakeNeverRefused(su: Setup, s: State, w: nat)
    requires C.Pipes(su.credit, s.c.sender, s.c.down, s.c.reader) && su.plan.groups.Keys == Below(su.credit.groups)
    requires Joined(s) && |s.r.c.history| == |s.r.c.tries|
    requires C.Enabled(su.credit, s.c, C.WorkerTakes) && w !in s.r.decide
    ensures Enabled(su, s, Take(w))
  {
    C.NextTaken(su.credit, s.c);
    assert s.c.reader.manifests[0] in su.plan.groups.Keys;
  }

  lemma CloseCanGo(su: Setup, s: State)
    requires C.Pipes(su.credit, s.c.sender, s.c.down, s.c.reader) && su.credit.groups < U32 && Joined(s)
    requires |s.r.c.history| == |s.r.c.tries| && s.r.decide == map[] && !s.r.c.q.closed
    requires s.c.sender.scanned && s.c.down == [] && s.c.sender.published >= su.credit.groups
    requires s.c.pool.held.Keys == {} && s.c.reader.manifests == []
    ensures Enabled(su, s, Work(R.CloseQueue))
  {
    assert s.c.reader.closed;
    assert s.c.pool.held == map[];
  }

  /** With nothing in anyone's hands, the publisher goes on while there are groups. */
  lemma PublisherCanGo(su: Setup, s: State)
    requires C.Inv(su.credit, s.c) && su.credit.Initial() > 0 && s.c.pool.dropped == {}
    requires s.c.sender.scanned && s.c.down == [] && s.c.up == [] && !s.c.sender.acquired
    requires s.c.pool.held.Keys == {} && s.c.reader.manifests == [] && s.c.sender.published < su.credit.groups
    ensures C.Enabled(su.credit, s.c, C.Acquire)
  {
  }

  /** With no group being decided, the exchange goes on, or the queue can be closed. */
  lemma ControlCanGo(su: Setup, s: State) returns (step: Step)
    requires su.Valid() && C.Inv(su.credit, s.c) && s.c.pool.workers == su.workers && Joined(s)
    requires |s.r.c.history| == |s.r.c.tries| && s.r.decide == map[] && !s.r.c.q.closed
    requires su.workers > 0 && su.credit.Initial() > 0
    ensures Enabled(su, s, step) && !Returns(step)
  {
    if !s.c.sender.scanned {
      step := Control(C.SendScan);
    } else if s.c.down != [] {
      C.WithinGrant(su.credit, s.c);
      C.ReaderReady(su.credit, s.c);
      step := Control(C.ReaderTakes);
    } else if s.c.sender.acquired {
      step := Control(C.Publish);
    } else if s.c.up != [] {
      step := Control(C.SenderTakes);
    } else {
      step := IdleCanGo(su, s);
    }
  }

  lemma IdleCanGo(su: Setup, s: State) returns (step: Step)
    requires su.Valid() && C.Inv(su.credit, s.c) && s.c.pool.workers == su.workers && Joined(s)
    requires |s.r.c.history| == |s.r.c.tries| && s.r.decide == map[] && !s.r.c.q.closed
    requires su.workers > 0 && su.credit.Initial() > 0
    requires s.c.sender.scanned && s.c.down == [] && s.c.up == [] && !s.c.sender.acquired
    ensures Enabled(su, s, step) && !Returns(step)
  {
    if s.c.pool.held.Keys != {} {
      var g := CreditCanGo(su, s);
      step := Control(C.GiveBack(g));
    } else if s.c.reader.manifests != [] {
      assert |s.c.pool.held| == |s.c.pool.held.Keys|;
      TakeNeverRefused(su, s, 0);
      step := Take(0);
    } else if s.c.sender.published < su.credit.groups {
      PublisherCanGo(su, s);
      step := Control(C.Acquire);
    } else {
      CloseCanGo(su, s);
      step := Work(R.CloseQueue);
    }
  }

  /** A worker at the end of its group sends its decision, or pushes what is needed. */
  lemma EndCanGo(su: Setup, s: State, w: nat) returns (step: Step)
    requires Joined(s) && |s.r.c.history| == |s.r.c.tries| && R.Enabled(su.cfg, su.plan, s.r, R.EndGroup(w))
    ensures Enabled(su, s, step) && !step.Work?
  {
    var g := s.r.decide[w].group;
    assert g in s.c.pool.held;
    step := if s.c.pool.held[g] == C.Decided then Push(w) else Announce(w);
  }

  predicate Returns(step: Step) { step.Work? && step.move.ReturnItem? }

  /** A state that has not drained has a step other than an uncharged requeue. */
  lemma NextStep(su: Setup, s: State) returns (step: Step)
    requires Inv(su, s) && Workable(su) && !s.r.c.q.Drained()
    ensures Enabled(su, s, step) && !Returns(step)
  {
    var move := RD.NextStep(su.cfg, su.plan, s.r);
    if move.CloseQueue? {
      step := ControlCanGo(su, s);
    } else if move.EndGroup? {
      step := EndCanGo(su, s, move.w);
    } else {
      step := Work(move);
    }
  }

  /** A session that can go no further has drained: every planned group was decided and
      every file of it has its outcome. */
  lemma StoppedMeansAllSettled(su: Setup, steps: seq<Step>)
    requires su.Valid() && Runs(su, Start(su), steps) && Workable(su)
    requires forall step :: Enabled(su, End(su, Start(su), steps), step) ==> Returns(step)
    ensures var s := End(su, Start(su), steps); s.r.c.q.Drained() && AllSettled(su, s.r)
  {
    var s := End(su, Start(su), steps);
    StartInv(su);
    RunKeeps(su, Start(su), steps);
    if !s.r.c.q.Drained() {
      var step := NextStep(su, s);
    }
    DrainedHere(su, s);
  }

  // ---- termination ---------------------------------------------------------

  function ReturnsIn(steps: seq<Step>): nat {
    if steps == [] then 0 else (if Returns(steps[0]) then 1 else 0) + ReturnsIn(steps[1..])
  }

  /** What is left of the receiver's work, less what the exchange has done. */
  ghost function Left(su: Setup, s: State): int { RK.Rank(su.cfg, su.plan, s.r) - C.Clock(s.c) }

  lemma StepSpends(su: Setup, s: State, step: Step)
    requires Inv(su, s) && Enabled(su, s, step)
    ensures var left, left' := Left(su, s), Left(su, Apply(su, s, step));
            if Returns(step) then left' == left + 1 else left' < left
  {
    StepIsBoth(su, s, step);
    if ControlMove(s, step) != [] {
      C.ClockTicks(su.credit, s.c, ControlMove(s, step)[0]);
    }
    if WorkMove(s, step) != [] {
      RK.StepLowers(su.cfg, su.plan, s.r, WorkMove(s, step)[0]);
    }
  }

  lemma {:induction false} RunSpends(su: Setup, s: State, steps: seq<Step>)
    requires Inv(su, s) && Runs(su, s, steps)
    ensures |steps| + Left(su, End(su, s, steps)) <= Left(su, s) + 2 * ReturnsIn(steps)
    decreases |steps|
  {
    if steps != [] {
      StepKeeps(su, s, steps[0]);
      StepSpends(su, s, steps[0]);
      RunSpends(su, Apply(su, s, steps[0]), steps[1..]);
    }
  }

  lemma StartLeft(su: Setup)
    requires su.Valid()
    ensures Left(su, Start(su)) == (2 * su.cfg.maxRetries + 12) * |su.plan.files.Keys| + 2 * su.credit.groups + 1
  {
    RR.InitRank(su.cfg, su.plan);
  }

  lemma LeftAtLeast(su: Setup, s: State)
    requires R.Inv(su.cfg, su.plan, s.r) && C.Inv(su.credit, s.c)
    ensures Left(su, s) >= -(8 * su.credit.groups + 3)
  {
    RR.RankNotNegative(su.cfg, su.plan, s.r);
    C.ClockBound(su.credit, s.c);
  }

  /** Every session ends: its steps are bounded by the plan, the retry limit and the
      uncharged requeues. */
  lemma SessionsTerminate(su: Setup, steps: seq<Step>)
    requires su.Valid() && Runs(su, Start(su), steps)
    ensures |steps| <= (2 * su.cfg.maxRetries + 12) * |su.plan.files.Keys| + 10 * su.credit.groups + 4
                       + 2 * ReturnsIn(steps)
  {
    StartInv(su);
    RunKeeps(su, Start(su), steps);
    RunSpends(su, Start(su), steps);
    StartLeft(su);
    LeftAtLeast(su, End(su, Start(su), steps));
  }
}
