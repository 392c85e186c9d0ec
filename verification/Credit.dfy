/** The group-manifest credit protocol: the sender's publisher and credit gate
    (internal/sender/state.go, internal/sender/manifest.go), the control channel,
    and the receiver's control reader and decide pool (internal/receiver/run.go,
    internal/receiver/decide.go). */
module Credit {
  import opened Bytes
  import opened Finite

  // ---- the gate ------------------------------------------------------------

  predicate HasUnit(avail: int) { avail > 0 }

  function TakeUnit(avail: int): int { avail - 1 }

  function AddUnits(avail: int, n: nat): int { avail + n }

  /** What wakes a goroutine that waits for credit. */
  datatype Wake = Credited(n: nat) | Cancelled

  function Arrived(wakes: seq<Wake>): nat {
    if wakes == [] then 0
    else Arrived(wakes[..|wakes| - 1]) + (if wakes[|wakes| - 1].Credited? then wakes[|wakes| - 1].n else 0)
  }

  /** creditGate: a semaphore. */
  class CreditGate {
    var avail: int

    constructor (initial: int)
      ensures avail == initial
    {
      avail := initial;
    }

    method Add(n: nat)
      modifies this
      ensures avail == AddUnits(old(avail), n)
    {
      avail := avail + n;
    }

    /** acquire, woken in turn by each of `wakes`; `cancelled` is whether its context is
        cancelled from the start.  Credit is conserved: what was there and what arrived
        is what is left and the unit taken.  A unit is taken exactly when there is one, at
        the first wake-up that leaves one, and it gives up only after a cancellation. */
    method Acquire(cancelled: bool, wakes: seq<Wake>) returns (taken: bool, used: nat)
      modifies this
      ensures used <= |wakes|
      ensures var had := AddUnits(old(avail), Arrived(wakes[..used]));
              (taken <==> HasUnit(had)) && avail == if taken then TakeUnit(had) else had
      ensures forall k :: 0 <= k < used ==> !HasUnit(AddUnits(old(avail), Arrived(wakes[..k])))
      ensures !taken ==> cancelled || Cancelled in wakes[..used] || used == |wakes|
    {
      var stop := cancelled;
      used := 0;
      while avail <= 0
        invariant used <= |wakes|
        invariant avail == AddUnits(old(avail), Arrived(wakes[..used]))
        invariant forall k :: 0 <= k < used ==> !HasUnit(AddUnits(old(avail), Arrived(wakes[..k])))
        invariant stop ==> cancelled || Cancelled in wakes[..used]
        decreases |wakes| - used
      {
        if stop || used == |wakes| {
          return false, used;
        }
        assert wakes[..used + 1][..used] == wakes[..used];
        match wakes[used] {
          case Credited(n) => Add(n);
          case Cancelled => stop := true;
        }
        used := used + 1;
      }
      avail := avail - 1;
      taken := true;
    }
  }

  // ---- both ends -----------------------------------------------------------

  datatype Down = Scan(total: nat) | Manifest(group: nat)

  datatype Up = Decision(group: nat) | Grant

  datatype Phase = Deciding | Decided

  /** `groups` is the number of planned groups; it and the group ids travel as unsigned
      32-bit numbers.  `credit` is the receiver's setting; it travels as an unsigned
      16-bit number. */
  datatype Setup = Setup(groups: nat, credit: nat) {
    function Announced(): nat { groups % U32 }
    function Initial(): nat { credit % 0x1_0000 }
    function Capacity(): nat { 2 * credit + 8 }
  }

  /** `arrived` are the group ids of the decisions received. */
  datatype Sender = Sender(avail: int, scanned: bool, acquired: bool, published: nat, arrived: seq<nat>)

  /** The control reader, its manifest channel and whether that is closed. */
  datatype Reader = Reader(total: int, seen: nat, manifests: seq<nat>, closed: bool, running: bool)

  /** Groups are numbered here as the sender publishes them.  `held` is what the decide
      workers have in hand and `workers` how many there are; `dropped` are the groups a worker gave up (a send, sync or space error, or
      cancellation), `credited` those it gave credit back for, and `decisions` the
      GROUP_DECISIONs sent. */
  datatype Pool = Pool(workers: nat, held: map<nat, Phase>, dropped: set<nat>, credited: set<nat>, decisions: seq<nat>)

  datatype State = State(sender: Sender, down: seq<Down>, reader: Reader, pool: Pool, up: seq<Up>)

  function Start(su: Setup, workers: nat): State {
    State(Sender(su.Initial(), false, false, 0, []), [], Reader(-1, 0, [], false, true),
          Pool(workers, map[], {}, {}, []), [])
  }

  datatype Step =
    | SendScan
    | Acquire
    | Publish
    | ReaderTakes
    | ReaderFails
    | WorkerTakes
    | Decide(group: nat)
    | GiveBack(group: nat)
    | GiveUp(group: nat, leaves: bool)
    | SenderTakes

  predicate Enabled(su: Setup, s: State, step: Step) {
    match step
    case SendScan => !s.sender.scanned
    case Acquire => s.sender.scanned && !s.sender.acquired && s.sender.published < su.groups && HasUnit(s.sender.avail)
    case Publish => s.sender.acquired
    case ReaderTakes =>
      s.reader.running && s.down != [] && (s.down[0].Manifest? ==> |s.reader.manifests| < su.Capacity())
    case ReaderFails => s.reader.running
    case WorkerTakes => s.reader.manifests != [] && |s.pool.held| < s.pool.workers
    case Decide(g) => Holds(s.pool, g, Deciding)
    case GiveBack(g) => Holds(s.pool, g, Decided)
    case GiveUp(g, leaves) =>
      if leaves then g in s.pool.held && s.pool.workers > 0 else Holds(s.pool, g, Decided)
    case SenderTakes => s.up != []
  }

  predicate Holds(p: Pool, g: nat, phase: Phase) { g in p.held && p.held[g] == phase }

  /** The control reader's loop body: the manifest channel closes when the last
      announced group has been read, or at once when there are none. */
  function Read(r: Reader, m: Down): Reader {
    match m
    case Scan(n) => r.(total := n, closed := r.closed || n == 0)
    case Manifest(g) =>
      r.(manifests := r.manifests + [g], seen := r.seen + 1,
         closed := r.closed || (r.total >= 0 && r.seen + 1 >= r.total))
  }

  /** The sender's control reader. */
  function Arrive(s: Sender, m: Up): Sender {
    match m
    case Decision(g) => s.(arrived := s.arrived + [g])
    case Grant => s.(avail := AddUnits(s.avail, 1))
  }

  function PoolAfter(s: State, step: Step): Pool
    requires step.WorkerTakes? ==> s.reader.manifests != []
  {
    var p := s.pool;
    match step
    case WorkerTakes => p.(held := p.held[s.reader.manifests[0] := Deciding])
    case Decide(g) => p.(held := p.held[g := Decided], decisions := p.decisions + [g])
    case GiveBack(g) => p.(held := Without(p.held, g), credited := p.credited + {g})
    case GiveUp(g, leaves) =>
      p.(held := Without(p.held, g), dropped := p.dropped + {g},
         workers := if leaves && p.workers > 0 then p.workers - 1 else p.workers)
    case _ => p
  }

  function Apply(su: Setup, s: State, step: Step): State
    requires Enabled(su, s, step)
  {
    match step
    case SendScan => s.(sender := s.sender.(scanned := true), down := s.down + [Scan(su.Announced())])
    case Acquire => s.(sender := s.sender.(avail := TakeUnit(s.sender.avail), acquired := true))
    case Publish =>
      s.(sender := s.sender.(acquired := false, published := s.sender.published + 1),
         down := s.down + [Manifest(s.sender.published)])
    case ReaderTakes => s.(down := s.down[1..], reader := Read(s.reader, s.down[0]))
    case ReaderFails => s.(reader := s.reader.(running := false, closed := true))
    case WorkerTakes => s.(reader := s.reader.(manifests := s.reader.manifests[1..]), pool := PoolAfter(s, step))
    case Decide(g) => s.(pool := PoolAfter(s, step), up := s.up + [Decision(g % U32)])
    case GiveBack(g) => s.(pool := PoolAfter(s, step), up := s.up + [Grant])
    case GiveUp(g, leaves) => s.(pool := PoolAfter(s, step))
    case SenderTakes => s.(up := s.up[1..], sender := Arrive(s.sender, s.up[0]))
  }

  predicate Runs(su: Setup, s: State, steps: seq<Step>)
    decreases |steps|
  {
    steps == [] || (Enabled(su, s, steps[0]) && Runs(su, Apply(su, s, steps[0]), steps[1..]))
  }

  function End(su: Setup, s: State, steps: seq<Step>): State
    requires Runs(su, s, steps)
    decreases |steps|
  {
    if steps == [] then s else End(su, Apply(su, s, steps[0]), steps[1..])
  }

  // ---- what is where -------------------------------------------------------

  predicate Consecutive(xs: seq<nat>, from: int) { forall i :: 0 <= i < |xs| ==> xs[i] == from + i }

  predicate ManifestsFrom(xs: seq<Down>, from: int) {
    forall i :: 0 <= i < |xs| ==> xs[i].Manifest? && xs[i].group == from + i
  }

  function GrantsIn(up: seq<Up>): nat {
    if up == [] then 0 else (if up[0].Grant? then 1 else 0) + GrantsIn(up[1..])
  }

  function DecisionsIn(up: seq<Up>): seq<nat> {
    if up == [] then [] else (if up[0].Decision? then [up[0].group] else []) + DecisionsIn(up[1..])
  }

  /** The ids the groups travel under. */
  function Ids(groups: seq<nat>): (r: seq<nat>)
    ensures |r| == |groups| && forall i :: 0 <= i < |r| ==> r[i] == groups[i] % U32
  {
    seq(|groups|, i requires 0 <= i < |groups| => groups[i] % U32)
  }

  /** Manifests on the control channel. */
  function InTransit(down: seq<Down>): nat {
    if down == [] then 0 else (if down[0].Manifest? then 1 else 0) + InTransit(down[1..])
  }

  /** Groups a worker has taken off the manifest channel. */
  function Taken(r: Reader): int { r.seen - |r.manifests| }

  /** The control channel carries SCAN_COMPLETE, until it is read, and then the
      manifests not yet read, in order. */
  predicate DownHolds(su: Setup, down: seq<Down>, scan: bool, from: nat, to: nat) {
    if scan then down != [] && down[0] == Scan(su.Announced()) && from == 0 && |down| == 1 + to && ManifestsFrom(down[1..], 0)
    else |down| == to - from && ManifestsFrom(down, from)
  }

  predicate Pipes(su: Setup, t: Sender, down: seq<Down>, r: Reader) {
    && r.seen <= t.published <= su.groups
    && (t.acquired ==> t.published < su.groups)
    && (t.published > 0 || t.acquired || r.total >= 0 ==> t.scanned)
    && Taken(r) >= 0 && Consecutive(r.manifests, Taken(r))
    && DownHolds(su, down, t.scanned && r.total < 0, r.seen, t.published)
    && (r.total >= 0 ==> r.total == su.Announced())
    && (r.running ==> (r.closed <==> r.total >= 0 && r.seen >= r.total))
  }

  ghost predicate Placed(p: Pool, taken: int) {
    && p.held.Keys !! p.dropped && p.held.Keys !! p.credited && p.dropped !! p.credited
    && (forall g :: g in p.held ==> g < taken)
    && (forall g :: g in p.dropped ==> g < taken)
    && (forall g :: g in p.credited ==> g < taken)
    && |p.held.Keys| + |p.dropped| + |p.credited| == taken
  }

  ghost predicate DecidedOnce(p: Pool) {
    && Distinct(p.decisions)
    && (forall g :: g in p.decisions ==> g in p.credited || g in p.dropped || Holds(p, g, Decided))
    && (forall g :: Holds(p, g, Decided) || g in p.credited ==> g in p.decisions)
  }

  ghost predicate Balanced(su: Setup, t: Sender, credited: nat, up: seq<Up>) {
    && t.avail >= 0
    && t.avail + (if t.acquired then 1 else 0) + (t.published - credited) + GrantsIn(up) == su.Initial()
  }

  ghost predicate Inv(su: Setup, s: State) {
    && Pipes(su, s.sender, s.down, s.reader)
    && Placed(s.pool, Taken(s.reader))
    && DecidedOnce(s.pool)
    && Ids(s.pool.decisions) == s.sender.arrived + DecisionsIn(s.up)
    && Balanced(su, s.sender, |s.pool.credited|, s.up)
  }

  // ---- every step keeps it -------------------------------------------------

  lemma {:induction false} UpAppend(up: seq<Up>, m: Up)
    ensures GrantsIn(up + [m]) == GrantsIn(up) + (if m.Grant? then 1 else 0)
    ensures DecisionsIn(up + [m]) == DecisionsIn(up) + (if m.Decision? then [m.group] else [])
  {
    if up == [] {
      assert up + [m] == [m] && [m][1..] == [];
    } else {
      UpAppend(up[1..], m);
      assert (up + [m])[1..] == up[1..] + [m];
    }
  }

  lemma PublishPipes(su: Setup, s: State)
    requires Pipes(su, s.sender, s.down, s.reader) && Enabled(su, s, Publish)
    ensures var s' := Apply(su, s, Publish); Pipes(su, s'.sender, s'.down, s'.reader)
  {
    var m := Manifest(s.sender.published);
    assert s.down != [] ==> (s.down + [m])[1..] == s.down[1..] + [m];
  }

  lemma ReadPipes(su: Setup, s: State)
    requires Pipes(su, s.sender, s.down, s.reader) && Enabled(su, s, ReaderTakes)
    ensures var s' := Apply(su, s, ReaderTakes); Pipes(su, s'.sender, s'.down, s'.reader)
  {
  }

  lemma TakePipes(su: Setup, s: State)
    requires Pipes(su, s.sender, s.down, s.reader) && Enabled(su, s, WorkerTakes)
    ensures var s' := Apply(su, s, WorkerTakes); Pipes(su, s'.sender, s'.down, s'.reader)
    ensures s.reader.manifests[0] == Taken(s.reader)
  {
  }

  /** The next manifest is the one after those taken, and is a planned group. */
  lemma NextTaken(su: Setup, s: State)
    requires Pipes(su, s.sender, s.down, s.reader) && s.reader.manifests != []
    ensures s.reader.manifests[0] == Taken(s.reader) < su.groups
  {
  }

  lemma PipesKept(su: Setup, s: State, step: Step)
    requires Pipes(su, s.sender, s.down, s.reader) && Enabled(su, s, step)
    ensures var s' := Apply(su, s, step); Pipes(su, s'.sender, s'.down, s'.reader)
  {
    match step
    case Publish => PublishPipes(su, s);
    case ReaderTakes => ReadPipes(su, s);
    case WorkerTakes => TakePipes(su, s);
    case _ =>
  }

  lemma TakePlaced(p: Pool, p': Pool, g: nat, taken: nat)
    requires Placed(p, taken) && g == taken && p' == p.(held := p.held[g := Deciding])
    ensures Placed(p', taken + 1)
  {
    assert p'.held.Keys == p.held.Keys + {g};
  }

  /** A group leaves the workers' hands. */
  lemma LeavePlaced(p: Pool, p': Pool, g: nat, taken: int)
    requires Placed(p, taken) && g in p.held && p'.held == Without(p.held, g)
    requires || (p'.dropped == p.dropped + {g} && p'.credited == p.credited)
             || (p'.dropped == p.dropped && p'.credited == p.credited + {g})
    ensures Placed(p', taken)
  {
  }

  lemma PlacedKept(su: Setup, s: State, step: Step)
    requires Pipes(su, s.sender, s.down, s.reader) && Placed(s.pool, Taken(s.reader)) && Enabled(su, s, step)
    ensures Placed(Apply(su, s, step).pool, Taken(Apply(su, s, step).reader))
  {
    var s' := Apply(su, s, step);
    match step
    case WorkerTakes =>
      TakePipes(su, s);
      TakePlaced(s.pool, s'.pool, s.reader.manifests[0], Taken(s.reader));
    case Decide(g) => assert s'.pool.held.Keys == s.pool.held.Keys;
    case GiveBack(g) => LeavePlaced(s.pool, s'.pool, g, Taken(s.reader));
    case GiveUp(g, _) => LeavePlaced(s.pool, s'.pool, g, Taken(s.reader));
    case _ =>
  }

  lemma DecidedOnceKept(s: State, step: Step, taken: nat)
    requires Placed(s.pool, taken) && DecidedOnce(s.pool)
    requires step.WorkerTakes? ==> s.reader.manifests != [] && s.reader.manifests[0] == taken
    requires step.Decide? ==> Holds(s.pool, step.group, Deciding)
    requires step.GiveBack? ==> Holds(s.pool, step.group, Decided)
    requires step.GiveUp? ==> step.group in s.pool.held
    ensures DecidedOnce(PoolAfter(s, step))
  {
  }

  lemma UpKept(su: Setup, s: State, step: Step)
    requires Enabled(su, s, step)
    requires Ids(s.pool.decisions) == s.sender.arrived + DecisionsIn(s.up)
    ensures var s' := Apply(su, s, step); Ids(s'.pool.decisions) == s'.sender.arrived + DecisionsIn(s'.up)
  {
    match step
    case Decide(g) =>
      UpAppend(s.up, Decision(g % U32));
      assert Ids(s.pool.decisions + [g]) == Ids(s.pool.decisions) + [g % U32];
    case GiveBack(g) => UpAppend(s.up, Grant);
    case SenderTakes => ArriveInOrder(s.sender.arrived, s.up);
    case _ =>
  }

  lemma ArriveInOrder(arrived: seq<nat>, up: seq<Up>)
    requires up != []
    ensures arrived + DecisionsIn(up) == (if up[0].Decision? then arrived + [up[0].group] else arrived) + DecisionsIn(up[1..])
  {
  }

  lemma BalancedKept(su: Setup, s: State, step: Step)
    requires s.pool.held.Keys !! s.pool.credited && Enabled(su, s, step)
    requires Balanced(su, s.sender, |s.pool.credited|, s.up)
    ensures var s' := Apply(su, s, step); Balanced(su, s'.sender, |s'.pool.credited|, s'.up)
  {
    match step
    case Decide(g) => UpAppend(s.up, Decision(g % U32));
    case GiveBack(g) => UpAppend(s.up, Grant);
    case _ =>
  }

  lemma StepKeeps(su: Setup, s: State, step: Step)
    requires Inv(su, s) && Enabled(su, s, step)
    ensures Inv(su, Apply(su, s, step))
  {
    PipesKept(su, s, step);
    PlacedKept(su, s, step);
    UpKept(su, s, step);
    BalancedKept(su, s, step);
    DecidedOnceKept(s, step, Taken(s.reader));
  }

  lemma {:induction false} RunKeeps(su: Setup, s: State, steps: seq<Step>)
    requires Inv(su, s) && Runs(su, s, steps)
    ensures Inv(su, End(su, s, steps))
    decreases |steps|
  {
    if steps != [] {
      StepKeeps(su, s, steps[0]);
      RunKeeps(su, Apply(su, s, steps[0]), steps[1..]);
    }
  }

  lemma {:induction false} TransitCount(down: seq<Down>, from: int)
    requires ManifestsFrom(down, from)
    ensures InTransit(down) == |down|
  {
    if down != [] {
      TransitCount(down[1..], from + 1);
    }
  }

  lemma TransitIs(su: Setup, s: State)
    requires Pipes(su, s.sender, s.down, s.reader)
    ensures InTransit(s.down) == s.sender.published - s.reader.seen
  {
    if s.sender.scanned && s.reader.total < 0 {
      TransitCount(s.down[1..], 0);
    } else {
      TransitCount(s.down, s.reader.seen);
    }
  }

  // ---- theorems ------------------------------------------------------------

  /** Available credit, the unit the publisher holds, the manifests on their way, in
      the manifest channel, with a worker or given up, and the credits on their way
      back always add up to the initial grant; so undecided manifests never exceed
      it. */
  lemma CreditConserved(su: Setup, workers: nat, steps: seq<Step>)
    requires Runs(su, Start(su, workers), steps)
    ensures var s := End(su, Start(su, workers), steps);
            && s.sender.avail + (if s.sender.acquired then 1 else 0) + InTransit(s.down) + |s.reader.manifests|
               + |s.pool.held| + |s.pool.dropped| + GrantsIn(s.up) == su.Initial()
            && s.sender.avail >= 0
            && s.sender.published - |s.pool.decisions| <= su.Initial()
  {
    var s := End(su, Start(su, workers), steps);
    RunKeeps(su, Start(su, workers), steps);
    TransitIs(su, s);
    assert |s.pool.held| == |s.pool.held.Keys|;
    CountedIn(s.pool.credited, s.pool.decisions);
  }

  /** The control reader never finds its manifest channel full, and it has closed it
      before a manifest exactly when it has read as many as were announced: never, with
      fewer than 2^32 groups. */
  lemma ReaderNeverBlocks(su: Setup, workers: nat, steps: seq<Step>)
    requires Runs(su, Start(su, workers), steps)
    ensures var s := End(su, Start(su, workers), steps);
            s.reader.running && s.down != [] ==>
              && Enabled(su, s, ReaderTakes)
              && (s.down[0].Manifest? ==> (s.reader.closed <==> s.reader.seen >= su.Announced()))
              && (s.down[0].Manifest? && su.groups < U32 ==> !s.reader.closed)
  {
    var s := End(su, Start(su, workers), steps);
    RunKeeps(su, Start(su, workers), steps);
    WithinGrant(su, s);
    if s.reader.running && s.down != [] {
      ReaderReady(su, s);
    }
  }

  lemma WithinGrant(su: Setup, s: State)
    requires Pipes(su, s.sender, s.down, s.reader) && Placed(s.pool, Taken(s.reader))
    requires Balanced(su, s.sender, |s.pool.credited|, s.up)
    ensures |s.reader.manifests| < su.Capacity()
  {
    assert |s.reader.manifests| <= su.Initial() <= su.credit;
  }

  lemma ReaderReady(su: Setup, s: State)
    requires Pipes(su, s.sender, s.down, s.reader) && |s.reader.manifests| < su.Capacity()
    requires s.reader.running && s.down != []
    ensures Enabled(su, s, ReaderTakes)
    ensures s.down[0].Manifest? ==> (s.reader.closed <==> s.reader.seen >= su.Announced())
    ensures s.down[0].Manifest? && su.groups < U32 ==> !s.reader.closed
  {
  }

  /** With 2^32 groups none is announced, and the reader closes its manifest channel
      before the first manifest, which it then sends on it. */
  lemma CountWrapsRound(credit: nat, workers: nat)
    requires credit % 0x1_0000 > 0
    ensures var su, steps := Setup(U32, credit), [SendScan, ReaderTakes, Acquire, Publish];
            && Runs(su, Start(su, workers), steps)
            && var s := End(su, Start(su, workers), steps);
               s.reader.running && s.reader.closed && s.down == [Manifest(0)]
  {
    var su, steps := Setup(U32, credit), [SendScan, ReaderTakes, Acquire, Publish];
    var s0 := Start(su, workers);
    var s1 := Apply(su, s0, SendScan);
    var s2 := Apply(su, s1, ReaderTakes);
    var s3 := Apply(su, s2, Acquire);
    var s4 := Apply(su, s3, Publish);
    assert steps[1..] == [ReaderTakes, Acquire, Publish] && steps[1..][1..] == [Acquire, Publish];
    assert steps[1..][1..][1..] == [Publish] && steps[1..][1..][1..][1..] == [];
    assert Runs(su, s4, []) && End(su, s4, []) == s4;
    assert Runs(su, s3, [Publish]) && End(su, s3, [Publish]) == s4;
    assert Runs(su, s2, [Acquire, Publish]) && End(su, s2, [Acquire, Publish]) == s4;
    assert Runs(su, s1, steps[1..]) && End(su, s1, steps[1..]) == s4;
  }

  lemma {:induction false} NothingPublished(su: Setup, s: State, steps: seq<Step>)
    requires Inv(su, s) && Runs(su, s, steps) && su.Initial() == 0 && s.sender.published == 0 && !s.sender.acquired
    ensures End(su, s, steps).sender.published == 0
    decreases |steps|
  {
    if steps != [] {
      NoUnit(su, s);
      StepKeeps(su, s, steps[0]);
      NothingPublished(su, Apply(su, s, steps[0]), steps[1..]);
    }
  }

  lemma NoUnit(su: Setup, s: State)
    requires Pipes(su, s.sender, s.down, s.reader) && Placed(s.pool, Taken(s.reader))
    requires Balanced(su, s.sender, |s.pool.credited|, s.up) && su.Initial() == 0
    ensures !HasUnit(s.sender.avail)
  {
  }

  /** A credit setting that is a multiple of 65536 grants nothing: no group is ever
      published or decided. */
  lemma NoGrantNoManifest(su: Setup, workers: nat, steps: seq<Step>)
    requires Runs(su, Start(su, workers), steps) && su.Initial() == 0
    ensures var s := End(su, Start(su, workers), steps); s.sender.published == 0 && s.pool.decisions == []
  {
    var s := End(su, Start(su, workers), steps);
    RunKeeps(su, Start(su, workers), steps);
    NothingPublished(su, Start(su, workers), steps);
    NothingDecided(s.pool, Taken(s.reader));
  }

  lemma NothingDecided(p: Pool, taken: int)
    requires Placed(p, taken) && DecidedOnce(p) && taken <= 0
    ensures p.decisions == []
  {
    DistinctWithin(p.decisions, {});
  }

  /** The manifest channel was closed by count, and every worker is idle with nothing
      given up. */
  predicate PoolDone(s: State) {
    s.reader.closed && s.reader.running && s.reader.manifests == [] && s.pool.held == map[] && s.pool.dropped == {}
  }

  /** No group is decided twice; with at most 2^32 groups no decision reaches the sender
      twice or for a group it does not have, so the tracker refuses none; and with fewer,
      when the pool is done every group was decided, and credited, exactly once. */
  lemma DecidedExactlyOnce(su: Setup, workers: nat, steps: seq<Step>)
    requires Runs(su, Start(su, workers), steps)
    ensures var s := End(su, Start(su, workers), steps);
            && Distinct(s.pool.decisions) && (forall g :: g in s.pool.decisions ==> g < su.groups)
            && (su.groups <= U32 && s.up != [] && s.up[0].Decision? ==>
                  s.up[0].group < su.groups && s.up[0].group !in s.sender.arrived)
            && (su.groups < U32 && PoolDone(s) ==> |s.pool.decisions| == su.groups && EachDecided(su, s.pool))
  {
    var s := End(su, Start(su, workers), steps);
    RunKeeps(su, Start(su, workers), steps);
    DecisionsBelow(s.pool, Taken(s.reader));
    if su.groups <= U32 && s.up != [] && s.up[0].Decision? {
      NextIsNew(s.pool.decisions, su.groups, s.sender.arrived, s.up);
    }
    if su.groups < U32 && PoolDone(s) {
      EveryoneDecided(su, s);
    }
  }

  ghost predicate EachDecided(su: Setup, p: Pool) {
    forall g: nat :: g < su.groups ==> g in p.decisions && g in p.credited
  }

  lemma DecisionsBelow(p: Pool, taken: int)
    requires Placed(p, taken) && DecidedOnce(p)
    ensures forall g :: g in p.decisions ==> g < taken
  {
  }

  lemma NextIsNew(decisions: seq<nat>, groups: nat, arrived: seq<nat>, up: seq<Up>)
    requires Distinct(decisions) && (forall g :: g in decisions ==> g < groups) && groups <= U32
    requires Ids(decisions) == arrived + DecisionsIn(up) && up != [] && up[0].Decision?
    ensures up[0].group < groups && up[0].group !in arrived
  {
    forall i | 0 <= i < |decisions|
      ensures Ids(decisions)[i] == decisions[i]
    {
      assert decisions[i] in decisions;
    }
    assert Ids(decisions) == decisions;
    assert decisions[|arrived|] == up[0].group && up[0].group in decisions;
    forall i | 0 <= i < |arrived|
      ensures arrived[i] != up[0].group
    {
      assert arrived[i] == decisions[i];
    }
  }

  lemma EveryoneDecided(su: Setup, s: State)
    requires Inv(su, s) && su.groups < U32 && PoolDone(s)
    ensures |s.pool.decisions| == su.groups && EachDecided(su, s.pool)
  {
    assert s.pool.held.Keys == {};
    Pigeonhole(s.pool.credited, su.groups);
    DistinctLength(s.pool.decisions, s.pool.credited);
  }

  // ---- termination ---------------------------------------------------------

  function Count(b: bool): nat { if b then 1 else 0 }

  /** How many steps a run has made, read off the state it ends in. */
  function Clock(s: State): int {
    Count(s.sender.scanned) + Count(s.reader.total >= 0) + Count(!s.reader.running)
    + 2 * s.sender.published + Count(s.sender.acquired) + s.reader.seen + Taken(s.reader)
    + |s.pool.decisions| + |s.sender.arrived| + 2 * |s.pool.credited| - GrantsIn(s.up) + |s.pool.dropped|
  }

  lemma PublisherTicks(su: Setup, s: State, step: Step)
    requires Inv(su, s) && Enabled(su, s, step)
    requires step.SendScan? || step.Acquire? || step.Publish? || step.ReaderTakes? || step.ReaderFails? || step.SenderTakes?
    ensures Clock(Apply(su, s, step)) == Clock(s) + 1
  {
  }

  /** Every step moves the clock on by one. */
  lemma ClockTicks(su: Setup, s: State, step: Step)
    requires Inv(su, s) && Enabled(su, s, step)
    ensures Clock(Apply(su, s, step)) == Clock(s) + 1
  {
    match step
    case WorkerTakes =>
    case Decide(g) => UpAppend(s.up, Decision(g % U32));
    case GiveBack(g) => UpAppend(s.up, Grant);
    case GiveUp(g, leaves) =>
    case _ => PublisherTicks(su, s, step);
  }

  lemma {:induction false} ClockCounts(su: Setup, s: State, steps: seq<Step>)
    requires Inv(su, s) && Runs(su, s, steps)
    ensures Clock(End(su, s, steps)) == Clock(s) + |steps|
    decreases |steps|
  {
    if steps != [] {
      StepKeeps(su, s, steps[0]);
      ClockTicks(su, s, steps[0]);
      ClockCounts(su, Apply(su, s, steps[0]), steps[1..]);
    }
  }

  lemma ClockBound(su: Setup, s: State)
    requires Inv(su, s)
    ensures Clock(s) <= 8 * su.groups + 3
  {
    DecisionsBelow(s.pool, Taken(s.reader));
    DistinctWithin(s.pool.decisions, Below(Taken(s.reader)));
  }

  /** The exchange of manifests, decisions and credits ends: a run has at most eight
      steps for each group, and three. */
  lemma ExchangeTerminates(su: Setup, workers: nat, steps: seq<Step>)
    requires Runs(su, Start(su, workers), steps)
    ensures |steps| <= 8 * su.groups + 3
  {
    RunKeeps(su, Start(su, workers), steps);
    ClockCounts(su, Start(su, workers), steps);
    ClockBound(su, End(su, Start(su, workers), steps));
  }
}
