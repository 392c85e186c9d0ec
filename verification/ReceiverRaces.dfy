/** Whether hard links survive: how many files of one key are materialised on their own
    (internal/receiver/decide.go lines 406-436).  Looking up the path of a key, claiming
    it and marking its primary are three critical sections, and other decide workers come
    in between. */
module ReceiverRaces {
  import opened Optional
  import opened HardlinkMap
  import opened Receiver
  import opened ReceiverTaking
  import opened ReceiverKeys
  import RR = ReceiverRuns
  import RD = ReceiverDrain
  import QC = QueueClients

  /** Worker w has decided that its entry leads this key, and has not said so yet. */
  predicate AboutToLead(plan: Plan, s: State, w: nat, key: nat) {
    w in s.decide && s.decide[w].pc.Clearing? && Own(plan, s.decide[w].pc.f, key)
  }

  /** File f is, or is about to be, a primary of the key: its content is compared and
      fetched on its own. */
  ghost predicate IsLeader(plan: Plan, s: State, key: nat, f: nat) {
    (f in s.links.fileKey && s.links.fileKey[f] == key) || exists w :: AboutToLead(plan, s, w, key) && s.decide[w].pc.f == f
  }

  ghost predicate OneLeader(plan: Plan, s: State, key: nat) {
    forall f, g :: IsLeader(plan, s, key, f) && IsLeader(plan, s, key, g) ==> f == g
  }

  /** The claim comes while another worker is about to lead the key, or after its path has
      become known. */
  ghost predicate Races(plan: Plan, s: State, step: Step, key: nat) {
    && step.ClaimOrLead? && step.w in s.decide && s.decide[step.w].pc.AskClaim? && Own(plan, s.decide[step.w].pc.f, key)
    && (key in s.links.keyToPath || (key !in s.links.seen && exists v :: v != step.w && AboutToLead(plan, s, v, key)))
  }

  /** A refused link or a failed primary retires the key. */
  ghost predicate Retires(plan: Plan, s: State, step: Step, key: nat) {
    || (step.LinkRefused? && step.w in s.decide && s.decide[step.w].pc.TryLink? && Own(plan, s.decide[step.w].pc.f, key))
    || (step.GiveUp? && step.w in s.c.held && s.c.held[step.w].fileID in s.links.fileKey
        && s.links.fileKey[s.c.held[step.w].fileID] == key)
  }

  // ---- leaders come and stay -----------------------------------------------

  /** How a step changes who leads: a claim that does not park adds its entry, a refused
      link adds its own, and nothing takes a leader away. */
  lemma FileKeysAfter(cfg: QC.Config, plan: Plan, s: State, step: Step)
    requires |s.c.history| == |s.c.tries| && Enabled(cfg, plan, s, step)
    ensures Apply(cfg, plan, s, step).links.fileKey
            == if step.TakeOver? then s.links.fileKey[s.decide[step.w].pc.f := KeyOf(plan, s.decide[step.w].pc.f)]
               else s.links.fileKey
  {
    if !step.LinkRefused? && !step.TakeOver? && !step.ClaimOrLead? && !step.ContentMatches? && !step.PublishItem?
       && !step.GiveUp? {
      SameLinks(cfg, plan, s, step);
    }
  }

  /** Worker v clears for file f. */
  predicate Clears(s: State, v: nat, f: nat) { v in s.decide && s.decide[v].pc.Clearing? && s.decide[v].pc.f == f }

  /** A worker begins to clear by a claim that does not park and by a refused link, and
      stops by taking over. */
  predicate ClearsAfter(plan: Plan, s: State, s': State, step: Step, v: nat, f: nat) {
    Clears(s', v, f) <==>
      || (Clears(s, v, f) && !(step.TakeOver? && step.w == v))
      || (step.LinkRefused? && step.w == v && v in s.decide && s.decide[v].pc.TryLink? && s.decide[v].pc.f == f)
      || (step.ClaimOrLead? && step.w == v && v in s.decide && s.decide[v].pc.AskClaim? && s.decide[v].pc.f == f
          && !Claimable(s.links, KeyOf(plan, f)))
  }

  lemma StartClears(cfg: QC.Config, plan: Plan, s: State, step: Step, v: nat, f: nat)
    requires |s.c.history| == |s.c.tries| && Enabled(cfg, plan, s, step)
    requires step.StartGroup? || step.Reject? || step.SkipJournalled? || step.Begin? || step.LinkMade? || step.SeekPath?
    ensures ClearsAfter(plan, s, Apply(cfg, plan, s, step), step, v, f)
  {
  }

  lemma LinkClears(cfg: QC.Config, plan: Plan, s: State, step: Step, v: nat, f: nat)
    requires |s.c.history| == |s.c.tries| && Enabled(cfg, plan, s, step)
    requires step.LinkRefused? || step.TakeOver? || step.ClaimOrLead?
    ensures ClearsAfter(plan, s, Apply(cfg, plan, s, step), step, v, f)
  {
  }

  lemma ContentClears(cfg: QC.Config, plan: Plan, s: State, step: Step, v: nat, f: nat)
    requires |s.c.history| == |s.c.tries| && Enabled(cfg, plan, s, step)
    requires step.NeedContent? || step.ContentMatches? || step.EndGroup? || step.CloseQueue?
    ensures ClearsAfter(plan, s, Apply(cfg, plan, s, step), step, v, f)
  {
  }

  lemma StepClears(cfg: QC.Config, plan: Plan, s: State, step: Step, v: nat, f: nat)
    requires |s.c.history| == |s.c.tries| && Enabled(cfg, plan, s, step)
    ensures ClearsAfter(plan, s, Apply(cfg, plan, s, step), step, v, f)
  {
    if ByFetch(step) {
      RD.FetchSame(cfg, plan, s, step);
    } else if step.OrphanFallsBack? || step.DecideLinks? {
      WokenNext(cfg, plan, s, step);
    } else if step.LinkRefused? || step.TakeOver? || step.ClaimOrLead? {
      LinkClears(cfg, plan, s, step, v, f);
    } else if step.NeedContent? || step.ContentMatches? || step.EndGroup? || step.CloseQueue? {
      ContentClears(cfg, plan, s, step, v, f);
    } else {
      StartClears(cfg, plan, s, step, v, f);
    }
  }

  /** The step makes file f a leader of the key. */
  ghost predicate Promotes(plan: Plan, s: State, step: Step, key: nat, f: nat) {
    && (step.LinkRefused? || step.ClaimOrLead?) && step.w in s.decide && Own(plan, f, key)
    && (step.LinkRefused? ==> s.decide[step.w].pc.TryLink? && s.decide[step.w].pc.f == f)
    && (step.ClaimOrLead? ==>
          s.decide[step.w].pc.AskClaim? && s.decide[step.w].pc.f == f && !Claimable(s.links, key))
  }

  /** Nothing takes a leader away, and only a refused link or a claim that does not park
      adds one. */
  lemma LeadersAfter(cfg: QC.Config, plan: Plan, s: State, step: Step, key: nat, f: nat)
    requires |s.c.history| == |s.c.tries| && Enabled(cfg, plan, s, step)
    requires Shape(plan, s) && Exact(s) && Primaries(plan, s) && MapTrue(plan, s.place, s.links)
    ensures IsLeader(plan, Apply(cfg, plan, s, step), key, f) <==> IsLeader(plan, s, key, f) || Promotes(plan, s, step, key, f)
  {
    var s' := Apply(cfg, plan, s, step);
    FileKeysAfter(cfg, plan, s, step);
    if step.TakeOver? || step.LinkRefused? || step.ClaimOrLead? {
      CurrentKeyed(plan, s, step.w);
    }
    forall v
      ensures ClearsAfter(plan, s, s', step, v, f)
    {
      StepClears(cfg, plan, s, step, v, f);
    }
    LeadersFrom(plan, s, s', step, key, f);
  }

  lemma LeadersFrom(plan: Plan, s: State, s': State, step: Step, key: nat, f: nat)
    requires forall v :: ClearsAfter(plan, s, s', step, v, f)
    requires s'.links.fileKey == if step.TakeOver? && step.w in s.decide && s.decide[step.w].pc.Clearing?
                                 then s.links.fileKey[s.decide[step.w].pc.f := KeyOf(plan, s.decide[step.w].pc.f)]
                                 else s.links.fileKey
    requires step.TakeOver? || step.LinkRefused? || step.ClaimOrLead? ==>
               step.w in s.decide && !s.decide[step.w].pc.Between? && Own(plan, s.decide[step.w].pc.f, KeyOf(plan, s.decide[step.w].pc.f))
    requires step.TakeOver? ==> s.decide[step.w].pc.Clearing? && s.decide[step.w].pc.f !in s.links.fileKey
    requires step.LinkRefused? ==> s.decide[step.w].pc.TryLink?
    requires step.ClaimOrLead? ==> s.decide[step.w].pc.AskClaim?
    ensures IsLeader(plan, s', key, f) <==> IsLeader(plan, s, key, f) || Promotes(plan, s, step, key, f)
  {
    if IsLeader(plan, s', key, f) && !(f in s'.links.fileKey && s'.links.fileKey[f] == key) {
      var v :| AboutToLead(plan, s', v, key) && s'.decide[v].pc.f == f;
      assert ClearsAfter(plan, s, s', step, v, f) && Clears(s', v, f);
      if Clears(s, v, f) {
        assert AboutToLead(plan, s, v, key) && s.decide[v].pc.f == f;
      }
    }
    if IsLeader(plan, s, key, f) && !(f in s.links.fileKey && s.links.fileKey[f] == key) {
      var v :| AboutToLead(plan, s, v, key) && s.decide[v].pc.f == f;
      assert ClearsAfter(plan, s, s', step, v, f) && Clears(s, v, f);
      if Clears(s', v, f) {
        assert AboutToLead(plan, s', v, key) && s'.decide[v].pc.f == f;
      }
    }
    if Promotes(plan, s, step, key, f) {
      assert ClearsAfter(plan, s, s', step, step.w, f);
      assert AboutToLead(plan, s', step.w, key) && s'.decide[step.w].pc.f == f;
    }
  }

  // ---- what the map remembers ----------------------------------------------

  /** A primary's key stays seen until it is retired. */
  ghost predicate PrimariesSeen(s: State, key: nat) {
    forall p :: p in s.links.fileKey && s.links.fileKey[p] == key ==> key in s.links.seen
  }

  /** A path was registered by a primary. */
  ghost predicate PathsLed(links: Links) {
    forall k :: k in links.keyToPath ==> exists p :: p in links.fileKey && links.fileKey[p] == k
  }

  lemma LinkSeen(cfg: QC.Config, plan: Plan, s: State, step: Step, key: nat)
    requires |s.c.history| == |s.c.tries| && Enabled(cfg, plan, s, step)
    requires Shape(plan, s) && Exact(s) && Primaries(plan, s)
    requires step.TakeOver? || step.LinkRefused? || step.ClaimOrLead?
    requires !Retires(plan, s, step, key) && PrimariesSeen(s, key)
    ensures PrimariesSeen(Apply(cfg, plan, s, step), key)
  {
    CurrentKeyed(plan, s, step.w);
  }

  lemma SettleSeen(cfg: QC.Config, plan: Plan, s: State, step: Step, key: nat)
    requires |s.c.history| == |s.c.tries| && Enabled(cfg, plan, s, step)
    requires step.ContentMatches? || step.PublishItem? || step.GiveUp?
    requires !Retires(plan, s, step, key) && PrimariesSeen(s, key)
    ensures PrimariesSeen(Apply(cfg, plan, s, step), key)
  {
  }

  lemma SeenStays(cfg: QC.Config, plan: Plan, s: State, step: Step, key: nat)
    requires |s.c.history| == |s.c.tries| && Enabled(cfg, plan, s, step)
    requires Shape(plan, s) && Exact(s) && Primaries(plan, s)
    requires !Retires(plan, s, step, key) && PrimariesSeen(s, key)
    ensures PrimariesSeen(Apply(cfg, plan, s, step), key)
  {
    if step.TakeOver? || step.LinkRefused? || step.ClaimOrLead? {
      LinkSeen(cfg, plan, s, step, key);
    } else if step.ContentMatches? || step.PublishItem? || step.GiveUp? {
      SettleSeen(cfg, plan, s, step, key);
    } else {
      SameLinks(cfg, plan, s, step);
    }
  }

  lemma LinkPaths(cfg: QC.Config, plan: Plan, s: State, step: Step)
    requires |s.c.history| == |s.c.tries| && Enabled(cfg, plan, s, step)
    requires Shape(plan, s) && Exact(s) && Primaries(plan, s) && PathsLed(s.links)
    requires step.TakeOver? || step.LinkRefused? || step.ClaimOrLead?
    ensures PathsLed(Apply(cfg, plan, s, step).links)
  {
    CurrentKeyed(plan, s, step.w);
    assert PcAgrees(plan, s, s.decide[step.w].pc);
    PathsFrom(s.links, Apply(cfg, plan, s, step).links);
  }

  lemma PathsStay(cfg: QC.Config, plan: Plan, s: State, step: Step)
    requires |s.c.history| == |s.c.tries| && Enabled(cfg, plan, s, step)
    requires Shape(plan, s) && Exact(s) && Primaries(plan, s) && PathsLed(s.links)
    ensures PathsLed(Apply(cfg, plan, s, step).links)
  {
    if step.LinkRefused? || step.TakeOver? || step.ClaimOrLead? {
      LinkPaths(cfg, plan, s, step);
    } else if step.ContentMatches? || step.PublishItem? || step.GiveUp? {
      PathsFrom(s.links, Apply(cfg, plan, s, step).links);
    } else {
      SameLinks(cfg, plan, s, step);
    }
  }

  /** Primaries are never forgotten, and new paths have one. */
  lemma PathsFrom(links: Links, links': Links)
    requires PathsLed(links)
    requires forall p :: p in links.fileKey ==> p in links'.fileKey && links'.fileKey[p] == links.fileKey[p]
    requires forall k :: k in links'.keyToPath && k !in links.keyToPath ==>
               exists p :: p in links'.fileKey && links'.fileKey[p] == k
    ensures PathsLed(links')
  {
    forall k | k in links'.keyToPath
      ensures exists p :: p in links'.fileKey && links'.fileKey[p] == k
    {
      if k in links.keyToPath {
        var p :| p in links.fileKey && links.fileKey[p] == k;
        assert links'.fileKey[p] == k;
      }
    }
  }

  // ---- one leader or two ---------------------------------------------------

  /** A claim that does not race finds no leader. */
  lemma NoLeaderYet(plan: Plan, s: State, step: Step, key: nat, f: nat)
    requires PrimariesSeen(s, key) && step.ClaimOrLead? && Promotes(plan, s, step, key, f) && !Races(plan, s, step, key)
    ensures forall g :: !IsLeader(plan, s, key, g)
  {
    assert !AboutToLead(plan, s, step.w, key);
  }

  lemma StaysOne(cfg: QC.Config, plan: Plan, s: State, step: Step, key: nat)
    requires |s.c.history| == |s.c.tries| && Enabled(cfg, plan, s, step)
    requires Shape(plan, s) && Exact(s) && Primaries(plan, s) && MapTrue(plan, s.place, s.links)
    requires PrimariesSeen(s, key) && OneLeader(plan, s, key)
    requires !Retires(plan, s, step, key) && !Races(plan, s, step, key)
    ensures OneLeader(plan, Apply(cfg, plan, s, step), key)
  {
    var s' := Apply(cfg, plan, s, step);
    forall f, g | IsLeader(plan, s', key, f) && IsLeader(plan, s', key, g)
      ensures f == g
    {
      LeadersAfter(cfg, plan, s, step, key, f);
      LeadersAfter(cfg, plan, s, step, key, g);
      if Promotes(plan, s, step, key, f) {
        NoLeaderYet(plan, s, step, key, f);
      } else if Promotes(plan, s, step, key, g) {
        NoLeaderYet(plan, s, step, key, g);
      }
    }
  }

  lemma RaceMakesTwo(cfg: QC.Config, plan: Plan, s: State, step: Step, key: nat)
    requires |s.c.history| == |s.c.tries| && Enabled(cfg, plan, s, step)
    requires Shape(plan, s) && Exact(s) && Primaries(plan, s) && MapTrue(plan, s.place, s.links)
    requires PathsLed(s.links) && Races(plan, s, step, key)
    ensures !OneLeader(plan, Apply(cfg, plan, s, step), key)
  {
    var f := s.decide[step.w].pc.f;
    var g := OtherLeader(plan, s, step, key);
    LeadersAfter(cfg, plan, s, step, key, f);
    LeadersAfter(cfg, plan, s, step, key, g);
    assert Promotes(plan, s, step, key, f);
  }

  lemma OtherLeader(plan: Plan, s: State, step: Step, key: nat) returns (g: nat)
    requires Shape(plan, s) && Exact(s) && Primaries(plan, s) && PathsLed(s.links) && Races(plan, s, step, key)
    ensures IsLeader(plan, s, key, g) && g != s.decide[step.w].pc.f
  {
    assert PcAgrees(plan, s, s.decide[step.w].pc);
    if key in s.links.keyToPath {
      g :| g in s.links.fileKey && s.links.fileKey[g] == key;
    } else {
      var v :| v != step.w && AboutToLead(plan, s, v, key);
      g := s.decide[v].pc.f;
      CurrentOwn(plan, s, v);
      CurrentOwn(plan, s, step.w);
    }
  }

  lemma StaysTwo(cfg: QC.Config, plan: Plan, s: State, step: Step, key: nat)
    requires |s.c.history| == |s.c.tries| && Enabled(cfg, plan, s, step)
    requires Shape(plan, s) && Exact(s) && Primaries(plan, s) && MapTrue(plan, s.place, s.links)
    requires !OneLeader(plan, s, key)
    ensures !OneLeader(plan, Apply(cfg, plan, s, step), key)
  {
    var f, g :| IsLeader(plan, s, key, f) && IsLeader(plan, s, key, g) && f != g;
    LeadersAfter(cfg, plan, s, step, key, f);
    LeadersAfter(cfg, plan, s, step, key, g);
  }

  // ---- whole sessions ------------------------------------------------------

  ghost predicate EverRetires(cfg: QC.Config, plan: Plan, s: State, steps: seq<Step>, key: nat)
    requires plan.WellFormed() && Inv(cfg, plan, s) && RR.Runs(cfg, plan, s, steps)
    decreases |steps|
  {
    steps != []
    && (Retires(plan, s, steps[0], key)
        || (RR.StepKeeps(cfg, plan, s, steps[0]);
            EverRetires(cfg, plan, Apply(cfg, plan, s, steps[0]), steps[1..], key)))
  }

  ghost predicate EverRaces(cfg: QC.Config, plan: Plan, s: State, steps: seq<Step>, key: nat)
    requires plan.WellFormed() && Inv(cfg, plan, s) && RR.Runs(cfg, plan, s, steps)
    decreases |steps|
  {
    steps != []
    && (Races(plan, s, steps[0], key)
        || (RR.StepKeeps(cfg, plan, s, steps[0]);
            EverRaces(cfg, plan, Apply(cfg, plan, s, steps[0]), steps[1..], key)))
  }

  ghost predicate Settled(plan: Plan, s: State, key: nat) {
    KeysTrue(plan, s) && PathsLed(s.links) && PrimariesSeen(s, key)
  }

  lemma SettledKept(cfg: QC.Config, plan: Plan, s: State, step: Step, key: nat)
    requires plan.WellFormed() && Inv(cfg, plan, s) && Enabled(cfg, plan, s, step)
    requires Settled(plan, s, key) && !Retires(plan, s, step, key)
    ensures Settled(plan, Apply(cfg, plan, s, step), key) && Inv(cfg, plan, Apply(cfg, plan, s, step))
  {
    RR.StepKeeps(cfg, plan, s, step);
    StepKeeps(cfg, plan, s, step);
    PathsStay(cfg, plan, s, step);
    SeenStays(cfg, plan, s, step, key);
  }

  lemma {:induction false} TwoForGood(cfg: QC.Config, plan: Plan, s: State, steps: seq<Step>, key: nat)
    requires plan.WellFormed() && Inv(cfg, plan, s) && RR.Runs(cfg, plan, s, steps) && KeysTrue(plan, s)
    requires !OneLeader(plan, s, key)
    ensures !OneLeader(plan, RR.End(cfg, plan, s, steps), key)
    decreases |steps|
  {
    if steps != [] {
      StaysTwo(cfg, plan, s, steps[0], key);
      StepKeeps(cfg, plan, s, steps[0]);
      RR.StepKeeps(cfg, plan, s, steps[0]);
      TwoForGood(cfg, plan, Apply(cfg, plan, s, steps[0]), steps[1..], key);
    }
  }

  lemma {:induction false} RunLeaders(cfg: QC.Config, plan: Plan, s: State, steps: seq<Step>, key: nat)
    requires plan.WellFormed() && Inv(cfg, plan, s) && RR.Runs(cfg, plan, s, steps) && Settled(plan, s, key)
    requires OneLeader(plan, s, key) && !EverRetires(cfg, plan, s, steps, key)
    ensures OneLeader(plan, RR.End(cfg, plan, s, steps), key) <==> !EverRaces(cfg, plan, s, steps, key)
    decreases |steps|
  {
    if steps != [] {
      var s' := Apply(cfg, plan, s, steps[0]);
      SettledKept(cfg, plan, s, steps[0], key);
      if Races(plan, s, steps[0], key) {
        RaceMakesTwo(cfg, plan, s, steps[0], key);
        TwoForGood(cfg, plan, s', steps[1..], key);
      } else {
        StaysOne(cfg, plan, s, steps[0], key);
        RunLeaders(cfg, plan, s', steps[1..], key);
      }
    }
  }

  ghost predicate SessionRetires(cfg: QC.Config, plan: Plan, steps: seq<Step>, key: nat)
    requires RR.IsRun(cfg, plan, steps)
  {
    RR.InitInv(cfg, plan);
    EverRetires(cfg, plan, Init(cfg, plan), steps, key)
  }

  ghost predicate SessionRaces(cfg: QC.Config, plan: Plan, steps: seq<Step>, key: nat)
    requires RR.IsRun(cfg, plan, steps)
  {
    RR.InitInv(cfg, plan);
    EverRaces(cfg, plan, Init(cfg, plan), steps, key)
  }

  /** In a session in which no link of a key is refused and no primary of it fails, at most
      one file ever leads the key, and is compared and fetched on its own, if and only if
      no claim of the key came while another worker was about to lead it, or after its
      path had become known. */
  lemma OneLeaderIff(cfg: QC.Config, plan: Plan, steps: seq<Step>, key: nat)
    requires RR.IsRun(cfg, plan, steps) && !SessionRetires(cfg, plan, steps, key)
    ensures OneLeader(plan, RR.Final(cfg, plan, steps), key) <==> !SessionRaces(cfg, plan, steps, key)
  {
    RR.InitInv(cfg, plan);
    RunLeaders(cfg, plan, Init(cfg, plan), steps, key);
  }

  // ---- a session that races ------------------------------------------------

  const TWO_LINKS := Plan(map[0 := Entry(Some(7), "a", 1), 1 := Entry(Some(7), "b", 1)], map[0 := [0], 1 := [1]])

  function Stage(f: nat, todo: seq<nat>, pc: DecidePc): Decider { Decider(f, todo, [], pc, "") }

  /** Both decide workers stand at the same point of their groups. */
  predicate Both(s: State, todo: bool, pc0: DecidePc, pc1: DecidePc) {
    && s.decide == map[0 := Stage(0, if todo then [0] else [], pc0), 1 := Stage(1, if todo then [1] else [], pc1)]
    && s.links == NO_LINKS
  }

  lemma One(cfg: QC.Config, plan: Plan, s: State, step: Step)
    requires plan.WellFormed() && Inv(cfg, plan, s) && Enabled(cfg, plan, s, step)
    ensures RR.Runs(cfg, plan, s, [step]) && RR.End(cfg, plan, s, [step]) == Apply(cfg, plan, s, step)
  {
    assert [step][1..] == [];
    RR.StepKeeps(cfg, plan, s, step);
    var s' := Apply(cfg, plan, s, step);
    assert RR.Runs(cfg, plan, s', []) && RR.End(cfg, plan, s', []) == s';
  }

  lemma {:induction false} Extend(cfg: QC.Config, plan: Plan, s: State, steps: seq<Step>, step: Step)
    requires plan.WellFormed() && Inv(cfg, plan, s) && RR.Runs(cfg, plan, s, steps)
    requires Enabled(cfg, plan, RR.End(cfg, plan, s, steps), step)
    ensures RR.Runs(cfg, plan, s, steps + [step])
    ensures RR.End(cfg, plan, s, steps + [step]) == Apply(cfg, plan, RR.End(cfg, plan, s, steps), step)
    decreases |steps|
  {
    if steps == [] {
      assert [] + [step] == [step] && [step][1..] == [];
      One(cfg, plan, s, step);
    } else {
      assert (steps + [step])[1..] == steps[1..] + [step];
      RR.StepKeeps(cfg, plan, s, steps[0]);
      Extend(cfg, plan, Apply(cfg, plan, s, steps[0]), steps[1..], step);
    }
  }

  lemma Go(cfg: QC.Config, steps: seq<Step>, step: Step) returns (more: seq<Step>)
    requires RR.IsRun(cfg, TWO_LINKS, steps) && Enabled(cfg, TWO_LINKS, RR.Final(cfg, TWO_LINKS, steps), step)
    ensures RR.IsRun(cfg, TWO_LINKS, more)
    ensures RR.Final(cfg, TWO_LINKS, more) == Apply(cfg, TWO_LINKS, RR.Final(cfg, TWO_LINKS, steps), step)
  {
    RR.InitInv(cfg, TWO_LINKS);
    Extend(cfg, TWO_LINKS, Init(cfg, TWO_LINKS), steps, step);
    more := steps + [step];
  }

  lemma FirstStarts(cfg: QC.Config, s: State)
    requires s == Init(cfg, TWO_LINKS)
    ensures Enabled(cfg, TWO_LINKS, s, StartGroup(0, 0))
    ensures var t := Apply(cfg, TWO_LINKS, s, StartGroup(0, 0));
            t.decide == map[0 := Stage(0, [0], Between([]))] && t.links == NO_LINKS && t.started == {0} && t.c == s.c
  {
  }

  lemma SecondStarts(cfg: QC.Config, s: State)
    requires s.decide == map[0 := Stage(0, [0], Between([]))] && s.links == NO_LINKS && s.started == {0}
    requires s.c == QC.Init(cfg)
    ensures Enabled(cfg, TWO_LINKS, s, StartGroup(1, 1))
    ensures Both(Apply(cfg, TWO_LINKS, s, StartGroup(1, 1)), true, Between([]), Between([]))
  {
  }

  lemma Begins(cfg: QC.Config, s: State)
    requires |s.c.history| == |s.c.tries| && Both(s, true, Between([]), Between([]))
    ensures Enabled(cfg, TWO_LINKS, s, Begin(0))
    ensures var t := Apply(cfg, TWO_LINKS, s, Begin(0));
            && |t.c.history| == |t.c.tries| && Enabled(cfg, TWO_LINKS, t, Begin(1))
            && Both(Apply(cfg, TWO_LINKS, t, Begin(1)), false, AskPath(0), AskPath(1))
  {
    var t := Apply(cfg, TWO_LINKS, s, Begin(0));
    assert t.decide[0] == Stage(0, [], AskPath(0)) && t.decide[1] == s.decide[1];
    assert Apply(cfg, TWO_LINKS, t, Begin(1)).decide[1] == Stage(1, [], AskPath(1));
  }

  lemma Seeks(cfg: QC.Config, s: State)
    requires |s.c.history| == |s.c.tries| && Both(s, false, AskPath(0), AskPath(1))
    ensures Enabled(cfg, TWO_LINKS, s, SeekPath(0))
    ensures var t := Apply(cfg, TWO_LINKS, s, SeekPath(0));
            && |t.c.history| == |t.c.tries| && Enabled(cfg, TWO_LINKS, t, SeekPath(1))
            && Both(Apply(cfg, TWO_LINKS, t, SeekPath(1)), false, AskClaim(0), AskClaim(1))
  {
  }

  lemma Claims(cfg: QC.Config, s: State)
    requires |s.c.history| == |s.c.tries| && Both(s, false, AskClaim(0), AskClaim(1))
    ensures Enabled(cfg, TWO_LINKS, s, ClaimOrLead(0))
    ensures var t := Apply(cfg, TWO_LINKS, s, ClaimOrLead(0));
            && |t.c.history| == |t.c.tries| && Enabled(cfg, TWO_LINKS, t, ClaimOrLead(1))
            && Both(Apply(cfg, TWO_LINKS, t, ClaimOrLead(1)), false, Clearing(0, []), Clearing(1, []))
  {
  }

  lemma TwoLinksWellFormed()
    ensures TWO_LINKS.WellFormed()
  {
    forall g, h, f | g in TWO_LINKS.groups && h in TWO_LINKS.groups && f in TWO_LINKS.groups[g] && f in TWO_LINKS.groups[h]
      ensures g == h
    {
      assert TWO_LINKS.groups[g] == [g] && TWO_LINKS.groups[h] == [h];
    }
  }

  lemma BothLead(s: State)
    requires Both(s, false, Clearing(0, []), Clearing(1, []))
    ensures IsLeader(TWO_LINKS, s, 7, 0) && IsLeader(TWO_LINKS, s, 7, 1)
  {
    assert Own(TWO_LINKS, 0, 7) && Own(TWO_LINKS, 1, 7);
    assert s.decide[0] == Stage(0, [], Clearing(0, [])) && s.decide[1] == Stage(1, [], Clearing(1, []));
    assert AboutToLead(TWO_LINKS, s, 0, 7) && AboutToLead(TWO_LINKS, s, 1, 7);
  }

  /** Two files of one inode, in two groups that two workers decide at once: both come to
      lead their key, and each is compared and fetched on its own. */
  lemma TwoLeaders(cfg: QC.Config) returns (steps: seq<Step>)
    ensures RR.IsRun(cfg, TWO_LINKS, steps)
    ensures var s := RR.Final(cfg, TWO_LINKS, steps); IsLeader(TWO_LINKS, s, 7, 0) && IsLeader(TWO_LINKS, s, 7, 1)
  {
    TwoLinksWellFormed();
    RR.InitInv(cfg, TWO_LINKS);
    steps := [];
    assert RR.IsRun(cfg, TWO_LINKS, steps) && RR.Final(cfg, TWO_LINKS, steps) == Init(cfg, TWO_LINKS);
    FirstStarts(cfg, RR.Final(cfg, TWO_LINKS, steps));
    steps := Go(cfg, steps, StartGroup(0, 0));
    SecondStarts(cfg, RR.Final(cfg, TWO_LINKS, steps));
    steps := Go(cfg, steps, StartGroup(1, 1));
    Begins(cfg, RR.Final(cfg, TWO_LINKS, steps));
    steps := Go(cfg, steps, Begin(0));
    steps := Go(cfg, steps, Begin(1));
    Seeks(cfg, RR.Final(cfg, TWO_LINKS, steps));
    steps := Go(cfg, steps, SeekPath(0));
    steps := Go(cfg, steps, SeekPath(1));
    Claims(cfg, RR.Final(cfg, TWO_LINKS, steps));
    steps := Go(cfg, steps, ClaimOrLead(0));
    steps := Go(cfg, steps, ClaimOrLead(1));
    BothLead(RR.Final(cfg, TWO_LINKS, steps));
  }
}
