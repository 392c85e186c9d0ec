/** The receiver drains: a state that has not drained always has a step to make, so
    with the bound on runs every session that is not cut short ends drained
    (internal/receiver/run.go lines 684-743). */
module ReceiverDrain {
  import opened Receiver
  import opened ReceiverTaking
  import opened ReceiverRuns
  import QC = QueueClients

  /** Entries of its group a decide worker still has in hand. */
  function Load(d: Decider): nat { |d.todo| + |Current(d.pc)| + |d.items| }

  ghost predicate Loads(plan: Plan, s: State) {
    forall w :: w in s.decide ==> s.decide[w].group in plan.groups && Load(s.decide[w]) <= |plan.groups[s.decide[w].group]|
  }

  /** A worker's load never grows, and starts as its whole group. */
  predicate Lighter(plan: Plan, s: State, s': State) {
    forall w :: w in s'.decide ==>
      if w in s.decide then s'.decide[w].group == s.decide[w].group && Load(s'.decide[w]) <= Load(s.decide[w])
      else s'.decide[w].group in plan.groups && s'.decide[w] == Decider(s'.decide[w].group, plan.groups[s'.decide[w].group], [], Between([]), "")
  }

  lemma EntriesLighter(cfg: QC.Config, plan: Plan, s: State, step: Step)
    requires |s.c.history| == |s.c.tries| && Enabled(cfg, plan, s, step)
    requires step.StartGroup? || step.Reject? || step.SkipJournalled? || step.Begin? || step.SeekPath? || step.LinkMade?
             || step.LinkRefused? || step.TakeOver? || step.ClaimOrLead?
    ensures Lighter(plan, s, Apply(cfg, plan, s, step))
  {
  }

  lemma WokenLighter(cfg: QC.Config, plan: Plan, s: State, step: Step)
    requires |s.c.history| == |s.c.tries| && Enabled(cfg, plan, s, step) && (step.OrphanFallsBack? || step.DecideLinks?)
    ensures Lighter(plan, s, Apply(cfg, plan, s, step))
  {
  }

  lemma ContentLighter(cfg: QC.Config, plan: Plan, s: State, step: Step)
    requires |s.c.history| == |s.c.tries| && Enabled(cfg, plan, s, step)
    requires step.OrphanFallsBack? || step.DecideLinks? || step.NeedContent? || step.ContentMatches? || step.EndGroup?
             || step.CloseQueue?
    ensures Lighter(plan, s, Apply(cfg, plan, s, step))
  {
    if step.OrphanFallsBack? || step.DecideLinks? {
      WokenLighter(cfg, plan, s, step);
    }
  }

  lemma FetchSame(cfg: QC.Config, plan: Plan, s: State, step: Step)
    requires |s.c.history| == |s.c.tries| && Enabled(cfg, plan, s, step) && ByFetch(step)
    ensures Apply(cfg, plan, s, step).decide == s.decide
  {
  }

  lemma LoadsKept(cfg: QC.Config, plan: Plan, s: State, step: Step)
    requires |s.c.history| == |s.c.tries| && Enabled(cfg, plan, s, step) && Loads(plan, s)
    ensures Loads(plan, Apply(cfg, plan, s, step))
  {
    if ByFetch(step) {
      FetchSame(cfg, plan, s, step);
    } else if step.OrphanFallsBack? || step.DecideLinks? || step.NeedContent? || step.ContentMatches? || step.EndGroup?
              || step.CloseQueue? {
      ContentLighter(cfg, plan, s, step);
    } else {
      EntriesLighter(cfg, plan, s, step);
    }
  }

  lemma {:induction false} RunLoads(cfg: QC.Config, plan: Plan, s: State, steps: seq<Step>)
    requires plan.WellFormed() && Inv(cfg, plan, s) && Runs(cfg, plan, s, steps) && Loads(plan, s)
    ensures Loads(plan, End(cfg, plan, s, steps))
    decreases |steps|
  {
    if steps != [] {
      StepKeeps(cfg, plan, s, steps[0]);
      LoadsKept(cfg, plan, s, steps[0]);
      RunLoads(cfg, plan, Apply(cfg, plan, s, steps[0]), steps[1..]);
    }
  }

  /** There is a fetch worker, and every group fits the queue. */
  ghost predicate Workable(cfg: QC.Config, plan: Plan) {
    cfg.workers != {} && forall g :: g in plan.groups ==> |plan.groups[g]| <= cfg.capacity
  }

  /** The step of a fetch worker that holds an item. */
  function FetchNext(s: State, w: nat): Step
    requires w in s.fetch
  {
    match s.fetch[w]
    case Fetching => PublishItem(w)
    case Linking(rest) => if rest == [] then FinishItem(w) else FetchLinks(w, true, true)
    case Abandoning(rest) => if rest == [] then FinishFailed(w) else FailOrphan(w)
  }

  lemma FetchCanGo(cfg: QC.Config, plan: Plan, s: State, w: nat)
    requires Shape(plan, s) && w in s.fetch
    ensures var step := FetchNext(s, w); Enabled(cfg, plan, s, step) && !step.ReturnItem? && !step.StartGroup?
  {
    assert w in s.c.held.Keys;
  }

  /** The step of a decide worker that does not wait for room in the queue. */
  function DecideNext(s: State, w: nat): Step
    requires w in s.decide
  {
    match s.decide[w].pc
    case Between(rest) => if rest != [] then DecideLinks(w, true, true) else if s.decide[w].todo != [] then Reject(w) else EndGroup(w)
    case AskPath(_) => SeekPath(w)
    case TryLink(_) => LinkMade(w)
    case AskClaim(_) => ClaimOrLead(w)
    case Clearing(_, rest) => if rest != [] then OrphanFallsBack(w, true) else TakeOver(w)
    case Content(_, _) => NeedContent(w)
  }

  lemma DecideCanGo(cfg: QC.Config, plan: Plan, s: State, w: nat)
    requires Shape(plan, s) && Loads(plan, s) && Workable(cfg, plan) && w in s.decide
    requires s.c.q.capacity == cfg.capacity && s.c.q.items == []
    ensures var step := DecideNext(s, w); Enabled(cfg, plan, s, step) && !step.ReturnItem? && !step.StartGroup?
  {
  }

  /** A state that has not drained has a step other than an uncharged requeue. */
  lemma NextStep(cfg: QC.Config, plan: Plan, s: State) returns (step: Step)
    requires Inv(cfg, plan, s) && Loads(plan, s) && Workable(cfg, plan) && !s.c.q.Drained()
    ensures Enabled(cfg, plan, s, step) && !step.ReturnItem? && !step.StartGroup?
  {
    if s.fetch.Keys != {} {
      var w :| w in s.fetch.Keys;
      FetchCanGo(cfg, plan, s, w);
      step := FetchNext(s, w);
    } else if s.c.q.items != [] {
      step := PopNext(cfg, plan, s);
    } else if s.decide.Keys != {} {
      var w :| w in s.decide.Keys;
      DecideCanGo(cfg, plan, s, w);
      step := DecideNext(s, w);
    } else {
      CloseCanGo(cfg, plan, s);
      step := CloseQueue;
    }
  }

  lemma PopNext(cfg: QC.Config, plan: Plan, s: State) returns (step: Step)
    requires Shape(plan, s) && s.fetch.Keys == {} && s.c.q.items != [] && cfg.workers != {}
    ensures Enabled(cfg, plan, s, step) && step.PopItem?
  {
    var w :| w in cfg.workers;
    step := PopItem(w);
    assert w !in s.c.held.Keys && w !in s.fetch.Keys;
  }

  lemma CloseCanGo(cfg: QC.Config, plan: Plan, s: State)
    requires Shape(plan, s) && s.fetch.Keys == {} && s.c.q.items == [] && s.decide.Keys == {} && !s.c.q.Drained()
    requires s.c.q.inflight == |s.c.held|
    ensures Enabled(cfg, plan, s, CloseQueue)
  {
    assert s.decide == map[];
    assert s.c.held == map[];
  }

  /** A session that can go no further has drained. */
  lemma StoppedMeansDrained(cfg: QC.Config, plan: Plan, steps: seq<Step>)
    requires IsRun(cfg, plan, steps) && Workable(cfg, plan)
    requires forall step :: Enabled(cfg, plan, Final(cfg, plan, steps), step) ==> step.ReturnItem?
    ensures Final(cfg, plan, steps).c.q.Drained()
  {
    InitInv(cfg, plan);
    RunLoads(cfg, plan, Init(cfg, plan), steps);
    var s := Final(cfg, plan, steps);
    if !s.c.q.Drained() {
      var step := NextStep(cfg, plan, s);
    }
  }
}
