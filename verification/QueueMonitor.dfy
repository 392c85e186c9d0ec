/** The need queue as a monitor (internal/receiver/queue.go): goroutines inside
    pop, pushGroup and waitDrained wait on two condition variables and are woken
    only by the broadcasts the critical sections make.  A context may be
    cancelled at any time; the goroutine that turns the cancellation into a
    broadcast runs later, on its own. */
module QueueMonitor {
  import opened NeedQueue

  datatype Call = InPop | InPush(group: seq<NeedItem>) | InWaitDrained

  /** `notice` holds from the cancellation of the call's context until its
      AfterFunc has made its broadcast. */
  datatype Goroutine = Goroutine(call: Call, parked: bool, cancelled: bool, notice: bool)

  datatype Monitor = Monitor(q: Queue, gs: map<nat, Goroutine>)

  datatype Step =
    | Enter(t: nat, call: Call, cancelled: bool)
    | Turn(t: nat, ctxErr: bool)           // one turn of the call's loop, under the lock
    | Cancel(t: nat)
    | Notice(t: nat)                       // the AfterFunc's broadcast
    | RequeueOp(item: NeedItem)
    | FallbackOp(item: NeedItem)
    | DoneOp(g: nat)
    | CloseOp
    | LateNotice(signals: Signals)         // an AfterFunc of a call that already returned

  function Init(capacity: nat): Monitor { Monitor(Empty(capacity), map[]) }

  /** The condition on which the call would leave its wait loop. */
  predicate Ready(q: Queue, call: Call) {
    match call
    case InPop => q.items != [] || (q.closed && q.inflight == 0)
    case InPush(group) => q.Fits(|group|)
    case InWaitDrained => q.Drained()
  }

  predicate WaitsOnNotFull(call: Call) { call.InPush? }

  function Wake(gs: map<nat, Goroutine>, s: Signals): map<nat, Goroutine> {
    map t | t in gs ::
      if (if WaitsOnNotFull(gs[t].call) then s.notFull else s.notEmpty)
      then gs[t].(parked := false) else gs[t]
  }

  function Do(m: Monitor, e: Effect): Monitor {
    Monitor(e.q, Wake(m.gs, e.signals))
  }

  function Leave(m: Monitor, t: nat): Monitor { m.(gs := m.gs - {t}) }

  function Park(m: Monitor, t: nat): Monitor
    requires t in m.gs
  {
    m.(gs := m.gs[t := m.gs[t].(parked := true)])
  }

  /** A turn may miss a cancellation only if its broadcast is still to come:
      the AfterFunc needs the lock that the turn holds. */
  predicate Enabled(m: Monitor, step: Step) {
    match step
    case Enter(t, call, _) => t !in m.gs && (call.InPush? ==> call.group != [])
    case Turn(t, ctxErr) =>
      && t in m.gs && !m.gs[t].parked
      && (m.gs[t].call.InPush? ==> m.gs[t].call.group != [])
      && (ctxErr ==> m.gs[t].cancelled)
      && (!ctxErr ==> !m.gs[t].cancelled || m.gs[t].notice)
    case Cancel(t) => t in m.gs && !m.gs[t].cancelled
    case Notice(t) => t in m.gs && m.gs[t].notice
    case _ => true
  }

  function Apply(m: Monitor, step: Step): Monitor
    requires Enabled(m, step)
  {
    match step
    case Enter(t, call, c) => m.(gs := m.gs[t := Goroutine(call, false, c, c)])
    case Turn(t, ctxErr) =>
      (match m.gs[t].call
       case InPop =>
         (match TryPop(m.q, ctxErr)
          case Got(_) => Leave(Do(m, Pop(m.q)), t)
          case PopWait => Park(m, t)
          case _ => Leave(m, t))
       case InPush(group) =>
         (match TryPush(m.q, |group|, ctxErr)
          case Pushed => Leave(Do(m, PushGroup(m.q, group)), t)
          case PushWait => Park(m, t)
          case _ => Leave(m, t))
       case InWaitDrained =>
         if ctxErr || m.q.Drained() then Leave(m, t) else Park(m, t))
    case Cancel(t) => m.(gs := m.gs[t := m.gs[t].(cancelled := true, notice := true)])
    case Notice(t) =>
      var gs := m.gs[t := m.gs[t].(notice := false)];
      m.(gs := Wake(gs, if WaitsOnNotFull(gs[t].call) then Signals(false, true) else Signals(true, false)))
    case RequeueOp(it) => Do(m, Requeue(m.q, it))
    case FallbackOp(it) => Do(m, PushFallback(m.q, it))
    case DoneOp(g) => Do(m, Done(m.q, g))
    case CloseOp => Do(m, Close(m.q))
    case LateNotice(s) => m.(gs := Wake(m.gs, s))
  }

  /** Nobody sleeps through its own condition: a parked call is not ready, and if
      its context is cancelled then the waking broadcast is still to come. */
  ghost predicate NoLostWakeup(m: Monitor) {
    forall t :: t in m.gs && m.gs[t].parked ==>
      !Ready(m.q, m.gs[t].call) && (m.gs[t].cancelled ==> m.gs[t].notice)
  }

  lemma PopEffect(q: Queue, call: Call)
    requires q.items != [] && !Ready(q, call)
    requires !WaitsOnNotFull(call)
    ensures !Ready(Pop(q).q, call)
  {
  }

  lemma PushEffect(q: Queue, group: seq<NeedItem>, call: Call)
    requires group != [] && !Ready(q, call) && WaitsOnNotFull(call)
    ensures !Ready(PushGroup(q, group).q, call)
  {
    LargestFirstFacts(group, 0);
  }

  lemma TurnKeeps(m: Monitor, t: nat, ctxErr: bool)
    requires NoLostWakeup(m) && Enabled(m, Turn(t, ctxErr))
    ensures NoLostWakeup(Apply(m, Turn(t, ctxErr)))
  {
    var call := m.gs[t].call;
    var m' := Apply(m, Turn(t, ctxErr));
    forall u | u in m'.gs && m'.gs[u].parked
      ensures !Ready(m'.q, m'.gs[u].call) && (m'.gs[u].cancelled ==> m'.gs[u].notice)
    {
      if u != t && call.InPop? && TryPop(m.q, ctxErr).Got? {
        PopEffect(m.q, m.gs[u].call);
      }
      if u != t && call.InPush? && TryPush(m.q, |call.group|, ctxErr) == Pushed {
        PushEffect(m.q, call.group, m.gs[u].call);
      }
    }
  }

  lemma StepKeeps(m: Monitor, step: Step)
    requires NoLostWakeup(m) && Enabled(m, step)
    ensures NoLostWakeup(Apply(m, step))
  {
    match step
    case Turn(t, ctxErr) => TurnKeeps(m, t, ctxErr);
    case _ =>
  }

  ghost predicate Runs(m: Monitor, steps: seq<Step>)
    decreases |steps|
  {
    steps == [] || (Enabled(m, steps[0]) && Runs(Apply(m, steps[0]), steps[1..]))
  }

  ghost function End(m: Monitor, steps: seq<Step>): Monitor
    requires Runs(m, steps)
    decreases |steps|
  {
    if steps == [] then m else End(Apply(m, steps[0]), steps[1..])
  }

  lemma {:induction false} RunKeeps(m: Monitor, steps: seq<Step>)
    requires NoLostWakeup(m) && Runs(m, steps)
    ensures NoLostWakeup(End(m, steps))
    ensures End(m, steps).q.capacity == m.q.capacity
    decreases |steps|
  {
    if steps != [] {
      StepKeeps(m, steps[0]);
      RunKeeps(Apply(m, steps[0]), steps[1..]);
    }
  }

  /** No wakeup is ever lost, in any run. */
  lemma NeverLost(capacity: nat, steps: seq<Step>)
    requires Runs(Init(capacity), steps)
    ensures NoLostWakeup(End(Init(capacity), steps))
  {
    RunKeeps(Init(capacity), steps);
  }

  /** Backpressure cannot deadlock: while a pushGroup waits with a group that can
      ever fit, pop has an item to give. */
  lemma BlockedPushMeansPop(capacity: nat, steps: seq<Step>, t: nat)
    requires Runs(Init(capacity), steps)
    requires var m := End(Init(capacity), steps);
             t in m.gs && m.gs[t].parked && m.gs[t].call.InPush? && |m.gs[t].call.group| <= capacity
    ensures TryPop(End(Init(capacity), steps).q, false).Got?
  {
    RunKeeps(Init(capacity), steps);
  }

  /** The queue is not closed and t's context not cancelled during the run. */
  predicate Undisturbed(steps: seq<Step>, t: nat) {
    forall i :: 0 <= i < |steps| ==> steps[i] != CloseOp && steps[i] != Cancel(t)
  }

  lemma OversizeStays(m: Monitor, step: Step, t: nat)
    requires Enabled(m, step) && step != CloseOp && step != Cancel(t)
    requires t in m.gs && m.gs[t].call.InPush? && |m.gs[t].call.group| > m.q.capacity
    requires !m.q.closed && !m.gs[t].cancelled
    ensures var m' := Apply(m, step);
            && t in m'.gs && m'.gs[t].call == m.gs[t].call && !m'.gs[t].cancelled
            && m'.q.capacity == m.q.capacity && !m'.q.closed
  {
  }

  /** The bound is needed: in every run, a pushGroup with a larger group never gets in,
      however empty the queue becomes, until the queue is closed or its context is
      cancelled. */
  lemma {:induction false} OversizePushNeverReturns(m: Monitor, steps: seq<Step>, t: nat)
    requires Runs(m, steps) && Undisturbed(steps, t)
    requires t in m.gs && m.gs[t].call.InPush? && |m.gs[t].call.group| > m.q.capacity
    requires !m.q.closed && !m.gs[t].cancelled
    ensures var m' := End(m, steps); t in m'.gs && m'.gs[t].call == m.gs[t].call
    decreases |steps|
  {
    if steps != [] {
      OversizeStays(m, steps[0], t);
      OversizePushNeverReturns(Apply(m, steps[0]), steps[1..], t);
    }
  }
}
