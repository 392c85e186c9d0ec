/** The need queue is first in, first out (internal/receiver/queue.go lines 55-157): whatever
    workers do, items leave it in the order in which pushes, fallbacks and requeues put
    them in. */
module QueueOrder {
  import opened NeedQueue
  import opened QueueClients

  /** What a step puts in: a group largest first, a fallback, or an item that a worker
      puts back, one attempt older if the retry is charged. */
  function PutIn(s: Clients, step: Step): seq<NeedItem>
    requires step.RetryBy? || step.ReturnBy? ==> step.w in s.held
  {
    match step
    case GroupPush(items) => LargestFirst(items)
    case FallbackPush(it, _) => [it]
    case RetryBy(w) => [s.held[w].(attempt := s.held[w].attempt + 1)]
    case ReturnBy(w) => [s.held[w]]
    case _ => []
  }

  /** What a worker takes out: the item it then holds. */
  function TakenOut(s: Clients, s': Clients, step: Step): seq<NeedItem> {
    if step.PopBy? && step.w in s'.held then [s'.held[step.w]] else []
  }

  ghost function In(cfg: Config, s: Clients, steps: seq<Step>): seq<NeedItem>
    requires Inv(cfg, s) && Runs(cfg, s, steps)
    decreases |steps|
  {
    if steps == [] then []
    else (StepKeeps(cfg, s, steps[0]); PutIn(s, steps[0]) + In(cfg, Apply(s, steps[0]), steps[1..]))
  }

  ghost function Out(cfg: Config, s: Clients, steps: seq<Step>): seq<NeedItem>
    requires Inv(cfg, s) && Runs(cfg, s, steps)
    decreases |steps|
  {
    if steps == [] then []
    else
      (StepKeeps(cfg, s, steps[0]);
       TakenOut(s, Apply(s, steps[0]), steps[0]) + Out(cfg, Apply(s, steps[0]), steps[1..]))
  }

  /** What was queued and what a step puts in is what it takes out and what is queued. */
  lemma StepInOrder(cfg: Config, s: Clients, step: Step)
    requires Inv(cfg, s) && Enabled(cfg, s, step)
    ensures s.q.items + PutIn(s, step) == TakenOut(s, Apply(s, step), step) + Apply(s, step).q.items
  {
    if step.PopBy? {
      assert s.q.items == [s.q.items[0]] + s.q.items[1..];
    }
  }

  lemma {:induction false} RunInOrder(cfg: Config, s: Clients, steps: seq<Step>)
    requires Inv(cfg, s) && Runs(cfg, s, steps)
    ensures s.q.items + In(cfg, s, steps) == Out(cfg, s, steps) + End(cfg, s, steps).q.items
    decreases |steps|
  {
    if steps == [] {
      assert s.q.items + [] == [] + s.q.items;
    } else {
      var s1 := Apply(s, steps[0]);
      StepKeeps(cfg, s, steps[0]);
      StepInOrder(cfg, s, steps[0]);
      RunInOrder(cfg, s1, steps[1..]);
      Chain(s.q.items, PutIn(s, steps[0]), In(cfg, s1, steps[1..]), TakenOut(s, s1, steps[0]), s1.q.items,
            Out(cfg, s1, steps[1..]), End(cfg, s1, steps[1..]).q.items);
    }
  }

  lemma Chain(a: seq<NeedItem>, b: seq<NeedItem>, c: seq<NeedItem>, d: seq<NeedItem>, e: seq<NeedItem>, f: seq<NeedItem>,
              g: seq<NeedItem>)
    requires a + b == d + e && e + c == f + g
    ensures a + (b + c) == (d + f) + g
  {
    assert a + (b + c) == (a + b) + c;
    assert (d + e) + c == d + (e + c);
    assert d + (f + g) == (d + f) + g;
  }

  /** In every run the items taken out, in order, and then those still queued are the
      items put in, in order. */
  lemma FirstInFirstOut(cfg: Config, steps: seq<Step>)
    requires Runs(cfg, Init(cfg), steps)
    ensures In(cfg, Init(cfg), steps) == Out(cfg, Init(cfg), steps) + End(cfg, Init(cfg), steps).q.items
  {
    RunInOrder(cfg, Init(cfg), steps);
    assert Init(cfg).q.items + In(cfg, Init(cfg), steps) == In(cfg, Init(cfg), steps);
  }
}
