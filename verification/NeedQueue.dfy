/** The receiver's need queue (internal/receiver/queue.go).

    Every method of needQueue is one critical section under the queue's mutex.  The
    functions below give each section's effect on the queue value together with the
    condition variables it broadcasts; the class is the mutable queue, proved against
    them. */
module NeedQueue {
  /** The capacity of the one queue a session makes. */
  const NEED_QUEUE_DEPTH: nat := 4 * 1024

  datatype NeedItem = NeedItem(fileID: nat, groupID: nat, size: int, rel: string, attempt: nat)

  /** `pending` keeps an entry only for a group with unresolved files. */
  datatype Queue = Queue(
    items: seq<NeedItem>,
    capacity: nat,
    inflight: nat,
    closed: bool,
    pushed: nat,
    yielded: nat,
    pending: map<nat, nat>)
  {
    predicate Drained() { closed && items == [] && inflight == 0 }

    function PendingOf(g: nat): nat { if g in pending then pending[g] else 0 }

    /** pushGroup's loop condition, negated: it need not wait. */
    predicate Fits(n: nat) { |items| + n <= capacity || closed }
  }

  /** Which condition variables a critical section broadcasts. */
  datatype Signals = Signals(notEmpty: bool, notFull: bool)

  datatype Effect = Effect(q: Queue, signals: Signals)

  datatype PopResult = Got(item: NeedItem) | NoMore | PopCancelled | PopWait

  datatype PushResult = Pushed | QueueClosed | PushCancelled | PushWait

  function Empty(capacity: nat): Queue {
    Queue([], capacity, 0, false, 0, 0, map[])
  }

  function Minus1(n: nat): nat { if n > 0 then n - 1 else 0 }

  // ---- largest-first order -------------------------------------------------

  function InsertLargest(x: NeedItem, s: seq<NeedItem>): seq<NeedItem> {
    if s == [] || x.size >= s[0].size then [x] + s else [s[0]] + InsertLargest(x, s[1..])
  }

  /** The stable largest-first sort of a group's items. */
  function LargestFirst(s: seq<NeedItem>): seq<NeedItem> {
    if s == [] then [] else InsertLargest(s[0], LargestFirst(s[1..]))
  }

  ghost predicate SortedLargest(s: seq<NeedItem>) {
    forall i, j :: 0 <= i < j < |s| ==> s[i].size >= s[j].size
  }

  /** The items of one size, in order: what a stable sort may not permute. */
  function OfSize(s: seq<NeedItem>, size: int): seq<NeedItem> {
    if s == [] then [] else (if s[0].size == size then [s[0]] else []) + OfSize(s[1..], size)
  }

  lemma {:induction false} InsertLargestPermutes(x: NeedItem, s: seq<NeedItem>)
    ensures multiset(InsertLargest(x, s)) == multiset{x} + multiset(s)
    ensures |InsertLargest(x, s)| == |s| + 1
  {
    if !(s == [] || x.size >= s[0].size) {
      InsertLargestPermutes(x, s[1..]);
      assert s == [s[0]] + s[1..];
    }
  }

  lemma {:induction false} InsertLargestSorted(x: NeedItem, s: seq<NeedItem>)
    requires SortedLargest(s)
    ensures SortedLargest(InsertLargest(x, s))
  {
    if !(s == [] || x.size >= s[0].size) {
      var rest := InsertLargest(x, s[1..]);
      InsertLargestSorted(x, s[1..]);
      InsertLargestPermutes(x, s[1..]);
      forall i | 0 <= i < |rest|
        ensures s[0].size >= rest[i].size
      {
        assert rest[i] in multiset{x} + multiset(s[1..]);
      }
    }
  }

  lemma OfSizeCons(x: NeedItem, s: seq<NeedItem>, size: int)
    ensures OfSize([x] + s, size) == if x.size == size then [x] + OfSize(s, size) else OfSize(s, size)
  {
    assert ([x] + s)[1..] == s;
  }

  lemma {:induction false} InsertLargestStable(x: NeedItem, s: seq<NeedItem>, size: int)
    ensures OfSize(InsertLargest(x, s), size) == if x.size == size then [x] + OfSize(s, size) else OfSize(s, size)
  {
    if s == [] || x.size >= s[0].size {
      OfSizeCons(x, s, size);
    } else {
      InsertLargestStable(x, s[1..], size);
      OfSizeCons(s[0], InsertLargest(x, s[1..]), size);
      OfSizeCons(s[0], s[1..], size);
      assert s == [s[0]] + s[1..];
    }
  }

  lemma {:induction false} LargestFirstPermutes(s: seq<NeedItem>)
    ensures multiset(LargestFirst(s)) == multiset(s) && |LargestFirst(s)| == |s|
  {
    if s != [] {
      LargestFirstPermutes(s[1..]);
      InsertLargestPermutes(s[0], LargestFirst(s[1..]));
      assert s == [s[0]] + s[1..];
    }
  }

  lemma {:induction false} LargestFirstSorted(s: seq<NeedItem>)
    ensures SortedLargest(LargestFirst(s))
  {
    if s != [] {
      LargestFirstSorted(s[1..]);
      InsertLargestSorted(s[0], LargestFirst(s[1..]));
    }
  }

  lemma {:induction false} LargestFirstStable(s: seq<NeedItem>, size: int)
    ensures OfSize(LargestFirst(s), size) == OfSize(s, size)
  {
    if s != [] {
      LargestFirstStable(s[1..], size);
      InsertLargestStable(s[0], LargestFirst(s[1..]), size);
      OfSizeCons(s[0], s[1..], size);
      assert s == [s[0]] + s[1..];
    }
  }

  /** pushGroup's order: a permutation, largest first, and stable. */
  lemma LargestFirstFacts(s: seq<NeedItem>, size: int)
    ensures multiset(LargestFirst(s)) == multiset(s)
    ensures |LargestFirst(s)| == |s|
    ensures SortedLargest(LargestFirst(s))
    ensures OfSize(LargestFirst(s), size) == OfSize(s, size)
  {
    LargestFirstPermutes(s);
    LargestFirstSorted(s);
    LargestFirstStable(s, size);
  }

  // ---- critical sections ---------------------------------------------------

  /** pushGroup once it need not wait and the queue is open. */
  function PushGroup(q: Queue, items: seq<NeedItem>): Effect
    requires items != []
  {
    var sorted := LargestFirst(items);
    LargestFirstFacts(items, 0);
    var g := sorted[0].groupID;
    Effect(q.(items := q.items + sorted,
              pushed := q.pushed + |sorted|,
              pending := q.pending[g := q.PendingOf(g) + |sorted|]),
           Signals(true, false))
  }

  function Requeue(q: Queue, it: NeedItem): Effect {
    Effect(q.(inflight := Minus1(q.inflight), items := q.items + [it]), Signals(true, false))
  }

  function PushFallback(q: Queue, it: NeedItem): Effect {
    Effect(q.(items := q.items + [it],
              pushed := q.pushed + 1,
              pending := q.pending[it.groupID := q.PendingOf(it.groupID) + 1]),
           Signals(true, false))
  }

  function Pop(q: Queue): Effect
    requires q.items != []
  {
    Effect(q.(items := q.items[1..], inflight := q.inflight + 1, yielded := q.yielded + 1),
           Signals(false, true))
  }

  function Done(q: Queue, g: nat): Effect {
    var left := Minus1(q.PendingOf(g));
    var pending := if q.PendingOf(g) == 0 then q.pending
                   else if left == 0 then q.pending - {g} else q.pending[g := left];
    var q' := q.(inflight := Minus1(q.inflight), pending := pending);
    Effect(q', Signals(q'.Drained(), false))
  }

  function Close(q: Queue): Effect {
    Effect(q.(closed := true), Signals(true, true))
  }

  /** One turn of pop's loop under the lock; `ctxErr` is what ctx.Err() shows. */
  function TryPop(q: Queue, ctxErr: bool): PopResult {
    if ctxErr then PopCancelled
    else if q.items != [] then Got(q.items[0])
    else if q.closed && q.inflight == 0 then NoMore
    else PopWait
  }

  /** One turn of pushGroup's loop under the lock for a group of n > 0 items. */
  function TryPush(q: Queue, n: nat, ctxErr: bool): PushResult {
    if !q.Fits(n) then (if ctxErr then PushCancelled else PushWait)
    else if q.closed then QueueClosed
    else Pushed
  }

  // ---- the mutable queue ---------------------------------------------------

  class SharedQueue {
    var items: seq<NeedItem>
    const capacity: nat
    var inflight: nat
    var closed: bool
    var pushed: nat
    var yielded: nat
    var pending: map<nat, nat>

    constructor (capacity: nat)
      ensures View() == Empty(capacity)
    {
      this.capacity := capacity;
      items, inflight, closed, pushed, yielded, pending := [], 0, false, 0, 0, map[];
    }

    function View(): Queue
      reads this
    {
      Queue(items, capacity, inflight, closed, pushed, yielded, pending)
    }

    method TryPushGroup(group: seq<NeedItem>, ctxErr: bool) returns (r: PushResult, s: Signals)
      modifies this
      ensures group == [] ==> r == Pushed && View() == old(View()) && s == Signals(false, false)
      ensures group != [] ==> r == TryPush(old(View()), |group|, ctxErr)
      ensures group != [] && r == Pushed ==> Effect(View(), s) == PushGroup(old(View()), group)
      ensures r != Pushed ==> View() == old(View()) && s == Signals(false, false)
    {
      s := Signals(false, false);
      if |group| == 0 {
        return Pushed, s;
      }
      var sorted := LargestFirst(group);
      LargestFirstFacts(group, 0);
      if |items| + |sorted| > capacity && !closed {
        if ctxErr {
          return PushCancelled, s;
        }
        return PushWait, s;
      }
      if closed {
        return QueueClosed, s;
      }
      items := items + sorted;
      pushed := pushed + |sorted|;
      var g := sorted[0].groupID;
      pending := pending[g := (if g in pending then pending[g] else 0) + |sorted|];
      return Pushed, Signals(true, false);
    }

    method RequeueItem(it: NeedItem) returns (s: Signals)
      modifies this
      ensures Effect(View(), s) == Requeue(old(View()), it)
    {
      if inflight > 0 {
        inflight := inflight - 1;
      }
      items := items + [it];
      s := Signals(true, false);
    }

    method PushFallbackItem(it: NeedItem) returns (s: Signals)
      modifies this
      ensures Effect(View(), s) == PushFallback(old(View()), it)
    {
      items := items + [it];
      pushed := pushed + 1;
      pending := pending[it.groupID := (if it.groupID in pending then pending[it.groupID] else 0) + 1];
      s := Signals(true, false);
    }

    method PopItem(ctxErr: bool) returns (r: PopResult, s: Signals)
      modifies this
      ensures r == TryPop(old(View()), ctxErr)
      ensures r.Got? ==> Effect(View(), s) == Pop(old(View()))
      ensures !r.Got? ==> View() == old(View()) && s == Signals(false, false)
    {
      s := Signals(false, false);
      if ctxErr {
        return PopCancelled, s;
      }
      if |items| > 0 {
        var it := items[0];
        items := items[1..];
        inflight := inflight + 1;
        yielded := yielded + 1;
        return Got(it), Signals(false, true);
      }
      if closed && inflight == 0 {
        return NoMore, s;
      }
      return PopWait, s;
    }

    method DoneItem(g: nat) returns (s: Signals)
      modifies this
      ensures Effect(View(), s) == Done(old(View()), g)
    {
      if inflight > 0 {
        inflight := inflight - 1;
      }
      if g in pending && pending[g] > 0 {
        pending := pending[g := pending[g] - 1];
        if pending[g] == 0 {
          pending := pending - {g};
        }
      }
      s := Signals(|items| == 0 && closed && inflight == 0, false);
      assert pending == Done(old(View()), g).q.pending;
    }

    method CloseQueue() returns (s: Signals)
      modifies this
      ensures Effect(View(), s) == Close(old(View()))
    {
      closed := true;
      s := Signals(true, true);
    }
  }
}
