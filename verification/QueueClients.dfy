/** Everything that may happen to the need queue over a whole session: the
    decide pool pushes groups, a hard-link fallback pushes single items, and
    each fetch worker ends every pop by exactly one done or requeue
    (internal/receiver/queue.go, fetch.go lines 52-137, run.go lines 725-743).

    The state carries, beside the queue value, who holds which popped item and
    the counts the accounting theorems speak about. */
module QueueClients {
  import opened NeedQueue

  datatype Config = Config(maxRetries: nat, capacity: nat, workers: set<nat>)

  /** `history[t]` is the file id of the t-th push and `tries[t]` the number of
      retries charged to it; `returned` counts requeues that charge no retry (a
      lost channel, a cancelled worker). */
  datatype Clients = Clients(
    q: Queue,
    held: map<nat, NeedItem>,
    history: seq<nat>,
    tries: seq<nat>,
    resolved: nat,
    fallbacks: nat,
    retries: nat,
    returned: nat)

  /** A fallback is pushed by a decide worker, or by a fetch worker that
      still holds its own item. */
  datatype Pusher = DecideWorker | FetchWorker(worker: nat)

  datatype Step =
    | GroupPush(items: seq<NeedItem>)
    | FallbackPush(item: NeedItem, pusher: Pusher)
    | PopBy(w: nat)
    | DoneBy(w: nat)
    | RetryBy(w: nat)
    | ReturnBy(w: nat)
    | CloseQueue

  function Init(cfg: Config): (s: Clients)
    ensures Inv(cfg, s)
  {
    assert forall g :: HeldOf(map[], g) == {};
    Clients(Empty(cfg.capacity), map[], [], [], 0, 0, 0, 0)
  }

  predicate Fresh(s: Clients, items: seq<NeedItem>) {
    && (forall i :: 0 <= i < |items| ==> items[i].attempt == 0 && items[i].fileID !in s.history)
    && (forall i, j :: 0 <= i < j < |items| ==> items[i].fileID != items[j].fileID)
  }

  predicate Enabled(cfg: Config, s: Clients, step: Step) {
    match step
    case GroupPush(items) =>
      && items != []
      && TryPush(s.q, |items|, false) == Pushed
      && Fresh(s, items)
      && (forall i :: 0 <= i < |items| ==> items[i].groupID == items[0].groupID)
    case FallbackPush(it, pusher) =>
      && Fresh(s, [it])
      && (pusher.FetchWorker? ==> pusher.worker in s.held)
      && (pusher.DecideWorker? ==> !s.q.closed)
    case PopBy(w) => w in cfg.workers && w !in s.held && TryPop(s.q, false).Got?
    case DoneBy(w) => w in s.held
    case RetryBy(w) => w in s.held && s.held[w].attempt + 1 <= cfg.maxRetries
    case ReturnBy(w) => w in s.held
    case CloseQueue => true
  }

  function Ids(items: seq<NeedItem>): (ids: seq<nat>)
    ensures |ids| == |items| && forall i :: 0 <= i < |ids| ==> ids[i] == items[i].fileID
  {
    seq(|items|, i requires 0 <= i < |items| => items[i].fileID)
  }

  function Zeros(n: nat): (z: seq<nat>)
    ensures |z| == n && forall i :: 0 <= i < n ==> z[i] == 0
  {
    seq(n, i => 0)
  }

  /** Charge one retry to the push of file `id`. */
  function Charge(history: seq<nat>, tries: seq<nat>, id: nat): (r: seq<nat>)
    requires |history| == |tries|
    ensures |r| == |tries|
  {
    if history == [] then []
    else if history[0] == id then [tries[0] + 1] + tries[1..]
    else [tries[0]] + Charge(history[1..], tries[1..], id)
  }

  function Apply(s: Clients, step: Step): Clients
    requires |s.history| == |s.tries|
    requires step.GroupPush? ==> step.items != []
    requires step.PopBy? ==> s.q.items != []
    requires step.DoneBy? || step.RetryBy? || step.ReturnBy? ==> step.w in s.held
  {
    match step
    case GroupPush(items) =>
      s.(q := PushGroup(s.q, items).q,
         history := s.history + Ids(LargestFirst(items)),
         tries := s.tries + Zeros(|LargestFirst(items)|))
    case FallbackPush(it, _) =>
      s.(q := PushFallback(s.q, it).q,
         history := s.history + [it.fileID],
         tries := s.tries + [0],
         fallbacks := s.fallbacks + 1)
    case PopBy(w) =>
      s.(q := Pop(s.q).q, held := s.held[w := s.q.items[0]])
    case DoneBy(w) =>
      s.(q := Done(s.q, s.held[w].groupID).q, held := s.held - {w}, resolved := s.resolved + 1)
    case RetryBy(w) =>
      var it := s.held[w];
      s.(q := Requeue(s.q, it.(attempt := it.attempt + 1)).q,
         held := s.held - {w},
         tries := Charge(s.history, s.tries, it.fileID),
         retries := s.retries + 1)
    case ReturnBy(w) =>
      s.(q := Requeue(s.q, s.held[w]).q, held := s.held - {w}, returned := s.returned + 1)
    case CloseQueue =>
      s.(q := Close(s.q).q)
  }

  // ---- the invariant -------------------------------------------------------

  function Sum(s: seq<nat>): nat {
    if s == [] then 0 else s[0] + Sum(s[1..])
  }

  function CountGroup(items: seq<NeedItem>, g: nat): nat {
    if items == [] then 0 else (if items[0].groupID == g then 1 else 0) + CountGroup(items[1..], g)
  }

  function HeldOf(held: map<nat, NeedItem>, g: nat): set<nat> {
    set w | w in held && held[w].groupID == g
  }

  /** The item was pushed once and carries exactly the retries charged to it. */
  ghost predicate Tracked(s: Clients, it: NeedItem)
    requires |s.history| == |s.tries|
  {
    exists t :: 0 <= t < |s.history| && s.history[t] == it.fileID && s.tries[t] == it.attempt
  }

  /** Single ownership: a file id is queued once or held by one worker, never both. */
  ghost predicate SingleOwner(s: Clients) {
    && (forall i, j :: 0 <= i < j < |s.q.items| ==> s.q.items[i].fileID != s.q.items[j].fileID)
    && (forall v, w :: v in s.held && w in s.held && v != w ==> s.held[v].fileID != s.held[w].fileID)
    && (forall i, w :: 0 <= i < |s.q.items| && w in s.held ==> s.q.items[i].fileID != s.held[w].fileID)
  }

  ghost predicate Pushes(cfg: Config, s: Clients) {
    && |s.history| == |s.tries| == s.q.pushed
    && (forall i, j :: 0 <= i < j < |s.history| ==> s.history[i] != s.history[j])
    && (forall t :: 0 <= t < |s.tries| ==> s.tries[t] <= cfg.maxRetries)
    && s.retries == Sum(s.tries)
    && (forall i :: 0 <= i < |s.q.items| ==> Tracked(s, s.q.items[i]))
    && (forall w :: w in s.held ==> Tracked(s, s.held[w]))
  }

  ghost predicate Counts(cfg: Config, s: Clients) {
    && s.q.capacity == cfg.capacity
    && s.held.Keys <= cfg.workers
    && s.q.inflight == |s.held|
    && s.q.pushed == |s.q.items| + s.q.inflight + s.resolved
    && s.q.yielded == s.resolved + s.retries + s.returned + |s.held|
    && |s.q.items| + |s.held| <= cfg.capacity + |cfg.workers| + s.fallbacks
  }

  ghost predicate PendingExact(s: Clients) {
    && (forall g {:trigger s.q.PendingOf(g)} ::
          s.q.PendingOf(g) == CountGroup(s.q.items, g) + |HeldOf(s.held, g)|)
    && (forall g :: g in s.q.pending ==> s.q.pending[g] > 0)
  }

  ghost predicate Inv(cfg: Config, s: Clients) {
    Pushes(cfg, s) && SingleOwner(s) && Counts(cfg, s) && PendingExact(s)
  }

  // ---- small facts ---------------------------------------------------------

  lemma {:induction false} SumAppend(a: seq<nat>, b: seq<nat>)
    ensures Sum(a + b) == Sum(a) + Sum(b)
  {
    if a == [] {
      assert a + b == b;
    } else {
      SumAppend(a[1..], b);
      assert (a + b)[1..] == a[1..] + b;
    }
  }

  lemma {:induction false} SumZeros(n: nat)
    ensures Sum(Zeros(n)) == 0
  {
    if n > 0 {
      SumZeros(n - 1);
      assert Zeros(n)[1..] == Zeros(n - 1);
    }
  }

  lemma {:induction false} SumBound(s: seq<nat>, m: nat)
    requires forall t :: 0 <= t < |s| ==> s[t] <= m
    ensures Sum(s) <= m * |s|
  {
    if s != [] {
      SumBound(s[1..], m);
      assert m * |s| == m + m * |s[1..]|;
    }
  }

  lemma {:induction false} CountAppend(a: seq<NeedItem>, b: seq<NeedItem>, g: nat)
    ensures CountGroup(a + b, g) == CountGroup(a, g) + CountGroup(b, g)
  {
    if a == [] {
      assert a + b == b;
    } else {
      CountAppend(a[1..], b, g);
      assert (a + b)[1..] == a[1..] + b;
    }
  }

  lemma {:induction false} CountUniform(a: seq<NeedItem>, h: nat, g: nat)
    requires forall i :: 0 <= i < |a| ==> a[i].groupID == h
    ensures CountGroup(a, g) == if g == h then |a| else 0
  {
    if a != [] {
      CountUniform(a[1..], h, g);
    }
  }

  lemma {:induction false} ChargeFacts(history: seq<nat>, tries: seq<nat>, id: nat, t: nat)
    requires |history| == |tries|
    requires t < |history| && history[t] == id
    requires forall i, j :: 0 <= i < j < |history| ==> history[i] != history[j]
    ensures Charge(history, tries, id) == tries[t := tries[t] + 1]
    ensures Sum(Charge(history, tries, id)) == Sum(tries) + 1
  {
    var r := Charge(history, tries, id);
    if t == 0 {
      assert r[1..] == tries[1..];
    } else {
      assert history[0] != history[t];
      ChargeFacts(history[1..], tries[1..], id, t - 1);
      assert r[1..] == Charge(history[1..], tries[1..], id);
    }
  }

  /** Distinct file ids survive pushGroup's reordering. */
  lemma {:induction false} SortedIdsDistinct(items: seq<NeedItem>)
    requires forall i, j :: 0 <= i < j < |items| ==> items[i].fileID != items[j].fileID
    ensures forall i, j :: 0 <= i < j < |LargestFirst(items)| ==>
              LargestFirst(items)[i].fileID != LargestFirst(items)[j].fileID
  {
    if items != [] {
      SortedIdsDistinct(items[1..]);
      LargestFirstFacts(items[1..], 0);
      var rest := LargestFirst(items[1..]);
      forall i | 0 <= i < |rest|
        ensures rest[i].fileID != items[0].fileID
      {
        assert rest[i] in multiset(rest);
        assert rest[i] in items[1..];
      }
      InsertDistinct(items[0], rest);
    }
  }

  lemma {:induction false} InsertDistinct(x: NeedItem, s: seq<NeedItem>)
    requires forall i, j :: 0 <= i < j < |s| ==> s[i].fileID != s[j].fileID
    requires forall i :: 0 <= i < |s| ==> s[i].fileID != x.fileID
    ensures forall i, j :: 0 <= i < j < |InsertLargest(x, s)| ==>
              InsertLargest(x, s)[i].fileID != InsertLargest(x, s)[j].fileID
  {
    if !(s == [] || x.size >= s[0].size) {
      var rest := InsertLargest(x, s[1..]);
      InsertDistinct(x, s[1..]);
      InsertLargestPermutes(x, s[1..]);
      forall i | 0 <= i < |rest|
        ensures rest[i].fileID != s[0].fileID
      {
        assert rest[i] in multiset(rest);
        assert rest[i] == x || rest[i] in s[1..];
      }
    }
  }

  /** What pushGroup appends has the pushed items' ids, group and attempts. */
  lemma SortedMembers(items: seq<NeedItem>, i: nat)
    requires i < |LargestFirst(items)|
    ensures LargestFirst(items)[i] in items
  {
    LargestFirstFacts(items, 0);
    assert LargestFirst(items)[i] in multiset(LargestFirst(items));
  }

  // ---- each step keeps the invariant ---------------------------------------

  lemma TrackedKept(s: Clients, s': Clients, it: NeedItem)
    requires |s.history| == |s.tries| && |s'.history| == |s'.tries|
    requires Tracked(s, it)
    requires |s.history| <= |s'.history|
    requires s'.history[..|s.history|] == s.history && s'.tries[..|s.tries|] == s.tries
    ensures Tracked(s', it)
  {
    var t :| 0 <= t < |s.history| && s.history[t] == it.fileID && s.tries[t] == it.attempt;
    assert s'.history[..|s.history|][t] == it.fileID && s'.tries[..|s.tries|][t] == it.attempt;
    assert s'.history[t] == it.fileID && s'.tries[t] == it.attempt;
  }

  lemma LiveInHistory(cfg: Config, s: Clients)
    requires Pushes(cfg, s)
    ensures forall i :: 0 <= i < |s.q.items| ==> s.q.items[i].fileID in s.history
    ensures forall w :: w in s.held ==> s.held[w].fileID in s.history
  {
    forall i | 0 <= i < |s.q.items|
      ensures s.q.items[i].fileID in s.history
    {
      assert Tracked(s, s.q.items[i]);
    }
    forall w | w in s.held
      ensures s.held[w].fileID in s.history
    {
      assert Tracked(s, s.held[w]);
    }
  }

  /** What pushGroup appends is as fresh as what it was given. */
  lemma SortedFresh(s: Clients, items: seq<NeedItem>)
    requires Fresh(s, items) && forall i :: 0 <= i < |items| ==> items[i].groupID == items[0].groupID
    ensures Fresh(s, LargestFirst(items))
    ensures forall i :: 0 <= i < |LargestFirst(items)| ==> LargestFirst(items)[i].groupID == items[0].groupID
  {
    SortedIdsDistinct(items);
    forall i | 0 <= i < |LargestFirst(items)|
      ensures LargestFirst(items)[i] in items
    {
      SortedMembers(items, i);
    }
  }

  lemma GroupPushPending(s: Clients, s': Clients, sorted: seq<NeedItem>)
    requires PendingExact(s) && sorted != [] && s'.held == s.held
    requires forall i :: 0 <= i < |sorted| ==> sorted[i].groupID == sorted[0].groupID
    requires s'.q.items == s.q.items + sorted
    requires var h := sorted[0].groupID; s'.q.pending == s.q.pending[h := s.q.PendingOf(h) + |sorted|]
    ensures PendingExact(s')
  {
    forall g
      ensures s'.q.PendingOf(g) == CountGroup(s'.q.items, g) + |HeldOf(s'.held, g)|
    {
      assert s.q.PendingOf(g) == CountGroup(s.q.items, g) + |HeldOf(s.held, g)|;
      CountAppend(s.q.items, sorted, g);
      CountUniform(sorted, sorted[0].groupID, g);
    }
  }

  lemma GroupPushKeeps(cfg: Config, s: Clients, items: seq<NeedItem>)
    requires Inv(cfg, s) && Enabled(cfg, s, GroupPush(items))
    ensures Inv(cfg, Apply(s, GroupPush(items)))
  {
    GroupPushOwner(cfg, s, items);
    GroupPushPushes(cfg, s, items);
    GroupPushCounts(cfg, s, items);
    GroupPushExact(cfg, s, items);
  }

  lemma GroupPushOwner(cfg: Config, s: Clients, items: seq<NeedItem>)
    requires Pushes(cfg, s) && SingleOwner(s) && Enabled(cfg, s, GroupPush(items))
    ensures SingleOwner(Apply(s, GroupPush(items)))
  {
    SortedFresh(s, items);
    AppendOwner(cfg, s, Apply(s, GroupPush(items)), LargestFirst(items));
  }

  lemma GroupPushPushes(cfg: Config, s: Clients, items: seq<NeedItem>)
    requires Pushes(cfg, s) && Enabled(cfg, s, GroupPush(items))
    ensures Pushes(cfg, Apply(s, GroupPush(items)))
  {
    SortedFresh(s, items);
    LargestFirstFacts(items, 0);
    AppendPushes(cfg, s, Apply(s, GroupPush(items)), LargestFirst(items));
  }

  lemma GroupPushExact(cfg: Config, s: Clients, items: seq<NeedItem>)
    requires PendingExact(s) && Enabled(cfg, s, GroupPush(items)) && |s.history| == |s.tries|
    ensures PendingExact(Apply(s, GroupPush(items)))
  {
    SortedFresh(s, items);
    LargestFirstFacts(items, 0);
    GroupPushPending(s, Apply(s, GroupPush(items)), LargestFirst(items));
  }

  lemma GroupPushCounts(cfg: Config, s: Clients, items: seq<NeedItem>)
    requires Counts(cfg, s) && Enabled(cfg, s, GroupPush(items)) && |s.history| == |s.tries|
    ensures Counts(cfg, Apply(s, GroupPush(items)))
  {
    LargestFirstFacts(items, 0);
    CardHeld(cfg, s);
  }

  /** Appending fresh, untried, distinct items to the queue. */
  lemma AppendOwner(cfg: Config, s: Clients, s': Clients, more: seq<NeedItem>)
    requires Pushes(cfg, s) && SingleOwner(s) && Fresh(s, more)
    requires s'.held == s.held && s'.q.items == s.q.items + more
    ensures SingleOwner(s')
  {
    LiveInHistory(cfg, s);
  }

  lemma AppendTracked(s: Clients, s': Clients, more: seq<NeedItem>, i: nat)
    requires |s.history| == |s.tries| && i < |more|
    requires forall j :: 0 <= j < |more| ==> more[j].attempt == 0
    requires s'.history == s.history + Ids(more) && s'.tries == s.tries + Zeros(|more|)
    ensures Tracked(s', more[i])
  {
    var t := |s.history| + i;
    assert s'.history[t] == more[i].fileID && s'.tries[t] == 0;
  }

  lemma AppendPushes(cfg: Config, s: Clients, s': Clients, more: seq<NeedItem>)
    requires Pushes(cfg, s) && Fresh(s, more)
    requires s'.held == s.held && s'.q.items == s.q.items + more && s'.q.pushed == s.q.pushed + |more|
    requires s'.history == s.history + Ids(more) && s'.tries == s.tries + Zeros(|more|)
    requires s'.retries == s.retries
    ensures Pushes(cfg, s')
  {
    SumAppend(s.tries, Zeros(|more|));
    SumZeros(|more|);
    forall i | 0 <= i < |s'.q.items|
      ensures Tracked(s', s'.q.items[i])
    {
      if i < |s.q.items| {
        TrackedKept(s, s', s.q.items[i]);
      } else {
        AppendTracked(s, s', more, i - |s.q.items|);
      }
    }
    forall w | w in s'.held
      ensures Tracked(s', s'.held[w])
    {
      TrackedKept(s, s', s.held[w]);
    }
  }

  lemma CardHeld(cfg: Config, s: Clients)
    requires s.held.Keys <= cfg.workers
    ensures |s.held| <= |cfg.workers|
  {
    Card(s.held.Keys, cfg.workers);
  }

  lemma {:induction false} Card<T>(a: set<T>, b: set<T>)
    requires a <= b
    ensures |a| <= |b|
  {
    assert b == a + (b - a);
  }

  lemma FallbackPushKeeps(cfg: Config, s: Clients, it: NeedItem, p: Pusher)
    requires Inv(cfg, s) && Enabled(cfg, s, FallbackPush(it, p))
    ensures Inv(cfg, Apply(s, FallbackPush(it, p)))
  {
    FallbackOwner(cfg, s, it, p);
    FallbackPushes(cfg, s, it, p);
  }

  lemma FallbackOwner(cfg: Config, s: Clients, it: NeedItem, p: Pusher)
    requires Pushes(cfg, s) && SingleOwner(s) && PendingExact(s) && Enabled(cfg, s, FallbackPush(it, p))
    ensures SingleOwner(Apply(s, FallbackPush(it, p))) && PendingExact(Apply(s, FallbackPush(it, p)))
  {
    var s' := Apply(s, FallbackPush(it, p));
    AppendOwner(cfg, s, s', [it]);
    GroupPushPending(s, s', [it]);
  }

  lemma FallbackPushes(cfg: Config, s: Clients, it: NeedItem, p: Pusher)
    requires Pushes(cfg, s) && Enabled(cfg, s, FallbackPush(it, p))
    ensures Pushes(cfg, Apply(s, FallbackPush(it, p)))
  {
    OneId(it);
    AppendPushes(cfg, s, Apply(s, FallbackPush(it, p)), [it]);
  }

  lemma OneId(it: NeedItem)
    ensures Ids([it]) == [it.fileID] && Zeros(1) == [0]
  {
  }

  /** Moving an item into or out of a worker's hands moves it in HeldOf. */
  lemma HeldOfAdd(held: map<nat, NeedItem>, w: nat, it: NeedItem, g: nat)
    requires w !in held
    ensures |HeldOf(held[w := it], g)| == |HeldOf(held, g)| + (if it.groupID == g then 1 else 0)
  {
    assert HeldOf(held[w := it], g) == HeldOf(held, g) + (if it.groupID == g then {w} else {});
  }

  lemma HeldOfRemove(held: map<nat, NeedItem>, w: nat, g: nat)
    requires w in held
    ensures |HeldOf(held, g)| == |HeldOf(held - {w}, g)| + (if held[w].groupID == g then 1 else 0)
  {
    assert HeldOf(held, g) == HeldOf(held - {w}, g) + (if held[w].groupID == g then {w} else {});
  }

  /** Nothing pushed, nothing charged, nothing newly live: pushes stay tracked. */
  lemma SamePushes(cfg: Config, s: Clients, s': Clients)
    requires Pushes(cfg, s)
    requires s'.history == s.history && s'.tries == s.tries && s'.retries == s.retries
    requires s'.q.pushed == s.q.pushed
    requires forall i :: 0 <= i < |s'.q.items| ==> Tracked(s, s'.q.items[i])
    requires forall w :: w in s'.held ==> Tracked(s, s'.held[w])
    ensures Pushes(cfg, s')
  {
    forall i | 0 <= i < |s'.q.items|
      ensures Tracked(s', s'.q.items[i])
    {
      TrackedKept(s, s', s'.q.items[i]);
    }
    forall w | w in s'.held
      ensures Tracked(s', s'.held[w])
    {
      TrackedKept(s, s', s'.held[w]);
    }
  }

  lemma PopPending(s: Clients, s': Clients, w: nat)
    requires PendingExact(s) && s.q.items != [] && w !in s.held && |s.history| == |s.tries|
    requires s' == Apply(s, PopBy(w))
    ensures PendingExact(s')
  {
    forall g
      ensures s'.q.PendingOf(g) == CountGroup(s'.q.items, g) + |HeldOf(s'.held, g)|
    {
      assert s.q.PendingOf(g) == CountGroup(s.q.items, g) + |HeldOf(s.held, g)|;
      HeldOfAdd(s.held, w, s.q.items[0], g);
    }
  }

  lemma PopOwner(s: Clients, s': Clients, w: nat)
    requires SingleOwner(s) && s.q.items != [] && w !in s.held
    requires s'.q.items == s.q.items[1..] && s'.held == s.held[w := s.q.items[0]]
    ensures SingleOwner(s')
  {
  }

  lemma PopKeeps(cfg: Config, s: Clients, w: nat)
    requires Inv(cfg, s) && Enabled(cfg, s, PopBy(w))
    ensures Inv(cfg, Apply(s, PopBy(w)))
  {
    var s' := Apply(s, PopBy(w));
    PopOwner(s, s', w);
    PopPushes(cfg, s, s', w);
    PopCounts(cfg, s, s', w);
    PopPending(s, s', w);
  }

  lemma PopPushes(cfg: Config, s: Clients, s': Clients, w: nat)
    requires Pushes(cfg, s) && s.q.items != [] && s'.q.pushed == s.q.pushed
    requires s'.history == s.history && s'.tries == s.tries && s'.retries == s.retries
    requires s'.q.items == s.q.items[1..] && s'.held == s.held[w := s.q.items[0]]
    ensures Pushes(cfg, s')
  {
    SamePushes(cfg, s, s');
  }

  lemma PopCounts(cfg: Config, s: Clients, s': Clients, w: nat)
    requires Counts(cfg, s) && s.q.items != [] && w !in s.held && w in cfg.workers
    requires s' == s.(q := Pop(s.q).q, held := s.held[w := s.q.items[0]])
    ensures Counts(cfg, s')
  {
    assert s'.held.Keys == s.held.Keys + {w};
  }

  lemma ReleaseFacts(s: Clients, w: nat)
    requires w in s.held
    ensures (s.held - {w}).Keys == s.held.Keys - {w}
    ensures |s.held - {w}| == |s.held| - 1
  {
    assert (s.held - {w}).Keys == s.held.Keys - {w};
    assert |(s.held - {w}).Keys| == |s.held.Keys| - 1;
  }

  lemma DonePending(s: Clients, s': Clients, w: nat)
    requires PendingExact(s) && w in s.held
    requires s'.q == Done(s.q, s.held[w].groupID).q && s'.held == s.held - {w}
    ensures PendingExact(s')
  {
    forall g
      ensures s'.q.PendingOf(g) == CountGroup(s'.q.items, g) + |HeldOf(s'.held, g)|
    {
      assert s.q.PendingOf(g) == CountGroup(s.q.items, g) + |HeldOf(s.held, g)|;
      HeldOfRemove(s.held, w, g);
    }
  }

  lemma DoneKeeps(cfg: Config, s: Clients, w: nat)
    requires Inv(cfg, s) && Enabled(cfg, s, DoneBy(w))
    ensures Inv(cfg, Apply(s, DoneBy(w)))
  {
    var s' := Apply(s, DoneBy(w));
    ReleaseFacts(s, w);
    SamePushes(cfg, s, s');
    DonePending(s, s', w);
  }

  lemma RequeuePending(s: Clients, s': Clients, w: nat, back: NeedItem)
    requires PendingExact(s) && w in s.held && back.groupID == s.held[w].groupID
    requires s'.q == Requeue(s.q, back).q && s'.held == s.held - {w}
    ensures PendingExact(s')
  {
    forall g
      ensures s'.q.PendingOf(g) == CountGroup(s'.q.items, g) + |HeldOf(s'.held, g)|
    {
      assert s.q.PendingOf(g) == CountGroup(s.q.items, g) + |HeldOf(s.held, g)|;
      HeldOfRemove(s.held, w, g);
      CountAppend(s.q.items, [back], g);
      CountUniform([back], back.groupID, g);
    }
  }

  lemma RequeueOwner(s: Clients, s': Clients, w: nat, back: NeedItem)
    requires SingleOwner(s) && w in s.held && back.fileID == s.held[w].fileID
    requires s'.q.items == s.q.items + [back] && s'.held == s.held - {w}
    ensures SingleOwner(s')
  {
  }

  /** A requeue without a charge. */
  lemma ReturnKeeps(cfg: Config, s: Clients, w: nat)
    requires Inv(cfg, s) && Enabled(cfg, s, ReturnBy(w))
    ensures Inv(cfg, Apply(s, ReturnBy(w)))
  {
    var s' := Apply(s, ReturnBy(w));
    ReturnOwner(s, s', w);
    ReturnPushes(cfg, s, s', w);
    ReturnCounts(cfg, s, s', w);
  }

  lemma ReturnOwner(s: Clients, s': Clients, w: nat)
    requires SingleOwner(s) && PendingExact(s) && w in s.held
    requires s'.q == Requeue(s.q, s.held[w]).q && s'.held == s.held - {w}
    ensures SingleOwner(s') && PendingExact(s')
  {
    RequeueOwner(s, s', w, s.held[w]);
    RequeuePending(s, s', w, s.held[w]);
  }

  lemma ReturnPushes(cfg: Config, s: Clients, s': Clients, w: nat)
    requires Pushes(cfg, s) && w in s.held && s'.q.pushed == s.q.pushed
    requires s'.history == s.history && s'.tries == s.tries && s'.retries == s.retries
    requires s'.q.items == s.q.items + [s.held[w]] && s'.held == s.held - {w}
    ensures Pushes(cfg, s')
  {
    SamePushes(cfg, s, s');
  }

  lemma ReturnCounts(cfg: Config, s: Clients, s': Clients, w: nat)
    requires Counts(cfg, s) && w in s.held
    requires s' == s.(q := Requeue(s.q, s.held[w]).q, held := s.held - {w}, returned := s.returned + 1)
    ensures Counts(cfg, s')
  {
    ReleaseFacts(s, w);
  }

  /** A requeue that charges its own item's push and no other. */
  lemma RetryPushes(cfg: Config, s: Clients, w: nat)
    requires Pushes(cfg, s) && SingleOwner(s) && Enabled(cfg, s, RetryBy(w))
    ensures Pushes(cfg, Apply(s, RetryBy(w)))
  {
    var s' := Apply(s, RetryBy(w));
    var it := s.held[w];
    assert Tracked(s, it);
    var t :| 0 <= t < |s.history| && s.history[t] == it.fileID && s.tries[t] == it.attempt;
    ChargeFacts(s.history, s.tries, it.fileID, t);
    RetryTracks(cfg, s, s', w, t);
  }

  lemma RetryTracks(cfg: Config, s: Clients, s': Clients, w: nat, t: nat)
    requires Pushes(cfg, s) && SingleOwner(s) && w in s.held && s.held[w].attempt + 1 <= cfg.maxRetries
    requires t < |s.history| && s.history[t] == s.held[w].fileID && s.tries[t] == s.held[w].attempt
    requires s'.history == s.history && s'.tries == s.tries[t := s.tries[t] + 1] && Sum(s'.tries) == Sum(s.tries) + 1
    requires s'.retries == s.retries + 1 && s'.q.pushed == s.q.pushed && s'.held == s.held - {w}
    requires s'.q.items == s.q.items + [s.held[w].(attempt := s.held[w].attempt + 1)]
    ensures Pushes(cfg, s')
  {
    forall i | 0 <= i < |s'.q.items|
      ensures Tracked(s', s'.q.items[i])
    {
      if i < |s.q.items| {
        OthersTracked(s, s', s.q.items[i], t);
      } else {
        assert s'.history[t] == s.held[w].fileID && s'.tries[t] == s.held[w].attempt + 1;
      }
    }
    forall v | v in s'.held
      ensures Tracked(s', s'.held[v])
    {
      OthersTracked(s, s', s.held[v], t);
    }
  }

  lemma RetryKeeps(cfg: Config, s: Clients, w: nat)
    requires Inv(cfg, s) && Enabled(cfg, s, RetryBy(w))
    ensures Inv(cfg, Apply(s, RetryBy(w)))
  {
    var s' := Apply(s, RetryBy(w));
    var it := s.held[w];
    ReleaseFacts(s, w);
    RetryPushes(cfg, s, w);
    RequeueOwner(s, s', w, it.(attempt := it.attempt + 1));
    RequeuePending(s, s', w, it.(attempt := it.attempt + 1));
  }

  lemma OthersTracked(s: Clients, s': Clients, it: NeedItem, t: nat)
    requires |s.history| == |s.tries| == |s'.tries| && s'.history == s.history
    requires t < |s.history| && s.history[t] != it.fileID
    requires forall u :: 0 <= u < |s.tries| && u != t ==> s'.tries[u] == s.tries[u]
    requires Tracked(s, it)
    ensures Tracked(s', it)
  {
    var u :| 0 <= u < |s.history| && s.history[u] == it.fileID && s.tries[u] == it.attempt;
    assert s'.history[u] == it.fileID && s'.tries[u] == it.attempt;
  }

  lemma StepKeeps(cfg: Config, s: Clients, step: Step)
    requires Inv(cfg, s) && Enabled(cfg, s, step)
    ensures Inv(cfg, Apply(s, step))
  {
    match step
    case GroupPush(items) => GroupPushKeeps(cfg, s, items);
    case FallbackPush(it, p) => FallbackPushKeeps(cfg, s, it, p);
    case PopBy(w) => PopKeeps(cfg, s, w);
    case DoneBy(w) => DoneKeeps(cfg, s, w);
    case RetryBy(w) => RetryKeeps(cfg, s, w);
    case ReturnBy(w) => ReturnKeeps(cfg, s, w);
    case CloseQueue =>
      var s' := Apply(s, step);
      SamePushes(cfg, s, s');
      forall g
        ensures s'.q.PendingOf(g) == CountGroup(s'.q.items, g) + |HeldOf(s'.held, g)|
      {
        assert s.q.PendingOf(g) == CountGroup(s.q.items, g) + |HeldOf(s.held, g)|;
      }
  }

  // ---- whole runs ----------------------------------------------------------

  /** `steps` is a run from `s`: every step is enabled where it is taken. */
  ghost predicate Runs(cfg: Config, s: Clients, steps: seq<Step>)
    requires Inv(cfg, s)
    decreases |steps|
  {
    steps == [] ||
    (Enabled(cfg, s, steps[0]) && (StepKeeps(cfg, s, steps[0]); Runs(cfg, Apply(s, steps[0]), steps[1..])))
  }

  ghost function End(cfg: Config, s: Clients, steps: seq<Step>): (r: Clients)
    requires Inv(cfg, s) && Runs(cfg, s, steps)
    ensures Inv(cfg, r)
    decreases |steps|
  {
    if steps == [] then s
    else (StepKeeps(cfg, s, steps[0]); End(cfg, Apply(s, steps[0]), steps[1..]))
  }

  /** Conservation, at the end of every run of the queue's clients. */
  lemma QueueConserves(cfg: Config, steps: seq<Step>, g: nat)
    requires Runs(cfg, Init(cfg), steps)
    ensures var s := End(cfg, Init(cfg), steps);
            && s.q.pushed == |s.q.items| + s.q.inflight + s.resolved
            && s.q.inflight == |s.held|
            && s.q.PendingOf(g) == CountGroup(s.q.items, g) + |HeldOf(s.held, g)|
            && |s.q.items| + s.q.inflight <= cfg.capacity + |cfg.workers| + s.fallbacks
            && SingleOwner(s)
  {
    var s := End(cfg, Init(cfg), steps);
    assert s.q.PendingOf(g) == CountGroup(s.q.items, g) + |HeldOf(s.held, g)|;
  }

  /** A step from a drained queue leaves it drained. */
  lemma DrainedStep(cfg: Config, s: Clients, step: Step)
    requires Inv(cfg, s) && s.q.Drained() && Enabled(cfg, s, step)
    ensures Apply(s, step).q.Drained()
  {
    assert s.held == map[];
  }

  /** Once drained, drained for the rest of the run. */
  lemma {:induction false} DrainedForever(cfg: Config, s: Clients, steps: seq<Step>)
    requires Inv(cfg, s) && s.q.Drained() && Runs(cfg, s, steps)
    ensures End(cfg, s, steps).q.Drained()
    decreases |steps|
  {
    if steps != [] {
      StepKeeps(cfg, s, steps[0]);
      DrainedStep(cfg, s, steps[0]);
      DrainedForever(cfg, Apply(s, steps[0]), steps[1..]);
    }
  }

  lemma BoundHere(cfg: Config, s: Clients)
    requires Inv(cfg, s)
    ensures forall i :: 0 <= i < |s.q.items| ==> s.q.items[i].attempt <= cfg.maxRetries
    ensures forall w :: w in s.held ==> s.held[w].attempt <= cfg.maxRetries
    ensures s.q.yielded <= (cfg.maxRetries + 1) * s.q.pushed + s.returned
  {
    forall i | 0 <= i < |s.q.items|
      ensures s.q.items[i].attempt <= cfg.maxRetries
    {
      assert Tracked(s, s.q.items[i]);
    }
    forall w | w in s.held
      ensures s.held[w].attempt <= cfg.maxRetries
    {
      assert Tracked(s, s.held[w]);
    }
    SumBound(s.tries, cfg.maxRetries);
    Distribute(cfg.maxRetries, s.q.pushed);
  }

  lemma Distribute(m: nat, n: nat)
    ensures (m + 1) * n == m * n + n
  {
  }

  /** Retries are bounded: no attempt count exceeds the maximum, and the pops of
      any run are bounded by the pushes, the lost channels and the
      cancellations. */
  lemma PopsBounded(cfg: Config, steps: seq<Step>)
    requires Runs(cfg, Init(cfg), steps)
    ensures var s := End(cfg, Init(cfg), steps);
            && (forall i :: 0 <= i < |s.q.items| ==> s.q.items[i].attempt <= cfg.maxRetries)
            && (forall w :: w in s.held ==> s.held[w].attempt <= cfg.maxRetries)
            && s.q.yielded <= (cfg.maxRetries + 1) * s.q.pushed + s.returned
  {
    BoundHere(cfg, End(cfg, Init(cfg), steps));
  }
}
