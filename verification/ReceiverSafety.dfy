/** What every run of the receiver guarantees: no secondary is ever forgotten,
    and once the queue has drained every decided file has exactly one outcome. */
module ReceiverSafety {
  import opened Finite
  import opened Optional
  import opened NeedQueue
  import opened HardlinkMap
  import opened Receiver
  import opened ReceiverInvariant
  import QC = QueueClients

  ghost predicate Side(plan: Plan, s: State) {
    Shape(plan, s) && NobodyForgotten(s) && Primaries(plan, s) && MetaKnown(s) && PushedOnce(s) && Counted(s)
  }

  // ---- parked secondaries and live primaries -------------------------------

  ghost predicate StillLive(s: State, s': State) {
    forall p :: LivePrimary(s, p) ==> LivePrimary(s', p)
  }

  lemma SameLinks(s: State, s': State)
    requires NobodyForgotten(s) && s'.links == s.links && StillLive(s, s')
    ensures NobodyForgotten(s')
  {
    forall k | Claimable(s'.links, k)
      ensures HasLivePrimary(s', k)
    {
      assert HasLivePrimary(s, k);
      var p :| LivePrimary(s, p) && s.links.fileKey[p] == k;
      assert LivePrimary(s', p);
    }
  }

  /** A key loses its path, seen bit and waiters, or gains its path and loses its
      waiters; other keys keep theirs. */
  ghost predicate Settles(h: Links, h': Links, key: nat) {
    && h'.fileKey == h.fileKey
    && h'.Waiting(key) == [] && !Claimable(h', key)
    && (forall k :: k != key ==> h'.Waiting(k) == h.Waiting(k))
    && (forall k :: k != key ==> (Claimable(h', k) <==> Claimable(h, k)))
  }

  lemma MaterialiseSettles(h: Links, f: nat, rel: string)
    requires f in h.fileKey
    ensures Settles(h, Materialise(h, f, rel), h.fileKey[f])
  {
  }

  lemma RetireSettles(h: Links, key: nat)
    ensures Settles(h, Retire(h, key), key)
  {
  }

  /** Settling a key forgets nobody, if primaries of other keys stay live. */
  lemma KeySettled(s: State, s': State, key: nat)
    requires NobodyForgotten(s) && Settles(s.links, s'.links, key)
    requires forall p :: LivePrimary(s, p) && s.links.fileKey[p] != key ==> LivePrimary(s', p)
    ensures NobodyForgotten(s')
  {
    forall k | Claimable(s'.links, k)
      ensures HasLivePrimary(s', k)
    {
      assert HasLivePrimary(s, k);
      var p :| LivePrimary(s, p) && s.links.fileKey[p] == k;
      assert LivePrimary(s', p);
    }
  }

  /** A new primary for a key, live at once. */
  lemma KeyLed(s: State, s': State, f: nat, key: nat)
    requires NobodyForgotten(s) && StillLive(s, s')
    requires s'.links == MarkPrimary(s.links, f, key) && f !in s.links.fileKey
    requires LivePrimary(s', f)
    requires s.links.Waiting(key) == [] || Claimable(s.links, key)
    ensures NobodyForgotten(s')
  {
    assert forall k :: s'.links.Waiting(k) == s.links.Waiting(k);
    assert forall k :: Claimable(s.links, k) ==> Claimable(s'.links, k);
    forall k | Claimable(s'.links, k)
      ensures HasLivePrimary(s', k)
    {
      if k == key {
        assert LivePrimary(s', f) && s'.links.fileKey[f] == k;
      } else {
        assert Claimable(s.links, k);
        assert HasLivePrimary(s, k);
        var p :| LivePrimary(s, p) && s.links.fileKey[p] == k;
        assert LivePrimary(s', p);
      }
    }
  }

  // ---- counting outcomes ---------------------------------------------------

  lemma HavingGains(place: map<nat, Place>, f: nat, p: Place)
    requires f in place && place[f] != p
    ensures |Having(place[f := p], p)| == |Having(place, p)| + 1
  {
    assert Having(place[f := p], p) == Having(place, p) + {f};
  }

  lemma HavingSame(place: map<nat, Place>, place': map<nat, Place>, q: Place)
    requires place.Keys == place'.Keys
    requires forall f :: f in place ==> (place'[f] == q <==> place[f] == q)
    ensures Having(place', q) == Having(place, q)
  {
  }

  /** One file moves from an unresolved place to p; the matching counter moves. */
  lemma CountMove(s: State, s': State, f: nat, p: Place)
    requires Counted(s) && f in s.place && s.place[f].At? && s'.place == s.place[f := p] && p != s.place[f]
    requires s'.filesFailed == s.filesFailed + (if p == Failed then 1 else 0)
    requires s'.filesTransferred == s.filesTransferred + (if p == Published then 1 else 0)
    requires s'.filesRejected == s.filesRejected + (if p == Rejected then 1 else 0)
    ensures Counted(s')
  {
    HavingGains(s.place, f, p);
    if p != Failed { HavingSame(s.place, s'.place, Failed); }
    if p != Published { HavingSame(s.place, s'.place, Published); }
    if p != Rejected { HavingSame(s.place, s'.place, Rejected); }
  }

  /** Files move between unresolved places only. */
  lemma CountSame(s: State, s': State)
    requires Counted(s) && s'.place.Keys == s.place.Keys
    requires forall f :: f in s.place && s'.place[f] != s.place[f] ==>
               (s.place[f].At? || s.place[f] == Undecided) && s'.place[f].At?
    requires s'.filesFailed == s.filesFailed && s'.filesTransferred == s.filesTransferred
             && s'.filesRejected == s.filesRejected
    ensures Counted(s')
  {
    HavingSame(s.place, s'.place, Failed);
    HavingSame(s.place, s'.place, Published);
    HavingSame(s.place, s'.place, Rejected);
  }

  // ---- one file moves ------------------------------------------------------

  /** What a step that moves only file f to p must respect. */
  ghost predicate Allowed(s: State, s': State, f: nat, p: Place) {
    && s'.place == s.place[f := p]
    && s'.links == s.links
    && s.meta <= s'.meta
    && (MayBeFetched(p) ==> f in s'.meta)
    && (f in s.links.fileKey ==> CanHaveLed(p))
    && (LivePrimary(s, f) ==> LivePrimary(s', f))
  }

  lemma FileMoves(plan: Plan, s: State, s': State, f: nat, p: Place)
    requires Side(plan, s) && f in s.place && Allowed(s, s', f, p)
    requires forall v :: v in s'.decide ==> PcAgrees(plan, s', s'.decide[v].pc)
    ensures NobodyForgotten(s') && Primaries(plan, s') && MetaKnown(s')
  {
    assert StillLive(s, s');
    SameLinks(s, s');
  }

  /** The pushes on record, after f moved to p and perhaps was pushed. */
  lemma PushesMove(s: State, s': State, f: nat, p: Place)
    requires PushedOnce(s) && f in s.place && s'.place == s.place[f := p]
    requires s'.c.history == s.c.history || s'.c.history == s.c.history + [f]
    requires f in s'.c.history ==> PushedBefore(p)
    ensures PushedOnce(s')
  {
  }

  // ---- the decide side -----------------------------------------------------

  lemma StartSide(cfg: QC.Config, plan: Plan, s: State, w: nat, g: nat)
    requires Side(plan, s) && Enabled(cfg, plan, s, StartGroup(w, g))
    requires forall i :: 0 <= i < |plan.groups[g]| ==>
               plan.groups[g][i] in s.place && s.place[plan.groups[g][i]] == Undecided
    ensures Side(plan, DoStart(plan, s, w, g))
  {
    var s' := DoStart(plan, s, w, g);
    assert StillLive(s, s');
    SameLinks(s, s');
    CountSame(s, s');
  }

  lemma TakeEntrySide(plan: Plan, s: State, w: nat, p: Place, rejects: nat)
    requires Side(plan, s) && Exact(s) && AtEntry(s, w)
    requires (p == Rejected && rejects == 1) || (p == Skipped && rejects == 0)
    ensures Side(plan, TakeEntry(s, w, p, Between([])).(filesRejected := s.filesRejected + rejects))
  {
    var f := s.decide[w].todo[0];
    var s' := TakeEntry(s, w, p, Between([])).(filesRejected := s.filesRejected + rejects);
    Listed(s, TodoBox(w), f);
    FileMoves(plan, s, s', f, p);
    PushesMove(s, s', f, p);
    CountMove(s, s', f, p);
  }

  lemma TodoIsNew(plan: Plan, s: State, w: nat)
    requires Primaries(plan, s) && Exact(s) && AtEntry(s, w)
    ensures var f := s.decide[w].todo[0]; f in s.place && s.place[f] == At(TodoBox(w)) && f !in s.links.fileKey
  {
    Listed(s, TodoBox(w), s.decide[w].todo[0]);
  }

  lemma BeganSide(plan: Plan, s: State, w: nat)
    requires Side(plan, s) && AtEntry(s, w)
    requires var f := s.decide[w].todo[0]; f in s.place && s.place[f] == At(TodoBox(w)) && f !in s.links.fileKey
    ensures Side(plan, DoBegin(plan, s, w))
  {
    BeginAgrees(plan, s, w);
    Begun(plan, s, DoBegin(plan, s, w), w, s.decide[w].todo[0]);
  }

  lemma BeginSide(plan: Plan, s: State, w: nat)
    requires Side(plan, s) && Exact(s) && AtEntry(s, w)
    ensures Side(plan, DoBegin(plan, s, w))
  {
    TodoIsNew(plan, s, w);
    BeganSide(plan, s, w);
  }

  lemma BeginAgrees(plan: Plan, s: State, w: nat)
    requires Side(plan, s) && AtEntry(s, w) && s.decide[w].todo[0] !in s.links.fileKey
    ensures var s' := DoBegin(plan, s, w); PcAgrees(plan, s', s'.decide[w].pc)
  {
  }

  lemma Begun(plan: Plan, s: State, s': State, w: nat, f: nat)
    requires Side(plan, s) && f in s.place && s.place[f] == At(TodoBox(w)) && f !in s.links.fileKey && w in s.decide
    requires s'.place == s.place[f := At(CurBox(w))] && s'.links == s.links && s'.c == s.c && s'.fetch == s.fetch
    requires s'.meta == s.meta || s'.meta == s.meta + {f}
    requires s'.decide.Keys == s.decide.Keys && PcAgrees(plan, s', s'.decide[w].pc)
    requires forall v :: v in s.decide && v != w ==> s'.decide[v].pc == s.decide[v].pc
    requires s'.filesFailed == s.filesFailed && s'.filesTransferred == s.filesTransferred
             && s'.filesRejected == s.filesRejected
    ensures Side(plan, s')
  {
    forall v | v in s'.decide
      ensures PcAgrees(plan, s', s'.decide[v].pc)
    {
      assert PcAgrees(plan, s, s.decide[v].pc);
    }
    FileMoves(plan, s, s', f, At(CurBox(w)));
    PushesMove(s, s', f, At(CurBox(w)));
    CountMove(s, s', f, At(CurBox(w)));
  }

  /** The pc of w moves on; nothing else changes. */
  lemma PcSide(plan: Plan, s: State, w: nat, pc: DecidePc)
    requires Side(plan, s) && w in s.decide && PcAgrees(plan, s, pc)
    ensures Side(plan, SetPc(s, w, pc))
  {
    var s' := SetPc(s, w, pc);
    assert forall p :: LivePrimary(s, p) ==> LivePrimary(s', p);
    SameLinks(s, s');
  }

  lemma LinkMadeSide(plan: Plan, s: State, w: nat)
    requires Side(plan, s) && Exact(s) && w in s.decide && s.decide[w].pc.TryLink?
    ensures Side(plan, DoLinkMade(s, w))
  {
    var f := s.decide[w].pc.f;
    var s' := DoLinkMade(s, w);
    Listed(s, CurBox(w), f);
    FileMoves(plan, s, s', f, Linked);
    PushesMove(s, s', f, Linked);
    CountMove(s, s', f, Linked);
  }

  lemma HandedMoves(s: State, s': State, moved: seq<nat>, key: nat, a: Actor)
    requires MetaKnown(s) && PushedOnce(s) && Counted(s)
    requires forall f :: f in moved ==> f in s.place && s.place[f] == At(ParkBox(key))
    requires s'.links.fileKey == s.links.fileKey && s'.meta == s.meta && s'.c.history == s.c.history
    requires s'.place == PutAll(s.place, moved, WakeBox(a))
    requires s'.filesFailed == s.filesFailed && s'.filesTransferred == s.filesTransferred
             && s'.filesRejected == s.filesRejected
    ensures StillLive(s, s') && MetaKnown(s') && PushedOnce(s') && Counted(s')
  {
    CountSame(s, s');
  }

  /** Parked secondaries of a key pass to a worker. */
  lemma HandedSide(plan: Plan, s: State, s': State, key: nat, a: Actor)
    requires Side(plan, s) && Exact(s)
    requires s'.links.fileKey == s.links.fileKey && s'.meta == s.meta && s'.c.history == s.c.history
    requires s'.place == Hand(s.place, s.links.Waiting(key), a)
    requires s'.filesFailed == s.filesFailed && s'.filesTransferred == s.filesTransferred
             && s'.filesRejected == s.filesRejected
    ensures StillLive(s, s') && MetaKnown(s') && PushedOnce(s') && Counted(s')
    ensures forall f :: f in s.links.fileKey ==> f in s'.place && CanHaveLed(s'.place[f])
  {
    var moved := LinkIds(s.links.Waiting(key));
    assert moved == Contents(s, ParkBox(key));
    forall f | f in moved
      ensures f in s.place && s.place[f] == At(ParkBox(key))
    {
      Listed(s, ParkBox(key), f);
    }
    HandedMoves(s, s', moved, key, a);
  }

  lemma LinkRefusedSide(plan: Plan, s: State, w: nat, key: nat)
    requires Side(plan, s) && Exact(s) && w in s.decide && s.decide[w].pc.TryLink?
    ensures Side(plan, DoLinkRefused(s, w, key))
  {
    var s' := DoLinkRefused(s, w, key);
    HandedSide(plan, s, s', key, D(w));
    RetireSettles(s.links, key);
    KeySettled(s, s', key);
    assert PcAgrees(plan, s, s.decide[w].pc);
    OtherPcs(plan, s, s', w);
  }

  /** The pcs of decide workers other than w, when fileKey and meta stay. */
  lemma OtherPcs(plan: Plan, s: State, s': State, w: nat)
    requires Primaries(plan, s) && s'.meta == s.meta && s'.links.fileKey == s.links.fileKey
    requires w in s.decide && s'.decide.Keys == s.decide.Keys
    requires forall v :: v in s.decide && v != w ==> s'.decide[v].pc == s.decide[v].pc
    requires PcAgrees(plan, s', s'.decide[w].pc)
    ensures forall v :: v in s'.decide ==> PcAgrees(plan, s', s'.decide[v].pc)
  {
    forall v | v in s'.decide
      ensures PcAgrees(plan, s', s'.decide[v].pc)
    {
      assert PcAgrees(plan, s, s.decide[v].pc);
    }
  }

  lemma LeadSide(plan: Plan, s: State, w: nat, key: nat)
    requires Side(plan, s) && Exact(s) && w in s.decide && s.decide[w].pc.Clearing?
    ensures Side(plan, DoLead(s, w, key))
  {
    var f := s.decide[w].pc.f;
    var s' := DoLead(s, w, key);
    Listed(s, CurBox(w), f);
    assert PcAgrees(plan, s, s.decide[w].pc);
    assert forall p :: LivePrimary(s, p) ==> LivePrimary(s', p);
    KeyLed(s, s', f, key);
    forall v | v in s'.decide
      ensures PcAgrees(plan, s', s'.decide[v].pc)
    {
      if v != w && !s.decide[v].pc.Between? {
        Listed(s, CurBox(v), s.decide[v].pc.f);
        assert PcAgrees(plan, s, s.decide[v].pc);
      }
    }
  }

  lemma ParkSide(plan: Plan, s: State, w: nat, key: nat, rel: string)
    requires Side(plan, s) && Exact(s) && w in s.decide && s.decide[w].pc.AskClaim? && Claimable(s.links, key)
    ensures Side(plan, DoPark(s, w, key, rel))
  {
    var f := s.decide[w].pc.f;
    var s' := DoPark(s, w, key, rel);
    Listed(s, CurBox(w), f);
    assert PcAgrees(plan, s, s.decide[w].pc);
    assert forall k :: k != key ==> s'.links.Waiting(k) == s.links.Waiting(k);
    OtherPcs(plan, s, s', w);
    ParkBooks(plan, s, s', f, key);
  }

  lemma ParkBooks(plan: Plan, s: State, s': State, f: nat, key: nat)
    requires Side(plan, s) && f in s.place && s.place[f].At? && s.place[f].box.CurBox?
    requires f !in s.links.fileKey && f in s.meta && Claimable(s.links, key)
    requires s'.place == s.place[f := At(ParkBox(key))] && s'.c == s.c && s'.meta == s.meta && s'.fetch == s.fetch
    requires s'.links.(pending := s.links.pending) == s.links
    requires forall k :: k != key ==> s'.links.Waiting(k) == s.links.Waiting(k)
    requires s.c.q.closed ==> s'.decide == map[]
    requires forall v :: v in s'.decide ==> PcAgrees(plan, s', s'.decide[v].pc)
    requires s'.filesFailed == s.filesFailed && s'.filesTransferred == s.filesTransferred
             && s'.filesRejected == s.filesRejected
    ensures Side(plan, s')
  {
    Parked(s, s', f, key);
    PushesMove(s, s', f, At(ParkBox(key)));
    CountMove(s, s', f, At(ParkBox(key)));
  }

  lemma Parked(s: State, s': State, f: nat, key: nat)
    requires NobodyForgotten(s) && Claimable(s.links, key) && f !in s.links.fileKey
    requires s'.place == s.place[f := At(ParkBox(key))]
    requires s'.links.(pending := s.links.pending) == s.links
    requires forall k :: k != key ==> s'.links.Waiting(k) == s.links.Waiting(k)
    ensures NobodyForgotten(s')
  {
    assert forall k :: Claimable(s'.links, k) <==> Claimable(s.links, k);
    forall k | Claimable(s'.links, k)
      ensures HasLivePrimary(s', k)
    {
      assert HasLivePrimary(s, k);
      var p :| LivePrimary(s, p) && s.links.fileKey[p] == k;
      assert LivePrimary(s', p);
    }
  }

  lemma NeedSide(plan: Plan, s: State, w: nat)
    requires Side(plan, s) && Exact(s) && w in s.decide && s.decide[w].pc.Content?
    ensures Side(plan, DoNeed(s, w))
  {
    var f := s.decide[w].pc.f;
    var s' := DoNeed(s, w);
    Listed(s, CurBox(w), f);
    FileMoves(plan, s, s', f, At(NeedBox(w)));
    PushesMove(s, s', f, At(NeedBox(w)));
    CountMove(s, s', f, At(NeedBox(w)));
  }

  lemma SkipSide(plan: Plan, s: State, w: nat)
    requires Side(plan, s) && Exact(s) && w in s.decide && s.decide[w].pc.Content? && !s.decide[w].pc.primary
    ensures Side(plan, DoSkip(s, w))
  {
    var f := s.decide[w].pc.f;
    var s' := DoSkip(s, w);
    Listed(s, CurBox(w), f);
    assert PcAgrees(plan, s, s.decide[w].pc);
    FileMoves(plan, s, s', f, Skipped);
    PushesMove(s, s', f, Skipped);
    CountMove(s, s', f, Skipped);
  }

  /** A primary reaches its end in s1: all but its own key's promise holds there. */
  ghost predicate EndsAt(s: State, s1: State, f: nat, p: Place) {
    && f in s.links.fileKey && f in s.place && s.place[f].At?
    && s1.place == s.place[f := p] && p != s.place[f]
    && (p == Skipped || p == Failed || (p.At? && p.box.LandedBox? && f in s.meta))
    && (f in s.c.history ==> PushedBefore(p))
    && s1.links == s.links && s1.meta == s.meta && s1.c == s.c
    && s1.filesFailed == s.filesFailed + (if p == Failed then 1 else 0)
    && s1.filesTransferred == s.filesTransferred && s1.filesRejected == s.filesRejected
  }

  /** s' follows s1 by settling f's key and handing its waiters to a worker. */
  ghost predicate Frees(s1: State, s': State, f: nat, a: Actor)
    requires f in s1.links.fileKey
  {
    var key := s1.links.fileKey[f];
    && Settles(s1.links, s'.links, key)
    && s'.place == Hand(s1.place, s1.links.Waiting(key), a)
    && s'.meta == s1.meta && s'.c == s1.c
    && s'.filesFailed == s1.filesFailed && s'.filesTransferred == s1.filesTransferred
    && s'.filesRejected == s1.filesRejected
  }

  lemma EndedBooks(s: State, s1: State, f: nat, p: Place)
    requires MetaKnown(s) && PushedOnce(s) && Counted(s) && EndsAt(s, s1, f, p)
    ensures MetaKnown(s1) && PushedOnce(s1) && Counted(s1)
  {
    PushesMove(s, s1, f, p);
    CountMove(s, s1, f, p);
  }

  lemma FreedBooks(s1: State, s': State, f: nat, a: Actor)
    requires MetaKnown(s1) && PushedOnce(s1) && Counted(s1) && Exact(s1)
    requires f in s1.links.fileKey && Frees(s1, s', f, a)
    ensures StillLive(s1, s') && MetaKnown(s') && PushedOnce(s') && Counted(s')
    ensures forall g :: g in s1.place && CanHaveLed(s1.place[g]) ==> g in s'.place && s'.place[g] == s1.place[g]
  {
    var key := s1.links.fileKey[f];
    var moved := LinkIds(s1.links.Waiting(key));
    assert moved == Contents(s1, ParkBox(key));
    forall g | g in moved
      ensures g in s1.place && s1.place[g] == At(ParkBox(key))
    {
      Listed(s1, ParkBox(key), g);
    }
    HandedMoves(s1, s', moved, key, a);
  }

  lemma PrimaryEnds(plan: Plan, s: State, s1: State, s': State, f: nat, p: Place, a: Actor)
    requires NobodyForgotten(s) && Primaries(plan, s) && MetaKnown(s) && PushedOnce(s) && Counted(s)
    requires EndsAt(s, s1, f, p) && Exact(s1) && Frees(s1, s', f, a)
    ensures NobodyForgotten(s') && MetaKnown(s') && PushedOnce(s') && Counted(s')
    ensures forall g :: g in s'.links.fileKey ==> g in s'.place && CanHaveLed(s'.place[g])
  {
    EndedBooks(s, s1, f, p);
    FreedBooks(s1, s', f, a);
    assert forall q :: LivePrimary(s, q) && q != f ==> LivePrimary(s1, q);
    KeySettled(s, s', s.links.fileKey[f]);
  }

  /** A primary that is skipped settles its key. */
  lemma SkipEnds(plan: Plan, s: State, w: nat, rel: string)
    requires Primaries(plan, s) && PushedOnce(s) && Exact(s)
    requires w in s.decide && s.decide[w].pc.Content? && s.decide[w].pc.primary
    ensures var f := s.decide[w].pc.f;
            && EndsAt(s, DoSkip(s, w), f, Skipped)
            && Frees(DoSkip(s, w), DoRegister(DoSkip(s, w), w, f, rel), f, D(w))
  {
    var f := s.decide[w].pc.f;
    assert PcAgrees(plan, s, s.decide[w].pc);
    Listed(s, CurBox(w), f);
    MaterialiseSettles(s.links, f, rel);
  }

  lemma RegisterShape(plan: Plan, s: State, w: nat, rel: string)
    requires Shape(plan, s) && Primaries(plan, s)
    requires w in s.decide && s.decide[w].pc.Content? && s.decide[w].pc.f in s.place
    ensures var s' := DoRegister(DoSkip(s, w), w, s.decide[w].pc.f, rel);
            Shape(plan, s') && forall v :: v in s'.decide ==> PcAgrees(plan, s', s'.decide[v].pc)
  {
    OtherPcs(plan, s, DoRegister(DoSkip(s, w), w, s.decide[w].pc.f, rel), w);
  }

  lemma RegisterSide(plan: Plan, s: State, w: nat, rel: string)
    requires Side(plan, s) && Exact(s) && w in s.decide && s.decide[w].pc.Content? && s.decide[w].pc.primary
    ensures Side(plan, DoRegister(DoSkip(s, w), w, s.decide[w].pc.f, rel))
  {
    var f := s.decide[w].pc.f;
    SkipEnds(plan, s, w, rel);
    SkipExact(s, w);
    RegisterShape(plan, s, w, rel);
    PrimaryEnds(plan, s, DoSkip(s, w), DoRegister(DoSkip(s, w), w, f, rel), f, Skipped, D(w));
  }

  /** fetchInstead keeps the books, from a state s1 that differs from s in pcs only. */
  lemma FallsSide(plan: Plan, s: State, s1: State, g: nat, sec: PendingLink, a: Actor, pusher: QC.Pusher, space: bool)
    requires Side(plan, s) && |s.c.history| == |s.c.tries|
    requires sec.fileID in s.place && s.place[sec.fileID] == At(WakeBox(a))
    requires s1.c == s.c && s1.place == s.place && s1.links == s.links && s1.meta == s.meta
    requires s1.filesFailed == s.filesFailed && s1.filesTransferred == s.filesTransferred
             && s1.filesRejected == s.filesRejected
    requires Shape(plan, s1) && Primaries(plan, s1)
    ensures Side(plan, FetchInstead(plan, s1, g, sec, pusher, space))
  {
    var f := sec.fileID;
    var s' := FetchInstead(plan, s1, g, sec, pusher, space);
    assert f !in s.c.history && f !in s.links.fileKey;
    var p := if f in s.meta && space then At(QueueBox) else Failed;
    assert s'.place == s.place[f := p];
    FileMoves(plan, s, s', f, p);
    PushesMove(s, s', f, p);
    CountMove(s, s', f, p);
  }

  lemma OrphanFallsSide(plan: Plan, s: State, w: nat, space: bool)
    requires Side(plan, s) && Exact(s) && |s.c.history| == |s.c.tries|
    requires w in s.decide && s.decide[w].pc.Clearing? && s.decide[w].pc.rest != []
    ensures Side(plan, DoOrphanFalls(plan, s, w, space))
  {
    var d := s.decide[w];
    var s1 := SetPc(s, w, Clearing(d.pc.f, d.pc.rest[1..]));
    Listed(s, WakeBox(D(w)), d.pc.rest[0].fileID);
    assert PcAgrees(plan, s, d.pc);
    PcSide(plan, s, w, Clearing(d.pc.f, d.pc.rest[1..]));
    FallsSide(plan, s, s1, d.group, d.pc.rest[0], D(w), QC.DecideWorker, space);
  }

  lemma DecideLinkSide(plan: Plan, s: State, w: nat, made: bool, space: bool)
    requires Side(plan, s) && Exact(s) && |s.c.history| == |s.c.tries|
    requires w in s.decide && s.decide[w].pc.Between? && s.decide[w].pc.rest != []
    ensures Side(plan, DoDecideLink(plan, s, w, made, space))
  {
    var d := s.decide[w];
    var f := d.pc.rest[0].fileID;
    var s1 := SetPc(s, w, Between(d.pc.rest[1..]));
    Listed(s, WakeBox(D(w)), f);
    PcSide(plan, s, w, Between(d.pc.rest[1..]));
    if made {
      WokenLinked(plan, s, s1.(place := s.place[f := Linked], linked := s.linked[f := d.via]), f);
    } else {
      FallsSide(plan, s, s1, d.group, d.pc.rest[0], D(w), QC.DecideWorker, space);
    }
  }

  /** A woken secondary is linked. */
  lemma WokenLinked(plan: Plan, s: State, s': State, f: nat)
    requires Side(plan, s) && f in s.place && s.place[f].At? && s.place[f].box.WakeBox?
    requires s'.place == s.place[f := Linked] && s'.links == s.links && s'.c == s.c && s'.fetch == s.fetch
    requires s'.meta == s.meta && s'.decide.Keys == s.decide.Keys
    requires forall w :: w in s'.decide ==> PcAgrees(plan, s', s'.decide[w].pc)
    requires s'.filesFailed == s.filesFailed && s'.filesTransferred == s.filesTransferred
             && s'.filesRejected == s.filesRejected
    ensures Side(plan, s')
  {
    FileMoves(plan, s, s', f, Linked);
    PushesMove(s, s', f, Linked);
    CountMove(s, s', f, Linked);
  }

  // ---- the fetch side ------------------------------------------------------

  /** Steps of a fetch worker that move one file and touch neither decide nor links. */
  lemma FetchMoves(plan: Plan, s: State, s': State, f: nat, p: Place)
    requires Side(plan, s) && f in s.place && s.place[f].At? && p != s.place[f]
    requires Allowed(s, s', f, p)
    requires s'.decide == s.decide && s'.meta == s.meta && s'.c.history == s.c.history
    requires s'.c.q.closed == s.c.q.closed && s'.fetch.Keys == s'.c.held.Keys
    requires f in s.c.history ==> PushedBefore(p)
    requires s'.filesFailed == s.filesFailed + (if p == Failed then 1 else 0)
    requires s'.filesTransferred == s.filesTransferred + (if p == Published then 1 else 0)
    requires s'.filesRejected == s.filesRejected && p != Rejected
    ensures Side(plan, s')
  {
    forall v | v in s'.decide
      ensures PcAgrees(plan, s', s'.decide[v].pc)
    {
      assert PcAgrees(plan, s, s.decide[v].pc);
    }
    FileMoves(plan, s, s', f, p);
    PushesMove(s, s', f, p);
    CountMove(s, s', f, p);
  }

  lemma PopSide(plan: Plan, s: State, w: nat)
    requires Side(plan, s) && Exact(s) && |s.c.history| == |s.c.tries| && s.c.q.items != []
    requires w !in s.fetch && w !in s.c.held
    ensures Side(plan, DoPop(s, w))
  {
    var f := s.c.q.items[0].fileID;
    assert QC.Ids(s.c.q.items)[0] == f;
    Listed(s, QueueBox, f);
    FetchMoves(plan, s, DoPop(s, w), f, At(HeldBox(w)));
  }

  lemma RequeueSide(plan: Plan, s: State, w: nat, retry: bool)
    requires Side(plan, s) && Exact(s) && |s.c.history| == |s.c.tries| && Fetches(s, w)
    ensures Side(plan, DoRequeue(s, w, retry))
  {
    var f := s.c.held[w].fileID;
    Listed(s, HeldBox(w), f);
    FetchMoves(plan, s, DoRequeue(s, w, retry), f, At(QueueBox));
  }

  lemma FinishSide(plan: Plan, s: State, w: nat)
    requires Side(plan, s) && Exact(s) && |s.c.history| == |s.c.tries|
    requires w in s.c.held && w in s.fetch && s.fetch[w] == Linking([])
    ensures Side(plan, DoFinish(s, w))
  {
    var f := s.c.held[w].fileID;
    Listed(s, LandedBox(w), f);
    FetchMoves(plan, s, DoFinish(s, w), f, Published);
  }

  lemma FetchLinkSide(plan: Plan, s: State, w: nat, made: bool, space: bool)
    requires Side(plan, s) && Exact(s) && |s.c.history| == |s.c.tries| && w in s.c.held
    requires w in s.fetch && s.fetch[w].Linking? && s.fetch[w].rest != []
    ensures Side(plan, DoFetchLink(plan, s, w, made, space))
  {
    var rest := s.fetch[w].rest;
    var f := rest[0].fileID;
    var s1 := s.(fetch := s.fetch[w := Linking(rest[1..])]);
    Listed(s, WakeBox(F(w)), f);
    if made {
      FetchMoves(plan, s, DoFetchLink(plan, s, w, made, space), f, Linked);
    } else {
      assert forall v :: v in s.decide && PcAgrees(plan, s, s.decide[v].pc) ==> PcAgrees(plan, s1, s.decide[v].pc);
      FallsSide(plan, s, s1, s.c.held[w].groupID, rest[0], F(w), QC.FetchWorker(w), space);
    }
  }

  lemma FailOrphanSide(plan: Plan, s: State, w: nat)
    requires Side(plan, s) && Exact(s) && w in s.fetch && s.fetch[w].Abandoning? && s.fetch[w].rest != []
    ensures Side(plan, DoFailOrphan(s, w))
  {
    var f := s.fetch[w].rest[0].fileID;
    Listed(s, WakeBox(F(w)), f);
    FetchMoves(plan, s, DoFailOrphan(s, w), f, Failed);
  }

  /** The pcs of decide workers, when only the map's waiters and paths changed. */
  lemma PcsKept(plan: Plan, s: State, s': State)
    requires Primaries(plan, s) && s'.decide == s.decide && s'.meta == s.meta
    requires s'.links.fileKey == s.links.fileKey
    ensures forall v :: v in s'.decide ==> PcAgrees(plan, s', s'.decide[v].pc)
  {
    forall v | v in s'.decide
      ensures PcAgrees(plan, s', s'.decide[v].pc)
    {
      assert PcAgrees(plan, s, s.decide[v].pc);
    }
  }

  lemma HeldPlace(s: State, w: nat)
    requires Exact(s) && Fetches(s, w)
    ensures s.c.held[w].fileID in s.place && s.place[s.c.held[w].fileID] == At(HeldBox(w))
  {
    assert s.c.held[w].fileID in Contents(s, HeldBox(w));
    Listed(s, HeldBox(w), s.c.held[w].fileID);
  }

  lemma PublishFacts(s: State, w: nat, f: nat, rel: string)
    requires MetaKnown(s) && w in s.c.held && f == s.c.held[w].fileID && f in s.links.fileKey
    requires f in s.place && s.place[f] == At(HeldBox(w))
    ensures EndsAt(s, DoPublish(s, w), f, At(LandedBox(w)))
    ensures Frees(DoPublish(s, w), DoRegisterFetched(DoPublish(s, w), w, f, rel), f, F(w))
  {
    MaterialiseSettles(s.links, f, rel);
  }

  lemma GiveUpFacts(s: State, w: nat, f: nat)
    requires w in s.c.held && f == s.c.held[w].fileID && f in s.links.fileKey
    requires f in s.place && s.place[f] == At(HeldBox(w))
    ensures EndsAt(s, DoGiveUp(s, w), f, Failed)
    ensures Frees(DoGiveUp(s, w), DoAbandon(DoGiveUp(s, w), w, f), f, F(w))
  {
    RetireSettles(s.links, s.links.fileKey[f]);
  }

  /** A primary in flight ends: only its own worker's pc, its place and the map move. */
  lemma FetchedPrimaryEnds(plan: Plan, s: State, s1: State, s': State, w: nat, f: nat, p: Place)
    requires Side(plan, s) && EndsAt(s, s1, f, p) && Exact(s1) && Frees(s1, s', f, F(w))
    requires s'.decide == s.decide && s'.fetch.Keys == s.fetch.Keys
    ensures Side(plan, s')
  {
    PrimaryEnds(plan, s, s1, s', f, p, F(w));
    PcsKept(plan, s, s');
  }

  lemma PublishedPrimary(plan: Plan, s: State, w: nat, rel: string)
    requires Side(plan, s) && Exact(s) && Fetches(s, w)
    requires s.c.held[w].fileID in s.links.fileKey
    ensures Side(plan, DoRegisterFetched(DoPublish(s, w), w, s.c.held[w].fileID, rel))
  {
    var f := s.c.held[w].fileID;
    var s1 := DoPublish(s, w);
    HeldPlace(s, w);
    PublishExact(s, w);
    PublishFacts(s, w, f, rel);
    FetchedPrimaryEnds(plan, s, s1, DoRegisterFetched(s1, w, f, rel), w, f, At(LandedBox(w)));
  }

  lemma PublishSide(plan: Plan, s: State, w: nat, rel: string)
    requires Side(plan, s) && Exact(s) && Fetches(s, w)
    ensures Side(plan, DoRegisterFetched(DoPublish(s, w), w, s.c.held[w].fileID, rel))
  {
    var f := s.c.held[w].fileID;
    if f in s.links.fileKey {
      PublishedPrimary(plan, s, w, rel);
    } else {
      var s' := DoRegisterFetched(DoPublish(s, w), w, f, rel);
      HeldPlace(s, w);
      assert s'.place == s.place[f := At(LandedBox(w))];
      FetchMoves(plan, s, s', f, At(LandedBox(w)));
    }
  }

  lemma FailedPrimary(plan: Plan, s: State, w: nat)
    requires Side(plan, s) && Exact(s) && Fetches(s, w)
    requires s.c.held[w].fileID in s.links.fileKey
    ensures Side(plan, DoAbandon(DoGiveUp(s, w), w, s.c.held[w].fileID))
  {
    var f := s.c.held[w].fileID;
    var s1 := DoGiveUp(s, w);
    HeldPlace(s, w);
    GiveUpExact(s, w);
    GiveUpFacts(s, w, f);
    FetchedPrimaryEnds(plan, s, s1, DoAbandon(s1, w, f), w, f, Failed);
  }

  lemma GiveUpSide(plan: Plan, s: State, w: nat)
    requires Side(plan, s) && Exact(s) && Fetches(s, w)
    ensures Side(plan, DoAbandon(DoGiveUp(s, w), w, s.c.held[w].fileID))
  {
    var f := s.c.held[w].fileID;
    if f in s.links.fileKey {
      FailedPrimary(plan, s, w);
    } else {
      var s' := DoAbandon(DoGiveUp(s, w), w, f);
      HeldPlace(s, w);
      assert s'.place == s.place[f := Failed];
      FetchMoves(plan, s, s', f, Failed);
    }
  }

  // ---- queue events --------------------------------------------------------

  /** A waking secondary was never pushed, so its fallback push is accepted. */
  lemma FallbackAccepted(cfg: QC.Config, plan: Plan, s: State, it: NeedItem, a: Actor)
    requires Side(plan, s) && it.attempt == 0
    requires it.fileID in s.place && s.place[it.fileID] == At(WakeBox(a))
    requires if a.D? then a.w in s.decide else a.w in s.c.held
    ensures QC.Enabled(cfg, s.c, QC.FallbackPush(it, if a.D? then QC.DecideWorker else QC.FetchWorker(a.w)))
  {
  }

  /** A group's needed entries were never pushed, so the group push is accepted. */
  lemma GroupAccepted(cfg: QC.Config, plan: Plan, s: State, w: nat)
    requires Side(plan, s) && Exact(s) && w in s.decide && s.decide[w].items != []
    requires TryPush(s.c.q, |s.decide[w].items|, false) == Pushed
    ensures QC.Enabled(cfg, s.c, QC.GroupPush(ItemsOf(plan, s.decide[w].group, s.decide[w].items)))
  {
    var d := s.decide[w];
    var items := ItemsOf(plan, d.group, d.items);
    var c := b => Contents(s, b);
    assert ExactIn(c, s.place) && c(NeedBox(w)) == d.items;
    assert Distinct(c(NeedBox(w)));
    forall i | 0 <= i < |items|
      ensures items[i].fileID !in s.c.history
    {
      assert d.items[i] in Contents(s, NeedBox(w));
      Listed(s, NeedBox(w), d.items[i]);
    }
  }

  // ---- who is handed over --------------------------------------------------

  /** The secondaries of one key, and no other file, went from the map to an actor. */
  ghost predicate HandedOver(s: State, t: State, key: nat, actor: Actor) {
    && t.links.Waiting(key) == []
    && (forall k :: k != key ==> t.links.Waiting(k) == s.links.Waiting(k))
    && Contents(t, WakeBox(actor)) == Contents(s, ParkBox(key))
    && (forall f :: f in s.place && f in Contents(s, ParkBox(key)) ==> f in t.place && t.place[f] == At(WakeBox(actor)))
  }

  ghost predicate OthersStay(s: State, t: State, key: nat, p: nat) {
    forall f :: f in s.place && f != p && f !in Contents(s, ParkBox(key)) ==> f in t.place && t.place[f] == s.place[f]
  }

  /** A refused link takes the key off the map, and its worker gets every secondary that
      was parked on it. */
  lemma RefusedHandsOver(s: State, w: nat, key: nat)
    requires w in s.decide && s.decide[w].pc.TryLink?
    ensures var t := DoLinkRefused(s, w, key);
            && key !in t.links.seen && PathFor(t.links, key) == None
            && HandedOver(s, t, key, D(w)) && OthersStay(s, t, key, s.decide[w].pc.f)
  {
  }

  /** The worker that publishes a primary gets every secondary parked on its key, and the
      key gets its first path. */
  lemma PublishHandsOver(s: State, w: nat, rel: string)
    requires Exact(s) && Fetches(s, w) && s.c.held[w].fileID in s.links.fileKey
    ensures var f := s.c.held[w].fileID;
            var key := s.links.fileKey[f];
            var t := DoRegisterFetched(DoPublish(s, w), w, f, rel);
            && PathFor(t.links, key) == Some(if key in s.links.keyToPath then s.links.keyToPath[key] else rel)
            && HandedOver(s, t, key, F(w)) && OthersStay(s, t, key, f)
  {
    HeldIsNotParked(s, w, s.links.fileKey[s.c.held[w].fileID]);
  }

  /** The worker that gives a primary up gets every secondary parked on its key, and the
      key is free for another primary. */
  lemma GiveUpHandsOver(s: State, w: nat)
    requires Exact(s) && Fetches(s, w) && s.c.held[w].fileID in s.links.fileKey
    ensures var f := s.c.held[w].fileID;
            var key := s.links.fileKey[f];
            var t := DoAbandon(DoGiveUp(s, w), w, f);
            && key !in t.links.seen && PathFor(t.links, key) == None
            && HandedOver(s, t, key, F(w)) && OthersStay(s, t, key, f)
  {
    HeldIsNotParked(s, w, s.links.fileKey[s.c.held[w].fileID]);
  }

  lemma HeldIsNotParked(s: State, w: nat, key: nat)
    requires Exact(s) && Fetches(s, w)
    ensures s.c.held[w].fileID !in Contents(s, ParkBox(key))
  {
    assert s.c.held[w].fileID in Contents(s, HeldBox(w));
    Listed(s, HeldBox(w), s.c.held[w].fileID);
    if s.c.held[w].fileID in Contents(s, ParkBox(key)) {
      Listed(s, ParkBox(key), s.c.held[w].fileID);
    }
  }
}
