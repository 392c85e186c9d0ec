/** Every step of the receiver keeps the accounting invariant. */
module ReceiverInvariant {
  import opened Finite
  import opened NeedQueue
  import opened HardlinkMap
  import opened Receiver
  import QC = QueueClients

  // ---- moving files between places -----------------------------------------

  /** No file is listed in two places. */
  lemma OnePlace(c: Box -> seq<nat>, place: map<nat, Place>, a: Box, b: Box, f: nat)
    requires ExactIn(c, place) && a != b && f in c(a)
    ensures f !in c(b)
  {
    assert f in c(b) ==> f in place;
    assert f in place ==> place[f] == At(a);
  }

  lemma DistinctAppend(a: seq<nat>, b: seq<nat>)
    requires Distinct(a) && Distinct(b)
    requires forall f :: f in b ==> f !in a
    ensures Distinct(a + b)
  {
    forall i, j | 0 <= i < j < |a + b|
      ensures (a + b)[i] != (a + b)[j]
    {
      if i < |a| <= j {
        assert b[j - |a|] in b && a[i] in a;
      }
    }
  }

  /** The head of one place moves to the end of another, or to an outcome. */
  lemma MoveHead(c: Box -> seq<nat>, c': Box -> seq<nat>, place: map<nat, Place>, a: Box, p: Place)
    requires ExactIn(c, place) && c(a) != []
    requires p != At(a)
    requires c'(a) == c(a)[1..]
    requires p.At? ==> c'(p.box) == c(p.box) + [c(a)[0]]
    requires forall b :: b != a && p != At(b) ==> c'(b) == c(b)
    ensures ExactIn(c', place[c(a)[0] := p])
  {
    var f := c(a)[0];
    assert f in c(a) && c(a) == [f] + c'(a);
    assert Distinct(c(a));
    if p.At? {
      OnePlace(c, place, a, p.box, f);
      assert Distinct(c(p.box));
      DistinctAppend(c(p.box), [f]);
    }
    forall b
      ensures Distinct(c'(b))
    {
      assert Distinct(c(b));
    }
    forall b, g | g in c'(b)
      ensures g in place[f := p] && place[f := p][g] == At(b)
    {
      if b == a {
        var i :| 0 <= i < |c'(a)| && c'(a)[i] == g;
        assert c(a)[i + 1] == g && c(a)[0] != c(a)[i + 1];
        assert g in c(a);
      } else if g != f {
        assert g in c(b);
      } else if p != At(b) {
        OnePlace(c, place, a, b, f);
      }
    }
    forall g | g in place && g != f && place[g].At?
      ensures g in c'(place[g].box)
    {
      assert g in c(place[g].box);
    }
  }

  /** All of one place moves to the end of another, in some order. */
  lemma MoveAll(c: Box -> seq<nat>, c': Box -> seq<nat>, place: map<nat, Place>, a: Box, b: Box, moved: seq<nat>)
    requires ExactIn(c, place) && a != b
    requires (forall f :: f in moved <==> f in c(a)) && Distinct(moved)
    requires c'(a) == [] && c'(b) == c(b) + moved
    requires forall d :: d != a && d != b ==> c'(d) == c(d)
    ensures ExactIn(c', PutAll(place, moved, b))
  {
    assert Distinct(c(b));
    forall f | f in moved
      ensures f !in c(b)
    {
      OnePlace(c, place, a, b, f);
    }
    DistinctAppend(c(b), moved);
    forall d
      ensures Distinct(c'(d))
    {
      assert Distinct(c(d));
    }
    forall d, g | g in c'(d)
      ensures g in place && PutAll(place, moved, b)[g] == At(d)
    {
      if g in moved {
        assert g in c(a);
        if d != b {
          OnePlace(c, place, a, d, g);
        }
      } else {
        assert g in c(d);
      }
    }
    forall g | g in place && g !in moved && place[g].At?
      ensures g in c'(place[g].box)
    {
      assert g in c(place[g].box);
    }
  }

  /** MoveHead between two receiver states. */
  lemma Moved(s: State, s': State, a: Box, p: Place)
    requires Exact(s) && Contents(s, a) != [] && p != At(a)
    requires s'.place == s.place[Contents(s, a)[0] := p]
    requires Contents(s', a) == Contents(s, a)[1..]
    requires p.At? ==> Contents(s', p.box) == Contents(s, p.box) + [Contents(s, a)[0]]
    requires forall b :: b != a && p != At(b) ==> Contents(s', b) == Contents(s, b)
    ensures Exact(s')
  {
    MoveHead(b => Contents(s, b), b => Contents(s', b), s.place, a, p);
  }

  lemma MovedAll(s: State, s': State, a: Box, b: Box, moved: seq<nat>)
    requires Exact(s) && a != b
    requires (forall f :: f in moved <==> f in Contents(s, a)) && Distinct(moved)
    requires Contents(s', a) == [] && Contents(s', b) == Contents(s, b) + moved
    requires forall d :: d != a && d != b ==> Contents(s', d) == Contents(s, d)
    requires s'.place == PutAll(s.place, moved, b)
    ensures Exact(s')
  {
    MoveAll(d => Contents(s, d), d => Contents(s', d), s.place, a, b, moved);
  }

  // ---- entries of a group --------------------------------------------------

  lemma TakeEntryExact(s: State, w: nat, p: Place, pc: DecidePc)
    requires Exact(s) && AtEntry(s, w)
    requires if p.At? then p == At(CurBox(w)) && !pc.Between? && !pc.Clearing? && pc.f == s.decide[w].todo[0]
             else pc == Between([])
    ensures Exact(TakeEntry(s, w, p, pc))
  {
    Moved(s, TakeEntry(s, w, p, pc), TodoBox(w), p);
  }

  /** Undecided files enter an empty place. */
  lemma MoveIn(c: Box -> seq<nat>, c': Box -> seq<nat>, place: map<nat, Place>, b: Box, ids: seq<nat>)
    requires ExactIn(c, place) && Distinct(ids)
    requires forall f :: f in ids ==> f in place && place[f] == Undecided
    requires c(b) == [] && c'(b) == ids
    requires forall d :: d != b ==> c'(d) == c(d)
    ensures ExactIn(c', PutAll(place, ids, b))
  {
    forall d
      ensures Distinct(c'(d))
    {
      assert Distinct(c(d));
    }
    forall d, f | f in c'(d)
      ensures f in place && PutAll(place, ids, b)[f] == At(d)
    {
      assert d != b ==> f in c(d);
    }
    forall f | f in place && f !in ids && place[f].At?
      ensures f in c'(place[f].box)
    {
      assert f in c(place[f].box);
    }
  }

  /** Nothing moved. */
  lemma Same(s: State, s': State)
    requires Exact(s) && s'.place == s.place
    requires forall b :: Contents(s', b) == Contents(s, b)
    ensures Exact(s')
  {
    SameIn(b => Contents(s, b), b => Contents(s', b), s.place);
  }

  lemma SameIn(c: Box -> seq<nat>, c': Box -> seq<nat>, place: map<nat, Place>)
    requires ExactIn(c, place) && forall b :: c'(b) == c(b)
    ensures ExactIn(c', place)
  {
  }

  /** All secondaries of a key pass to one worker. */
  lemma HandOver(s: State, s': State, key: nat, a: Actor)
    requires Exact(s)
    requires Contents(s, WakeBox(a)) == []
    requires Contents(s', ParkBox(key)) == []
    requires Contents(s', WakeBox(a)) == LinkIds(s.links.Waiting(key))
    requires forall d :: d != ParkBox(key) && d != WakeBox(a) ==> Contents(s', d) == Contents(s, d)
    requires s'.place == Hand(s.place, s.links.Waiting(key), a)
    ensures Exact(s')
  {
    var moved := LinkIds(s.links.Waiting(key));
    var c := b => Contents(s, b);
    assert ExactIn(c, s.place) && c(ParkBox(key)) == moved;
    assert Distinct(c(ParkBox(key)));
    MovedAll(s, s', ParkBox(key), WakeBox(a), moved);
  }

  lemma LinkIdsAppend(a: seq<PendingLink>, x: PendingLink)
    ensures LinkIds(a + [x]) == LinkIds(a) + [x.fileID]
  {
  }

  // ---- the decide side -----------------------------------------------------

  lemma StartExact(plan: Plan, s: State, w: nat, g: nat)
    requires Exact(s) && w !in s.decide && g in plan.groups && plan.WellFormed()
    requires forall i :: 0 <= i < |plan.groups[g]| ==>
               plan.groups[g][i] in s.place && s.place[plan.groups[g][i]] == Undecided
    ensures Exact(DoStart(plan, s, w, g))
  {
    var s' := DoStart(plan, s, w, g);
    MoveIn(b => Contents(s, b), b => Contents(s', b), s.place, TodoBox(w), plan.groups[g]);
  }

  lemma LinkMadeExact(s: State, w: nat)
    requires Exact(s) && w in s.decide && s.decide[w].pc.TryLink?
    ensures Exact(DoLinkMade(s, w))
  {
    Moved(s, DoLinkMade(s, w), CurBox(w), Linked);
  }

  lemma PcExact(s: State, w: nat, pc: DecidePc)
    requires Exact(s) && w in s.decide
    requires Current(pc) == Current(s.decide[w].pc) && RestOf(pc) == RestOf(s.decide[w].pc) == []
    ensures Exact(SetPc(s, w, pc))
  {
    Same(s, SetPc(s, w, pc));
  }

  lemma LinkRefusedExact(s: State, w: nat, key: nat)
    requires Exact(s) && w in s.decide && s.decide[w].pc.TryLink?
    ensures Exact(DoLinkRefused(s, w, key))
  {
    HandOver(s, DoLinkRefused(s, w, key), key, D(w));
  }

  lemma LeadExact(s: State, w: nat, key: nat)
    requires Exact(s) && w in s.decide && s.decide[w].pc.Clearing? && s.decide[w].pc.rest == []
    ensures Exact(DoLead(s, w, key))
  {
    Same(s, DoLead(s, w, key));
  }

  lemma ParkExact(s: State, w: nat, key: nat, rel: string)
    requires Exact(s) && w in s.decide && s.decide[w].pc.AskClaim? && Claimable(s.links, key)
    ensures Exact(DoPark(s, w, key, rel))
  {
    LinkIdsAppend(s.links.Waiting(key), PendingLink(s.decide[w].pc.f, rel));
    Moved(s, DoPark(s, w, key, rel), CurBox(w), At(ParkBox(key)));
  }

  lemma NeedExact(s: State, w: nat)
    requires Exact(s) && w in s.decide && s.decide[w].pc.Content?
    ensures Exact(DoNeed(s, w))
  {
    Moved(s, DoNeed(s, w), CurBox(w), At(NeedBox(w)));
  }

  lemma SkipExact(s: State, w: nat)
    requires Exact(s) && w in s.decide && s.decide[w].pc.Content?
    ensures Exact(DoSkip(s, w))
  {
    Moved(s, DoSkip(s, w), CurBox(w), Skipped);
  }

  lemma RegisterExact(s: State, w: nat, f: nat, rel: string)
    requires Exact(s) && w in s.decide && s.decide[w].pc == Between([]) && f in s.links.fileKey
    ensures Exact(DoRegister(s, w, f, rel))
  {
    HandOver(s, DoRegister(s, w, f, rel), s.links.fileKey[f], D(w));
  }

  /** The head of a decide worker's list joins the queue. */
  lemma DecideQueued(s: State, s': State, w: nat, pc: DecidePc, it: NeedItem)
    requires Exact(s) && w in s.decide
    requires LinkIds(RestOf(s.decide[w].pc)) == [it.fileID] + LinkIds(RestOf(pc))
    requires Current(pc) == Current(s.decide[w].pc)
    requires s'.c.q.items == s.c.q.items + [it] && s'.c.held == s.c.held
    requires s'.decide == s.decide[w := s.decide[w].(pc := pc)] && s'.fetch == s.fetch
    requires s'.links == s.links && s'.place == s.place[it.fileID := At(QueueBox)]
    ensures Exact(s')
  {
    IdsAppend(s.c.q.items, [it]);
    Moved(s, s', WakeBox(D(w)), At(QueueBox));
  }

  /** The head of a decide worker's list settles. */
  lemma DecideSettled(s: State, s': State, w: nat, pc: DecidePc, f: nat, p: Place)
    requires Exact(s) && w in s.decide && !p.At?
    requires LinkIds(RestOf(s.decide[w].pc)) == [f] + LinkIds(RestOf(pc))
    requires Current(pc) == Current(s.decide[w].pc)
    requires s'.c == s.c && s'.decide == s.decide[w := s.decide[w].(pc := pc)] && s'.fetch == s.fetch
    requires s'.links == s.links && s'.place == s.place[f := p]
    ensures Exact(s')
  {
    Moved(s, s', WakeBox(D(w)), p);
  }

  lemma FetchQueued(s: State, s': State, w: nat, pc: FetchPc, it: NeedItem)
    requires Exact(s) && w in s.fetch && pc.Linking? && s.fetch[w].Linking?
    requires LinkIds(s.fetch[w].rest) == [it.fileID] + LinkIds(pc.rest)
    requires s'.c.q.items == s.c.q.items + [it] && s'.c.held == s.c.held
    requires s'.decide == s.decide && s'.fetch == s.fetch[w := pc]
    requires s'.links == s.links && s'.place == s.place[it.fileID := At(QueueBox)]
    ensures Exact(s')
  {
    IdsAppend(s.c.q.items, [it]);
    Moved(s, s', WakeBox(F(w)), At(QueueBox));
  }

  lemma FetchSettled(s: State, s': State, w: nat, pc: FetchPc, f: nat, p: Place)
    requires Exact(s) && w in s.fetch && !p.At?
    requires (pc.Linking? && s.fetch[w].Linking?) || (pc.Abandoning? && s.fetch[w].Abandoning?)
    requires LinkIds(s.fetch[w].rest) == [f] + LinkIds(pc.rest)
    requires s'.c == s.c && s'.decide == s.decide && s'.fetch == s.fetch[w := pc]
    requires s'.links == s.links && s'.place == s.place[f := p]
    ensures Exact(s')
  {
    Moved(s, s', WakeBox(F(w)), p);
  }

  /** fetchInstead for the secondary at the head of a decide worker's list. */
  lemma DecideFallsExact(plan: Plan, s: State, w: nat, pc: DecidePc, space: bool)
    requires Exact(s) && |s.c.history| == |s.c.tries| && w in s.decide
    requires RestOf(s.decide[w].pc) != [] && RestOf(pc) == RestOf(s.decide[w].pc)[1..]
    requires Current(pc) == Current(s.decide[w].pc)
    ensures var sec := RestOf(s.decide[w].pc)[0];
            Exact(FetchInstead(plan, SetPc(s, w, pc), s.decide[w].group, sec, QC.DecideWorker, space))
  {
    var sec := RestOf(s.decide[w].pc)[0];
    var s' := FetchInstead(plan, SetPc(s, w, pc), s.decide[w].group, sec, QC.DecideWorker, space);
    if sec.fileID in s.meta && space {
      DecideQueued(s, s', w, pc, NeedItem(sec.fileID, s.decide[w].group, EntryOrDefault(plan, sec.fileID).size, sec.rel, 0));
    } else {
      DecideSettled(s, s', w, pc, sec.fileID, Failed);
    }
  }

  lemma Listed(s: State, b: Box, f: nat)
    requires Exact(s) && f in Contents(s, b)
    ensures f in s.place && s.place[f] == At(b)
  {
    var c := d => Contents(s, d);
    assert ExactIn(c, s.place) && f in c(b);
  }

  lemma IdsAppend(a: seq<NeedItem>, b: seq<NeedItem>)
    ensures QC.Ids(a + b) == QC.Ids(a) + QC.Ids(b)
  {
  }

  lemma OrphanFallsExact(plan: Plan, s: State, w: nat, space: bool)
    requires Exact(s) && |s.c.history| == |s.c.tries|
    requires w in s.decide && s.decide[w].pc.Clearing? && s.decide[w].pc.rest != []
    ensures Exact(DoOrphanFalls(plan, s, w, space))
  {
    var pc := s.decide[w].pc;
    DecideFallsExact(plan, s, w, Clearing(pc.f, pc.rest[1..]), space);
  }

  lemma DecideLinkExact(plan: Plan, s: State, w: nat, made: bool, space: bool)
    requires Exact(s) && |s.c.history| == |s.c.tries|
    requires w in s.decide && s.decide[w].pc.Between? && s.decide[w].pc.rest != []
    ensures Exact(DoDecideLink(plan, s, w, made, space))
  {
    var pc := s.decide[w].pc;
    if made {
      DecideSettled(s, DoDecideLink(plan, s, w, made, space), w, Between(pc.rest[1..]), pc.rest[0].fileID, Linked);
    } else {
      DecideFallsExact(plan, s, w, Between(pc.rest[1..]), space);
    }
  }

  lemma GroupQueued(s: State, s': State, w: nat, sorted: seq<NeedItem>)
    requires Exact(s) && w in s.decide && s.decide[w].pc == Between([]) && s.decide[w].todo == []
    requires Distinct(QC.Ids(sorted)) && forall f :: f in QC.Ids(sorted) <==> f in s.decide[w].items
    requires s'.c.q.items == s.c.q.items + sorted && s'.c.held == s.c.held
    requires s'.decide == s.decide - {w} && s'.fetch == s.fetch && s'.links == s.links
    requires s'.place == PutAll(s.place, QC.Ids(sorted), QueueBox)
    ensures Exact(s')
  {
    IdsAppend(s.c.q.items, sorted);
    MovedAll(s, s', NeedBox(w), QueueBox, QC.Ids(sorted));
  }

  lemma PutAllSame(place: map<nat, Place>, a: seq<nat>, b: seq<nat>, box: Box)
    requires forall f :: f in a <==> f in b
    ensures PutAll(place, a, box) == PutAll(place, b, box)
  {
  }

  /** pushGroup: the needed entries join the queue, largest first. */
  lemma EndGroupExact(plan: Plan, s: State, w: nat)
    requires Exact(s) && |s.c.history| == |s.c.tries|
    requires w in s.decide && s.decide[w].pc == Between([]) && s.decide[w].todo == []
    ensures Exact(DoEndGroup(plan, s, w))
  {
    var d := s.decide[w];
    var s' := DoEndGroup(plan, s, w);
    if d.items == [] {
      Same(s, s');
    } else {
      var sorted := LargestFirst(ItemsOf(plan, d.group, d.items));
      SortedIds(plan, s, w);
      PutAllSame(s.place, d.items, QC.Ids(sorted), QueueBox);
      GroupQueued(s, s', w, sorted);
    }
  }

  lemma SortedSame(items: seq<NeedItem>, f: nat)
    ensures f in QC.Ids(LargestFirst(items)) <==> f in QC.Ids(items)
  {
    var sorted := LargestFirst(items);
    LargestFirstFacts(items, 0);
    if f in QC.Ids(sorted) {
      var i :| 0 <= i < |sorted| && sorted[i].fileID == f;
      QC.SortedMembers(items, i);
      var j :| 0 <= j < |items| && items[j] == sorted[i];
      assert QC.Ids(items)[j] == f;
    }
    if f in QC.Ids(items) {
      var j :| 0 <= j < |items| && items[j].fileID == f;
      assert items[j] in multiset(items);
      assert items[j] in multiset(sorted);
      var i :| 0 <= i < |sorted| && sorted[i] == items[j];
      assert QC.Ids(sorted)[i] == f;
    }
  }

  lemma SortedIds(plan: Plan, s: State, w: nat)
    requires Exact(s) && w in s.decide
    ensures var ids := QC.Ids(LargestFirst(ItemsOf(plan, s.decide[w].group, s.decide[w].items)));
            && Distinct(ids)
            && (forall f :: f in ids <==> f in s.decide[w].items)
  {
    var d := s.decide[w];
    var items := ItemsOf(plan, d.group, d.items);
    var c := b => Contents(s, b);
    assert ExactIn(c, s.place) && c(NeedBox(w)) == d.items;
    assert Distinct(c(NeedBox(w)));
    assert QC.Ids(items) == d.items;
    QC.SortedIdsDistinct(items);
    forall f
      ensures f in QC.Ids(LargestFirst(items)) <==> f in d.items
    {
      SortedSame(items, f);
    }
  }

  // ---- the fetch side ------------------------------------------------------

  lemma Popped(s: State, s': State, w: nat)
    requires Exact(s) && s.c.q.items != [] && w !in s.fetch && w !in s.c.held
    requires s'.c.q.items == s.c.q.items[1..] && s'.c.held == s.c.held[w := s.c.q.items[0]]
    requires s'.decide == s.decide && s'.fetch == s.fetch[w := Fetching] && s'.links == s.links
    requires s'.place == s.place[s.c.q.items[0].fileID := At(HeldBox(w))]
    ensures Exact(s')
  {
    assert QC.Ids(s.c.q.items[1..]) == QC.Ids(s.c.q.items)[1..];
    Moved(s, s', QueueBox, At(HeldBox(w)));
  }

  lemma PopExact(s: State, w: nat)
    requires Exact(s) && |s.c.history| == |s.c.tries| && s.c.q.items != []
    requires w !in s.fetch && w !in s.c.held
    ensures Exact(DoPop(s, w))
  {
    Popped(s, DoPop(s, w), w);
  }

  lemma PublishExact(s: State, w: nat)
    requires Exact(s) && Fetches(s, w)
    ensures Exact(DoPublish(s, w))
  {
    Moved(s, DoPublish(s, w), HeldBox(w), At(LandedBox(w)));
  }

  lemma RegisterFetchedExact(s: State, w: nat, f: nat, rel: string)
    requires Exact(s) && w in s.c.held && w in s.fetch && s.fetch[w] == Linking([])
    ensures Exact(DoRegisterFetched(s, w, f, rel))
  {
    var s' := DoRegisterFetched(s, w, f, rel);
    if f in s.links.fileKey {
      HandOver(s, s', s.links.fileKey[f], F(w));
    } else {
      assert s'.place == s.place;
      Same(s, s');
    }
  }

  lemma FetchLinkExact(plan: Plan, s: State, w: nat, made: bool, space: bool)
    requires Exact(s) && |s.c.history| == |s.c.tries| && w in s.c.held
    requires w in s.fetch && s.fetch[w].Linking? && s.fetch[w].rest != []
    ensures Exact(DoFetchLink(plan, s, w, made, space))
  {
    var sec := s.fetch[w].rest[0];
    var pc := Linking(s.fetch[w].rest[1..]);
    var s' := DoFetchLink(plan, s, w, made, space);
    if !made && sec.fileID in s.meta && space {
      FetchQueued(s, s', w, pc, NeedItem(sec.fileID, s.c.held[w].groupID, EntryOrDefault(plan, sec.fileID).size, sec.rel, 0));
    } else {
      FetchSettled(s, s', w, pc, sec.fileID, if made then Linked else Failed);
    }
  }

  lemma FinishExact(s: State, w: nat)
    requires Exact(s) && |s.c.history| == |s.c.tries|
    requires w in s.c.held && w in s.fetch && s.fetch[w] == Linking([])
    ensures Exact(DoFinish(s, w))
  {
    Moved(s, DoFinish(s, w), LandedBox(w), Published);
  }

  lemma Requeued(s: State, s': State, w: nat, back: NeedItem)
    requires Exact(s) && Fetches(s, w) && back.fileID == s.c.held[w].fileID
    requires s'.c.q.items == s.c.q.items + [back] && s'.c.held == s.c.held - {w}
    requires s'.decide == s.decide && s'.fetch == s.fetch - {w} && s'.links == s.links
    requires s'.place == s.place[back.fileID := At(QueueBox)]
    ensures Exact(s')
  {
    IdsAppend(s.c.q.items, [back]);
    Moved(s, s', HeldBox(w), At(QueueBox));
  }

  lemma RequeueExact(s: State, w: nat, retry: bool)
    requires Exact(s) && |s.c.history| == |s.c.tries| && Fetches(s, w)
    ensures Exact(DoRequeue(s, w, retry))
  {
    var it := s.c.held[w];
    Requeued(s, DoRequeue(s, w, retry), w, if retry then it.(attempt := it.attempt + 1) else it);
  }

  lemma GiveUpExact(s: State, w: nat)
    requires Exact(s) && Fetches(s, w)
    ensures Exact(DoGiveUp(s, w))
  {
    Moved(s, DoGiveUp(s, w), HeldBox(w), Failed);
  }

  lemma AbandonExact(s: State, w: nat, f: nat)
    requires Exact(s) && w in s.c.held && w in s.fetch && s.fetch[w] == Abandoning([])
    ensures Exact(DoAbandon(s, w, f))
  {
    var s' := DoAbandon(s, w, f);
    if f in s.links.fileKey {
      HandOver(s, s', s.links.fileKey[f], F(w));
    } else {
      assert s'.place == s.place;
      Same(s, s');
    }
  }

  lemma FailOrphanExact(s: State, w: nat)
    requires Exact(s) && w in s.fetch && s.fetch[w].Abandoning? && s.fetch[w].rest != []
    ensures Exact(DoFailOrphan(s, w))
  {
    var rest := s.fetch[w].rest;
    FetchSettled(s, DoFailOrphan(s, w), w, Abandoning(rest[1..]), rest[0].fileID, Failed);
  }

  lemma FinishFailedExact(s: State, w: nat)
    requires Exact(s) && |s.c.history| == |s.c.tries|
    requires w in s.c.held && w in s.fetch && s.fetch[w] == Abandoning([])
    ensures Exact(s.(c := QC.Apply(s.c, QC.DoneBy(w)), fetch := s.fetch - {w}))
  {
    Same(s, s.(c := QC.Apply(s.c, QC.DoneBy(w)), fetch := s.fetch - {w}));
  }
}
