/** Hard links join files of one key: what is parked on a key, leads it or is its path
    belongs to it, and a link is only ever made to a file of the same key whose content is
    on disk (internal/receiver/decide.go lines 404-493, internal/receiver/fetch.go lines
    279-308). */
module ReceiverKeys {
  import opened Optional
  import opened NeedQueue
  import opened HardlinkMap
  import opened Receiver
  import opened ReceiverInvariant
  import opened ReceiverTaking
  import RR = ReceiverRuns
  import RD = ReceiverDrain
  import QC = QueueClients

  // ---- what is claimed -----------------------------------------------------

  predicate Own(plan: Plan, f: nat, key: nat) { f in plan.files && plan.files[f].key == Some(key) }

  /** The file's content is at its own path. */
  predicate InPlace(place: map<nat, Place>, p: nat) {
    p in place && (place[p].Published? || place[p].Skipped? || (place[p].At? && place[p].box.LandedBox?))
  }

  /** The path is that of a file of this key whose content is on disk. */
  ghost predicate Leads(plan: Plan, place: map<nat, Place>, key: nat, path: string) {
    exists p :: Own(plan, p, key) && plan.files[p].rel == path && InPlace(place, p)
  }

  /** Linking file f to this path gives it the content of its own inode. */
  ghost predicate LinksTo(plan: Plan, place: map<nat, Place>, f: nat, path: string) {
    f in plan.files && plan.files[f].key.Some? && Leads(plan, place, plan.files[f].key.value, path)
  }

  predicate OwnPath(plan: Plan, sec: PendingLink) { sec.fileID in plan.files && sec.rel == plan.files[sec.fileID].rel }

  predicate OwnItem(plan: Plan, it: NeedItem) {
    it.fileID in plan.files && it.rel == plan.files[it.fileID].rel && it.size == plan.files[it.fileID].size
  }

  ghost predicate MapTrue(plan: Plan, place: map<nat, Place>, links: Links) {
    && (forall f :: f in links.fileKey ==> Own(plan, f, links.fileKey[f]))
    && (forall k, i :: 0 <= i < |links.Waiting(k)| ==>
          Own(plan, links.Waiting(k)[i].fileID, k) && OwnPath(plan, links.Waiting(k)[i]))
    && (forall k :: k in links.keyToPath ==> Leads(plan, place, k, links.keyToPath[k]))
  }

  ghost predicate DeciderTrue(plan: Plan, place: map<nat, Place>, d: Decider) {
    && (d.pc.TryLink? ==> LinksTo(plan, place, d.pc.f, d.via))
    && (d.pc.Between? ==> forall i :: 0 <= i < |d.pc.rest| ==> LinksTo(plan, place, d.pc.rest[i].fileID, d.via))
    && (forall i :: 0 <= i < |RestOf(d.pc)| ==> OwnPath(plan, RestOf(d.pc)[i]))
  }

  ghost predicate Deciders(plan: Plan, s: State) {
    forall w :: w in s.decide ==> DeciderTrue(plan, s.place, s.decide[w])
  }

  ghost predicate FetcherTrue(plan: Plan, place: map<nat, Place>, pc: FetchPc, f: nat) {
    && (pc.Linking? ==> f in plan.files && forall i :: 0 <= i < |pc.rest| ==>
          LinksTo(plan, place, pc.rest[i].fileID, plan.files[f].rel))
    && (forall i :: 0 <= i < |RestOfFetch(pc)| ==> OwnPath(plan, RestOfFetch(pc)[i]))
  }

  ghost predicate Fetchers(plan: Plan, s: State) {
    forall w :: w in s.fetch ==> w in s.c.held && FetcherTrue(plan, s.place, s.fetch[w], s.c.held[w].fileID)
  }

  ghost predicate LinkedTrue(plan: Plan, place: map<nat, Place>, linked: map<nat, string>) {
    forall f :: f in place && place[f] == Linked ==> f in linked && LinksTo(plan, place, f, linked[f])
  }

  ghost predicate ItemsTrue(plan: Plan, c: QC.Clients) {
    && (forall i :: 0 <= i < |c.q.items| ==> OwnItem(plan, c.q.items[i]))
    && (forall w :: w in c.held ==> OwnItem(plan, c.held[w]))
  }

  ghost predicate KeysTrue(plan: Plan, s: State) {
    && MapTrue(plan, s.place, s.links)
    && Deciders(plan, s)
    && Fetchers(plan, s)
    && LinkedTrue(plan, s.place, s.linked)
    && ItemsTrue(plan, s.c)
  }

  // ---- what is on disk stays there -----------------------------------------

  ghost predicate StaysInPlace(place: map<nat, Place>, place': map<nat, Place>) {
    forall p :: InPlace(place, p) ==> InPlace(place', p)
  }

  lemma LeadsStays(plan: Plan, place: map<nat, Place>, place': map<nat, Place>, key: nat, path: string)
    requires StaysInPlace(place, place') && Leads(plan, place, key, path)
    ensures Leads(plan, place', key, path)
  {
    var p :| Own(plan, p, key) && plan.files[p].rel == path && InPlace(place, p);
    assert InPlace(place', p);
  }

  lemma LinksToStays(plan: Plan, place: map<nat, Place>, place': map<nat, Place>, f: nat, path: string)
    requires StaysInPlace(place, place') && LinksTo(plan, place, f, path)
    ensures LinksTo(plan, place', f, path)
  {
    LeadsStays(plan, place, place', plan.files[f].key.value, path);
  }

  lemma MapStays(plan: Plan, place: map<nat, Place>, place': map<nat, Place>, links: Links)
    requires StaysInPlace(place, place') && MapTrue(plan, place, links)
    ensures MapTrue(plan, place', links)
  {
    forall k | k in links.keyToPath
      ensures Leads(plan, place', k, links.keyToPath[k])
    {
      LeadsStays(plan, place, place', k, links.keyToPath[k]);
    }
  }

  lemma DeciderStays(plan: Plan, place: map<nat, Place>, place': map<nat, Place>, d: Decider)
    requires StaysInPlace(place, place') && DeciderTrue(plan, place, d)
    ensures DeciderTrue(plan, place', d)
  {
    if d.pc.TryLink? {
      LinksToStays(plan, place, place', d.pc.f, d.via);
    }
    if d.pc.Between? {
      forall i | 0 <= i < |d.pc.rest|
        ensures LinksTo(plan, place', d.pc.rest[i].fileID, d.via)
      {
        LinksToStays(plan, place, place', d.pc.rest[i].fileID, d.via);
      }
    }
  }

  lemma FetcherStays(plan: Plan, place: map<nat, Place>, place': map<nat, Place>, pc: FetchPc, f: nat)
    requires StaysInPlace(place, place') && FetcherTrue(plan, place, pc, f)
    ensures FetcherTrue(plan, place', pc, f)
  {
    if pc.Linking? {
      forall i | 0 <= i < |pc.rest|
        ensures LinksTo(plan, place', pc.rest[i].fileID, plan.files[f].rel)
      {
        LinksToStays(plan, place, place', pc.rest[i].fileID, plan.files[f].rel);
      }
    }
  }

  lemma NotStarting(plan: Plan, s: State, g: nat, p: nat)
    requires TakenUp(plan, s) && g in plan.groups && g !in s.started && InPlace(s.place, p)
    ensures p !in plan.groups[g]
  {
  }

  lemma PlacesStay(cfg: QC.Config, plan: Plan, s: State, step: Step)
    requires |s.c.history| == |s.c.tries| && Enabled(cfg, plan, s, step) && Exact(s) && TakenUp(plan, s)
    ensures StaysInPlace(s.place, Apply(cfg, plan, s, step).place)
  {
    forall p | InPlace(s.place, p)
      ensures InPlace(Apply(cfg, plan, s, step).place, p)
    {
      if step.StartGroup? {
        NotStarting(plan, s, step.g, p);
      }
      if s.place[p].Skipped? {
        StaysIdle(cfg, plan, s, step, p);
      } else {
        StaysOnDisk(cfg, plan, s, step, p);
      }
    }
  }

  // ---- the map -------------------------------------------------------------

  lemma CurrentOwn(plan: Plan, s: State, w: nat)
    requires Shape(plan, s) && Exact(s) && w in s.decide && !s.decide[w].pc.Between?
    ensures s.decide[w].pc.f in plan.files && s.place[s.decide[w].pc.f] == At(CurBox(w))
  {
    assert s.decide[w].pc.f in Contents(s, CurBox(w));
    Listed(s, CurBox(w), s.decide[w].pc.f);
  }

  /** A worker that consults the map does so under the key of its entry. */
  lemma CurrentKeyed(plan: Plan, s: State, w: nat)
    requires Shape(plan, s) && Exact(s) && Primaries(plan, s)
    requires w in s.decide && !s.decide[w].pc.Between? && !s.decide[w].pc.Content?
    ensures Own(plan, s.decide[w].pc.f, KeyOf(plan, s.decide[w].pc.f))
  {
    CurrentOwn(plan, s, w);
    assert PcAgrees(plan, s, s.decide[w].pc);
  }

  lemma RetireTrue(plan: Plan, place: map<nat, Place>, links: Links, key: nat)
    requires MapTrue(plan, place, links)
    ensures MapTrue(plan, place, Retire(links, key))
  {
    var links' := Retire(links, key);
    assert forall k :: links'.Waiting(k) == if k == key then [] else links.Waiting(k);
  }

  lemma ClaimTrue(plan: Plan, place: map<nat, Place>, links: Links, key: nat, sec: PendingLink)
    requires MapTrue(plan, place, links) && Claimable(links, key) && Own(plan, sec.fileID, key) && OwnPath(plan, sec)
    ensures MapTrue(plan, place, Claim(links, key, sec))
  {
    var links' := Claim(links, key, sec);
    assert forall k :: links'.Waiting(k) == if k == key then links.Waiting(k) + [sec] else links.Waiting(k);
  }

  lemma MaterialiseTrue(plan: Plan, place: map<nat, Place>, links: Links, f: nat)
    requires MapTrue(plan, place, links) && f in plan.files && InPlace(place, f)
    ensures MapTrue(plan, place, Materialise(links, f, plan.files[f].rel))
  {
    if f in links.fileKey {
      var key, links' := links.fileKey[f], Materialise(links, f, plan.files[f].rel);
      assert forall k :: links'.Waiting(k) == if k == key then [] else links.Waiting(k);
      assert Leads(plan, place, key, plan.files[f].rel);
    }
  }

  /** The secondaries handed over with a file whose content is on disk can be linked to
      it. */
  lemma WaitingLinks(plan: Plan, place: map<nat, Place>, place': map<nat, Place>, links: Links, f: nat)
    requires MapTrue(plan, place, links) && f in plan.files && InPlace(place', f)
    ensures forall i :: 0 <= i < |WaitingOn(links, f)| ==>
              OwnPath(plan, WaitingOn(links, f)[i]) && LinksTo(plan, place', WaitingOn(links, f)[i].fileID, plan.files[f].rel)
  {
    if f in links.fileKey {
      assert Leads(plan, place', links.fileKey[f], plan.files[f].rel);
    }
  }

  lemma SkippedInPlace(plan: Plan, s: State, w: nat)
    requires Exact(s) && Shape(plan, s) && w in s.decide && s.decide[w].pc.Content?
    ensures var f := s.decide[w].pc.f;
            var t := DoSkip(s, w);
            InPlace(t.place, f) && forall rel :: InPlace(DoRegister(t, w, f, rel).place, f)
  {
    var f := s.decide[w].pc.f;
    CurrentOwn(plan, s, w);
    if f in LinkIds(WaitingOn(s.links, f)) {
      Listed(s, ParkBox(s.links.fileKey[f]), f);
    }
  }

  lemma HeldOwn(plan: Plan, s: State, w: nat)
    requires Shape(plan, s) && Exact(s) && Fetches(s, w)
    ensures s.c.held[w].fileID in plan.files
  {
    HeldIsHeld(s, w);
  }

  lemma LinkMap(cfg: QC.Config, plan: Plan, s: State, step: Step)
    requires |s.c.history| == |s.c.tries| && Enabled(cfg, plan, s, step)
    requires Shape(plan, s) && Exact(s) && Primaries(plan, s) && MapTrue(plan, s.place, s.links)
    requires step.LinkRefused? || step.TakeOver? || step.ClaimOrLead?
    ensures MapTrue(plan, s.place, Apply(cfg, plan, s, step).links)
  {
    var w := step.w;
    var f := s.decide[w].pc.f;
    CurrentKeyed(plan, s, w);
    match step
    case LinkRefused(_) => RetireTrue(plan, s.place, s.links, KeyOf(plan, f));
    case TakeOver(_) =>
      var links' := MarkPrimary(s.links, f, KeyOf(plan, f));
      assert forall k :: links'.Waiting(k) == s.links.Waiting(k);
    case ClaimOrLead(_) =>
      if Claimable(s.links, KeyOf(plan, f)) {
        ClaimTrue(plan, s.place, s.links, KeyOf(plan, f), PendingLink(f, EntryOrDefault(plan, f).rel));
      }
  }

  /** The other steps leave the map alone, but for a publication, a skip and a failure. */
  lemma SameLinks(cfg: QC.Config, plan: Plan, s: State, step: Step)
    requires |s.c.history| == |s.c.tries| && Enabled(cfg, plan, s, step)
    requires !step.LinkRefused? && !step.TakeOver? && !step.ClaimOrLead? && !step.ContentMatches?
    requires !step.PublishItem? && !step.GiveUp?
    ensures Apply(cfg, plan, s, step).links == s.links
  {
  }

  lemma SettlingMap(cfg: QC.Config, plan: Plan, s: State, step: Step)
    requires |s.c.history| == |s.c.tries| && Enabled(cfg, plan, s, step)
    requires Shape(plan, s) && Exact(s) && MapTrue(plan, Apply(cfg, plan, s, step).place, s.links)
    requires step.ContentMatches? || step.PublishItem? || step.GiveUp?
    ensures MapTrue(plan, Apply(cfg, plan, s, step).place, Apply(cfg, plan, s, step).links)
  {
    var place' := Apply(cfg, plan, s, step).place;
    match step
    case ContentMatches(w) =>
      CurrentOwn(plan, s, w);
      SkippedInPlace(plan, s, w);
      MaterialiseTrue(plan, place', s.links, s.decide[w].pc.f);
    case PublishItem(w) =>
      HeldOwn(plan, s, w);
      PublishedIsOnDisk(cfg, plan, s, w);
      MaterialiseTrue(plan, place', s.links, s.c.held[w].fileID);
    case GiveUp(w) =>
      if s.c.held[w].fileID in s.links.fileKey {
        RetireTrue(plan, place', s.links, s.links.fileKey[s.c.held[w].fileID]);
      }
  }

  lemma MapKept(cfg: QC.Config, plan: Plan, s: State, step: Step)
    requires |s.c.history| == |s.c.tries| && Enabled(cfg, plan, s, step)
    requires Shape(plan, s) && Exact(s) && Primaries(plan, s) && MapTrue(plan, s.place, s.links)
    requires StaysInPlace(s.place, Apply(cfg, plan, s, step).place)
    ensures MapTrue(plan, Apply(cfg, plan, s, step).place, Apply(cfg, plan, s, step).links)
  {
    var s' := Apply(cfg, plan, s, step);
    if step.LinkRefused? || step.TakeOver? || step.ClaimOrLead? {
      LinkMap(cfg, plan, s, step);
      MapStays(plan, s.place, s'.place, s'.links);
    } else {
      MapStays(plan, s.place, s'.place, s.links);
      if step.ContentMatches? || step.PublishItem? || step.GiveUp? {
        SettlingMap(cfg, plan, s, step);
      } else {
        SameLinks(cfg, plan, s, step);
      }
    }
  }

  // ---- the decide workers --------------------------------------------------

  /** One worker moves; what the others are about to link stays right. */
  lemma DeciderMoves(plan: Plan, s: State, s': State, w: nat)
    requires Deciders(plan, s) && StaysInPlace(s.place, s'.place)
    requires forall v :: v in s'.decide && v != w ==> v in s.decide && s'.decide[v] == s.decide[v]
    requires w in s'.decide ==> DeciderTrue(plan, s'.place, s'.decide[w])
    ensures Deciders(plan, s')
  {
    forall v | v in s'.decide
      ensures DeciderTrue(plan, s'.place, s'.decide[v])
    {
      if v != w {
        DeciderStays(plan, s.place, s'.place, s.decide[v]);
      }
    }
  }

  /** A worker with nothing to link. */
  predicate NothingToLink(d: Decider) { !d.pc.TryLink? && RestOf(d.pc) == [] }

  predicate OnlyMoves(s: State, s': State, w: nat) {
    && (forall v :: v in s'.decide && v != w ==> v in s.decide && s'.decide[v] == s.decide[v])
    && (w in s'.decide ==> NothingToLink(s'.decide[w]))
  }

  lemma StartMoves(cfg: QC.Config, plan: Plan, s: State, step: Step)
    requires |s.c.history| == |s.c.tries| && Enabled(cfg, plan, s, step)
    requires step.StartGroup? || step.Reject? || step.SkipJournalled? || step.Begin? || step.LinkMade?
    ensures OnlyMoves(s, Apply(cfg, plan, s, step), step.w)
  {
  }

  lemma EntryMoves(cfg: QC.Config, plan: Plan, s: State, step: Step)
    requires |s.c.history| == |s.c.tries| && Enabled(cfg, plan, s, step)
    requires step.TakeOver? || step.ClaimOrLead? || step.NeedContent? || step.EndGroup?
    ensures OnlyMoves(s, Apply(cfg, plan, s, step), step.w)
  {
  }

  lemma EntryDecides(plan: Plan, s: State, s': State, w: nat)
    requires Deciders(plan, s) && StaysInPlace(s.place, s'.place) && OnlyMoves(s, s', w)
    ensures Deciders(plan, s')
  {
    DeciderMoves(plan, s, s', w);
  }

  lemma SeekDecides(cfg: QC.Config, plan: Plan, s: State, step: Step)
    requires |s.c.history| == |s.c.tries| && Enabled(cfg, plan, s, step) && step.SeekPath?
    requires Shape(plan, s) && Exact(s) && Deciders(plan, s) && MapTrue(plan, s.place, s.links)
    ensures Deciders(plan, Apply(cfg, plan, s, step))
  {
    CurrentOwn(plan, s, step.w);
    DeciderMoves(plan, s, Apply(cfg, plan, s, step), step.w);
  }

  lemma RefusedDecides(cfg: QC.Config, plan: Plan, s: State, step: Step)
    requires |s.c.history| == |s.c.tries| && Enabled(cfg, plan, s, step) && step.LinkRefused?
    requires Deciders(plan, s) && MapTrue(plan, s.place, s.links)
    requires StaysInPlace(s.place, Apply(cfg, plan, s, step).place)
    ensures Deciders(plan, Apply(cfg, plan, s, step))
  {
    DeciderMoves(plan, s, Apply(cfg, plan, s, step), step.w);
  }

  lemma MatchDecides(cfg: QC.Config, plan: Plan, s: State, step: Step)
    requires |s.c.history| == |s.c.tries| && Enabled(cfg, plan, s, step) && step.ContentMatches?
    requires Shape(plan, s) && Exact(s) && Deciders(plan, s) && MapTrue(plan, s.place, s.links)
    requires StaysInPlace(s.place, Apply(cfg, plan, s, step).place)
    ensures Deciders(plan, Apply(cfg, plan, s, step))
  {
    var s' := Apply(cfg, plan, s, step);
    CurrentOwn(plan, s, step.w);
    SkippedInPlace(plan, s, step.w);
    WaitingLinks(plan, s.place, s'.place, s.links, s.decide[step.w].pc.f);
    DeciderMoves(plan, s, s', step.w);
  }

  /** One secondary less. */
  function Next(d: Decider): Decider
    requires (d.pc.Clearing? || d.pc.Between?) && d.pc.rest != []
  {
    d.(pc := if d.pc.Clearing? then Clearing(d.pc.f, d.pc.rest[1..]) else Between(d.pc.rest[1..]))
  }

  lemma NextTrue(plan: Plan, place: map<nat, Place>, d: Decider)
    requires (d.pc.Clearing? || d.pc.Between?) && d.pc.rest != [] && DeciderTrue(plan, place, d)
    ensures DeciderTrue(plan, place, Next(d))
  {
    var rest := RestOf(Next(d).pc);
    forall i | 0 <= i < |rest|
      ensures OwnPath(plan, rest[i]) && (d.pc.Between? ==> LinksTo(plan, place, rest[i].fileID, d.via))
    {
      assert rest[i] == RestOf(d.pc)[i + 1];
    }
  }

  lemma WokenNext(cfg: QC.Config, plan: Plan, s: State, step: Step)
    requires |s.c.history| == |s.c.tries| && Enabled(cfg, plan, s, step) && (step.OrphanFallsBack? || step.DecideLinks?)
    ensures Apply(cfg, plan, s, step).decide == s.decide[step.w := Next(s.decide[step.w])]
  {
  }

  lemma WokenDecides(plan: Plan, s: State, s': State, w: nat)
    requires w in s.decide && (s.decide[w].pc.Clearing? || s.decide[w].pc.Between?) && s.decide[w].pc.rest != []
    requires s'.decide == s.decide[w := Next(s.decide[w])]
    requires Deciders(plan, s) && StaysInPlace(s.place, s'.place)
    ensures Deciders(plan, s')
  {
    DeciderStays(plan, s.place, s'.place, s.decide[w]);
    NextTrue(plan, s'.place, s.decide[w]);
    DeciderMoves(plan, s, s', w);
  }

  lemma DecidersKept(cfg: QC.Config, plan: Plan, s: State, step: Step)
    requires |s.c.history| == |s.c.tries| && Enabled(cfg, plan, s, step)
    requires Shape(plan, s) && Exact(s) && Deciders(plan, s) && MapTrue(plan, s.place, s.links)
    requires StaysInPlace(s.place, Apply(cfg, plan, s, step).place)
    ensures Deciders(plan, Apply(cfg, plan, s, step))
  {
    if ByFetch(step) {
      RD.FetchSame(cfg, plan, s, step);
      forall v | v in s.decide
        ensures DeciderTrue(plan, Apply(cfg, plan, s, step).place, s.decide[v])
      {
        DeciderStays(plan, s.place, Apply(cfg, plan, s, step).place, s.decide[v]);
      }
    } else if step.SeekPath? {
      SeekDecides(cfg, plan, s, step);
    } else if step.LinkRefused? {
      RefusedDecides(cfg, plan, s, step);
    } else if step.ContentMatches? {
      MatchDecides(cfg, plan, s, step);
    } else if step.OrphanFallsBack? || step.DecideLinks? {
      WokenNext(cfg, plan, s, step);
      WokenDecides(plan, s, Apply(cfg, plan, s, step), step.w);
    } else if !step.CloseQueue? {
      if step.TakeOver? || step.ClaimOrLead? || step.NeedContent? || step.EndGroup? {
        EntryMoves(cfg, plan, s, step);
      } else {
        StartMoves(cfg, plan, s, step);
      }
      EntryDecides(plan, s, Apply(cfg, plan, s, step), step.w);
    }
  }

  // ---- the fetch workers ---------------------------------------------------

  lemma FetcherMoves(plan: Plan, s: State, s': State, w: nat)
    requires Fetchers(plan, s) && StaysInPlace(s.place, s'.place)
    requires forall v :: v in s'.fetch && v != w ==>
               v in s.fetch && s'.fetch[v] == s.fetch[v] && v in s'.c.held && (v in s.c.held ==> s'.c.held[v] == s.c.held[v])
    requires w in s'.fetch ==> w in s'.c.held && FetcherTrue(plan, s'.place, s'.fetch[w], s'.c.held[w].fileID)
    ensures Fetchers(plan, s')
  {
    forall v | v in s'.fetch
      ensures v in s'.c.held && FetcherTrue(plan, s'.place, s'.fetch[v], s'.c.held[v].fileID)
    {
      if v != w {
        FetcherStays(plan, s.place, s'.place, s.fetch[v], s.c.held[v].fileID);
      }
    }
  }

  lemma PublishFetches(cfg: QC.Config, plan: Plan, s: State, w: nat)
    requires |s.c.history| == |s.c.tries| && Enabled(cfg, plan, s, PublishItem(w))
    requires Shape(plan, s) && Exact(s) && Fetchers(plan, s) && MapTrue(plan, s.place, s.links)
    requires StaysInPlace(s.place, Apply(cfg, plan, s, PublishItem(w)).place)
    ensures Fetchers(plan, Apply(cfg, plan, s, PublishItem(w)))
  {
    var s' := Apply(cfg, plan, s, PublishItem(w));
    HeldOwn(plan, s, w);
    PublishedIsOnDisk(cfg, plan, s, w);
    WaitingLinks(plan, s.place, s'.place, s.links, s.c.held[w].fileID);
    FetcherMoves(plan, s, s', w);
  }

  lemma GiveUpFetches(cfg: QC.Config, plan: Plan, s: State, w: nat)
    requires |s.c.history| == |s.c.tries| && Enabled(cfg, plan, s, GiveUp(w))
    requires Fetchers(plan, s) && MapTrue(plan, s.place, s.links)
    requires StaysInPlace(s.place, Apply(cfg, plan, s, GiveUp(w)).place)
    ensures Fetchers(plan, Apply(cfg, plan, s, GiveUp(w)))
  {
    FetcherMoves(plan, s, Apply(cfg, plan, s, GiveUp(w)), w);
  }

  function NextFetch(pc: FetchPc): FetchPc
    requires !pc.Fetching? && pc.rest != []
  {
    pc.(rest := pc.rest[1..])
  }

  lemma NextFetchTrue(plan: Plan, place: map<nat, Place>, pc: FetchPc, f: nat)
    requires !pc.Fetching? && pc.rest != [] && FetcherTrue(plan, place, pc, f)
    ensures FetcherTrue(plan, place, NextFetch(pc), f)
  {
    var rest := RestOfFetch(NextFetch(pc));
    forall i | 0 <= i < |rest|
      ensures OwnPath(plan, rest[i]) && (pc.Linking? ==> LinksTo(plan, place, rest[i].fileID, plan.files[f].rel))
    {
      assert rest[i] == RestOfFetch(pc)[i + 1];
    }
  }

  lemma LinkNext(cfg: QC.Config, plan: Plan, s: State, step: Step)
    requires |s.c.history| == |s.c.tries| && Enabled(cfg, plan, s, step) && (step.FetchLinks? || step.FailOrphan?)
    ensures var s' := Apply(cfg, plan, s, step);
            s'.fetch == s.fetch[step.w := NextFetch(s.fetch[step.w])] && s'.c.held == s.c.held
  {
  }

  lemma LinkFetches(plan: Plan, s: State, s': State, w: nat)
    requires w in s.fetch && w in s.c.held && !s.fetch[w].Fetching? && s.fetch[w].rest != []
    requires s'.fetch == s.fetch[w := NextFetch(s.fetch[w])] && s'.c.held == s.c.held
    requires Fetchers(plan, s) && StaysInPlace(s.place, s'.place)
    ensures Fetchers(plan, s')
  {
    FetcherStays(plan, s.place, s'.place, s.fetch[w], s.c.held[w].fileID);
    NextFetchTrue(plan, s'.place, s.fetch[w], s.c.held[w].fileID);
    FetcherMoves(plan, s, s', w);
  }

  /** A worker takes an item up or puts one down. */
  predicate OneItemMoves(s: State, s': State, w: nat) {
    && s'.fetch.Keys + {w} == s.fetch.Keys + {w} && s'.c.held.Keys + {w} == s.c.held.Keys + {w}
    && (forall v :: v != w && v in s.fetch && v in s'.fetch ==> s'.fetch[v] == s.fetch[v])
    && (forall v :: v != w && v in s.c.held && v in s'.c.held ==> s'.c.held[v] == s.c.held[v])
    && (w in s'.fetch ==> w in s'.c.held && s'.fetch[w] == Fetching)
  }

  lemma ItemMoves(cfg: QC.Config, plan: Plan, s: State, step: Step)
    requires |s.c.history| == |s.c.tries| && Enabled(cfg, plan, s, step)
    requires step.FinishItem? || step.RetryItem? || step.ReturnItem? || step.FinishFailed?
    ensures OneItemMoves(s, Apply(cfg, plan, s, step), step.w)
  {
  }

  lemma ItemTaken(cfg: QC.Config, plan: Plan, s: State, w: nat)
    requires |s.c.history| == |s.c.tries| && Enabled(cfg, plan, s, PopItem(w))
    ensures OneItemMoves(s, Apply(cfg, plan, s, PopItem(w)), w)
  {
  }

  lemma OthersFetch(plan: Plan, s: State, s': State, w: nat)
    requires Fetchers(plan, s) && StaysInPlace(s.place, s'.place) && OneItemMoves(s, s', w)
    ensures Fetchers(plan, s')
  {
    forall v | v in s'.fetch && v != w
      ensures v in s.fetch && v in s.c.held && v in s'.c.held
    {
      assert v in s'.fetch.Keys + {w} && v in s.fetch.Keys;
      assert v in s.c.held.Keys + {w} && v in s'.c.held.Keys;
    }
    FetcherMoves(plan, s, s', w);
  }

  lemma ItemFetches(cfg: QC.Config, plan: Plan, s: State, step: Step)
    requires |s.c.history| == |s.c.tries| && Enabled(cfg, plan, s, step)
    requires step.PopItem? || step.FinishItem? || step.RetryItem? || step.ReturnItem? || step.FinishFailed?
    requires Fetchers(plan, s) && StaysInPlace(s.place, Apply(cfg, plan, s, step).place)
    ensures Fetchers(plan, Apply(cfg, plan, s, step))
  {
    if step.PopItem? {
      ItemTaken(cfg, plan, s, step.w);
    } else {
      ItemMoves(cfg, plan, s, step);
    }
    OthersFetch(plan, s, Apply(cfg, plan, s, step), step.w);
  }

  lemma FetchersKept(cfg: QC.Config, plan: Plan, s: State, step: Step)
    requires |s.c.history| == |s.c.tries| && Enabled(cfg, plan, s, step)
    requires Shape(plan, s) && Exact(s) && Fetchers(plan, s) && MapTrue(plan, s.place, s.links)
    requires StaysInPlace(s.place, Apply(cfg, plan, s, step).place)
    ensures Fetchers(plan, Apply(cfg, plan, s, step))
  {
    if !ByFetch(step) {
      DecideLeavesHeld(cfg, plan, s, step);
      forall v | v in s.fetch
        ensures FetcherTrue(plan, Apply(cfg, plan, s, step).place, s.fetch[v], s.c.held[v].fileID)
      {
        FetcherStays(plan, s.place, Apply(cfg, plan, s, step).place, s.fetch[v], s.c.held[v].fileID);
      }
    } else if step.PublishItem? {
      PublishFetches(cfg, plan, s, step.w);
    } else if step.GiveUp? {
      GiveUpFetches(cfg, plan, s, step.w);
    } else if step.FetchLinks? || step.FailOrphan? {
      LinkNext(cfg, plan, s, step);
      LinkFetches(plan, s, Apply(cfg, plan, s, step), step.w);
    } else {
      ItemFetches(cfg, plan, s, step);
    }
  }

  // ---- the links -----------------------------------------------------------

  /** The link that a step makes, and to which path. */
  function Made(plan: Plan, s: State, step: Step): Option<(nat, string)> {
    match step
    case LinkMade(w) => if w in s.decide && s.decide[w].pc.TryLink? then Some((s.decide[w].pc.f, s.decide[w].via)) else None
    case DecideLinks(w, made, _) =>
      if made && w in s.decide && s.decide[w].pc.Between? && s.decide[w].pc.rest != []
      then Some((s.decide[w].pc.rest[0].fileID, s.decide[w].via)) else None
    case FetchLinks(w, made, _) =>
      if made && w in s.fetch && w in s.c.held && s.fetch[w].Linking? && s.fetch[w].rest != []
      then Some((s.fetch[w].rest[0].fileID, EntryOrDefault(plan, s.c.held[w].fileID).rel)) else None
    case _ => None
  }

  /** Only what was linked before and what the step links is linked after it. */
  predicate LinksOnly(s: State, s': State, made: Option<(nat, string)>) {
    && s'.linked == (if made.Some? then s.linked[made.value.0 := made.value.1] else s.linked)
    && forall f :: f in s'.place && s'.place[f] == Linked ==>
         (f in s.place && s.place[f] == Linked) || (made.Some? && f == made.value.0)
  }

  lemma EntryLinksOnly(cfg: QC.Config, plan: Plan, s: State, step: Step)
    requires |s.c.history| == |s.c.tries| && Enabled(cfg, plan, s, step) && OnEntry(step)
    ensures LinksOnly(s, Apply(cfg, plan, s, step), Made(plan, s, step))
  {
  }

  lemma WokenLinksOnly(cfg: QC.Config, plan: Plan, s: State, step: Step)
    requires |s.c.history| == |s.c.tries| && Enabled(cfg, plan, s, step)
    requires step.OrphanFallsBack? || step.DecideLinks? || step.FetchLinks?
    ensures LinksOnly(s, Apply(cfg, plan, s, step), Made(plan, s, step))
  {
  }

  lemma ContentLinksOnly(cfg: QC.Config, plan: Plan, s: State, step: Step)
    requires |s.c.history| == |s.c.tries| && Enabled(cfg, plan, s, step)
    requires step.NeedContent? || step.ContentMatches? || step.EndGroup? || step.CloseQueue?
    ensures LinksOnly(s, Apply(cfg, plan, s, step), Made(plan, s, step))
  {
  }

  lemma FetchLinksOnly(cfg: QC.Config, plan: Plan, s: State, step: Step)
    requires |s.c.history| == |s.c.tries| && Enabled(cfg, plan, s, step) && ByFetch(step) && !step.FetchLinks?
    ensures LinksOnly(s, Apply(cfg, plan, s, step), Made(plan, s, step))
  {
  }

  lemma StepLinksOnly(cfg: QC.Config, plan: Plan, s: State, step: Step)
    requires |s.c.history| == |s.c.tries| && Enabled(cfg, plan, s, step)
    ensures LinksOnly(s, Apply(cfg, plan, s, step), Made(plan, s, step))
  {
    if OnEntry(step) {
      EntryLinksOnly(cfg, plan, s, step);
    } else if step.OrphanFallsBack? || step.DecideLinks? || step.FetchLinks? {
      WokenLinksOnly(cfg, plan, s, step);
    } else if ByFetch(step) {
      FetchLinksOnly(cfg, plan, s, step);
    } else {
      ContentLinksOnly(cfg, plan, s, step);
    }
  }

  /** A link is made to the path of a file of the same key whose content is on disk. */
  lemma MadeTrue(cfg: QC.Config, plan: Plan, s: State, step: Step)
    requires |s.c.history| == |s.c.tries| && Enabled(cfg, plan, s, step) && Deciders(plan, s) && Fetchers(plan, s)
    ensures var made := Made(plan, s, step); made.Some? ==> LinksTo(plan, s.place, made.value.0, made.value.1)
  {
    match step
    case LinkMade(w) => assert DeciderTrue(plan, s.place, s.decide[w]);
    case DecideLinks(w, _, _) => assert DeciderTrue(plan, s.place, s.decide[w]);
    case FetchLinks(w, _, _) => assert FetcherTrue(plan, s.place, s.fetch[w], s.c.held[w].fileID);
    case _ =>
  }

  lemma LinkedStays(plan: Plan, s: State, s': State, made: Option<(nat, string)>)
    requires LinkedTrue(plan, s.place, s.linked) && StaysInPlace(s.place, s'.place) && LinksOnly(s, s', made)
    requires made.Some? ==> LinksTo(plan, s.place, made.value.0, made.value.1)
    ensures LinkedTrue(plan, s'.place, s'.linked)
  {
    forall f | f in s'.place && s'.place[f] == Linked
      ensures f in s'.linked && LinksTo(plan, s'.place, f, s'.linked[f])
    {
      LinksToStays(plan, s.place, s'.place, f, s'.linked[f]);
    }
  }

  // ---- the items -----------------------------------------------------------

  lemma ItemsPushed(plan: Plan, g: nat, fs: seq<nat>)
    requires forall f :: f in fs ==> f in plan.files
    ensures forall it :: it in LargestFirst(ItemsOf(plan, g, fs)) ==> OwnItem(plan, it)
  {
    var items := ItemsOf(plan, g, fs);
    LargestFirstFacts(items, 0);
    forall it | it in LargestFirst(items)
      ensures OwnItem(plan, it)
    {
      assert it in multiset(LargestFirst(items));
      assert it in items;
    }
  }

  lemma EndItems(cfg: QC.Config, plan: Plan, s: State, w: nat)
    requires |s.c.history| == |s.c.tries| && Enabled(cfg, plan, s, EndGroup(w)) && Shape(plan, s) && Exact(s)
    requires ItemsTrue(plan, s.c)
    ensures ItemsTrue(plan, Apply(cfg, plan, s, EndGroup(w)).c)
  {
    var d := s.decide[w];
    forall f | f in d.items
      ensures f in plan.files
    {
      assert f in Contents(s, NeedBox(w));
      Listed(s, NeedBox(w), f);
    }
    ItemsPushed(plan, d.group, d.items);
  }

  lemma FallbackItems(plan: Plan, s: State, g: nat, sec: PendingLink, pusher: QC.Pusher, space: bool)
    requires |s.c.history| == |s.c.tries| && ItemsTrue(plan, s.c) && OwnPath(plan, sec)
    ensures ItemsTrue(plan, FetchInstead(plan, s, g, sec, pusher, space).c)
  {
  }

  lemma WokenItems(cfg: QC.Config, plan: Plan, s: State, step: Step)
    requires |s.c.history| == |s.c.tries| && Enabled(cfg, plan, s, step)
    requires Deciders(plan, s) && Fetchers(plan, s) && ItemsTrue(plan, s.c)
    requires step.OrphanFallsBack? || step.DecideLinks? || step.FetchLinks?
    ensures ItemsTrue(plan, Apply(cfg, plan, s, step).c)
  {
    match step
    case OrphanFallsBack(w, space) =>
      var d := s.decide[w];
      assert OwnPath(plan, RestOf(d.pc)[0]);
      FallbackItems(plan, SetPc(s, w, Clearing(d.pc.f, d.pc.rest[1..])), d.group, d.pc.rest[0], QC.DecideWorker, space);
    case DecideLinks(w, made, space) =>
      var d := s.decide[w];
      assert OwnPath(plan, RestOf(d.pc)[0]);
      FallbackItems(plan, SetPc(s, w, Between(d.pc.rest[1..])), d.group, d.pc.rest[0], QC.DecideWorker, space);
    case FetchLinks(w, made, space) =>
      var rest := s.fetch[w].rest;
      assert OwnPath(plan, RestOfFetch(s.fetch[w])[0]);
      FallbackItems(plan, s.(fetch := s.fetch[w := Linking(rest[1..])]), s.c.held[w].groupID, rest[0],
                    QC.FetchWorker(w), space);
  }

  lemma HeldItems(cfg: QC.Config, plan: Plan, s: State, step: Step)
    requires |s.c.history| == |s.c.tries| && Enabled(cfg, plan, s, step) && ItemsTrue(plan, s.c)
    requires step.PopItem? || step.FinishItem? || step.RetryItem? || step.ReturnItem? || step.FinishFailed?
    ensures ItemsTrue(plan, Apply(cfg, plan, s, step).c)
  {
  }

  lemma SameItems(cfg: QC.Config, plan: Plan, s: State, step: Step)
    requires |s.c.history| == |s.c.tries| && Enabled(cfg, plan, s, step) && ItemsTrue(plan, s.c)
    requires step.NeedContent? || step.ContentMatches? || step.CloseQueue? || step.PublishItem? || step.GiveUp?
             || step.FailOrphan?
    ensures ItemsTrue(plan, Apply(cfg, plan, s, step).c)
  {
  }

  lemma ItemsKept(cfg: QC.Config, plan: Plan, s: State, step: Step)
    requires |s.c.history| == |s.c.tries| && Enabled(cfg, plan, s, step) && Shape(plan, s) && Exact(s)
    requires Deciders(plan, s) && Fetchers(plan, s) && ItemsTrue(plan, s.c)
    ensures ItemsTrue(plan, Apply(cfg, plan, s, step).c)
  {
    if OnEntry(step) {
      EntryLeavesHeld(cfg, plan, s, step);
    } else if step.OrphanFallsBack? || step.DecideLinks? || step.FetchLinks? {
      WokenItems(cfg, plan, s, step);
    } else if step.EndGroup? {
      EndItems(cfg, plan, s, step.w);
    } else if step.PopItem? || step.FinishItem? || step.RetryItem? || step.ReturnItem? || step.FinishFailed? {
      HeldItems(cfg, plan, s, step);
    } else {
      SameItems(cfg, plan, s, step);
    }
  }

  // ---- whole sessions ------------------------------------------------------

  lemma StepKeeps(cfg: QC.Config, plan: Plan, s: State, step: Step)
    requires |s.c.history| == |s.c.tries| && Enabled(cfg, plan, s, step)
    requires Shape(plan, s) && Exact(s) && TakenUp(plan, s) && Primaries(plan, s) && KeysTrue(plan, s)
    ensures KeysTrue(plan, Apply(cfg, plan, s, step))
  {
    PlacesStay(cfg, plan, s, step);
    MapKept(cfg, plan, s, step);
    DecidersKept(cfg, plan, s, step);
    FetchersKept(cfg, plan, s, step);
    StepLinksOnly(cfg, plan, s, step);
    MadeTrue(cfg, plan, s, step);
    LinkedStays(plan, s, Apply(cfg, plan, s, step), Made(plan, s, step));
    ItemsKept(cfg, plan, s, step);
  }

  lemma {:induction false} RunKeeps(cfg: QC.Config, plan: Plan, s: State, steps: seq<Step>)
    requires plan.WellFormed() && Inv(cfg, plan, s) && RR.Runs(cfg, plan, s, steps) && KeysTrue(plan, s)
    ensures KeysTrue(plan, RR.End(cfg, plan, s, steps))
    decreases |steps|
  {
    if steps != [] {
      StepKeeps(cfg, plan, s, steps[0]);
      RR.StepKeeps(cfg, plan, s, steps[0]);
      RunKeeps(cfg, plan, Apply(cfg, plan, s, steps[0]), steps[1..]);
    }
  }

  lemma ReachableKeys(cfg: QC.Config, plan: Plan, s: State)
    requires RR.Reachable(cfg, plan, s)
    ensures KeysTrue(plan, s)
  {
    var steps :| RR.IsRun(cfg, plan, steps) && RR.Final(cfg, plan, steps) == s;
    RR.InitInv(cfg, plan);
    RunKeeps(cfg, plan, Init(cfg, plan), steps);
  }

  /** In every reachable state the hard-link map speaks of files under their own keys: a
      primary leads the key of its manifest entry; whatever is parked on a key has that
      key, and its own path; and the path of a key is that of a file of that key whose
      content is on disk, published, skipped or landed. */
  lemma KeysAreTheirOwn(cfg: QC.Config, plan: Plan, s: State)
    requires RR.Reachable(cfg, plan, s)
    ensures forall f :: f in s.links.fileKey ==> f in plan.files && plan.files[f].key == Some(s.links.fileKey[f])
    ensures forall k: nat, i: nat :: i < |s.links.Waiting(k)| ==>
              var sec := s.links.Waiting(k)[i];
              sec.fileID in plan.files && plan.files[sec.fileID].key == Some(k) && plan.files[sec.fileID].rel == sec.rel
    ensures forall k :: k in s.links.keyToPath ==> Leads(plan, s.place, k, s.links.keyToPath[k])
  {
    ReachableKeys(cfg, plan, s);
  }

  /** A secondary is parked on its own key, and waits for a primary of that key that is
      still being decided, queued or in flight. */
  lemma SecondaryAwaitsOwnKey(cfg: QC.Config, plan: Plan, s: State, f: nat, key: nat) returns (p: nat)
    requires RR.Reachable(cfg, plan, s) && f in s.place && s.place[f] == At(ParkBox(key))
    ensures f in plan.files && plan.files[f].key == Some(key)
    ensures LivePrimary(s, p) && p in plan.files && plan.files[p].key == Some(key) && p != f
  {
    RR.EverySecondaryIsAwaited(cfg, plan, s, key, f);
    RR.NothingDuplicated(cfg, plan, s, ParkBox(key), f);
    ReachableKeys(cfg, plan, s);
    ParkedOwn(plan, s, key, f);
    p := LeaderOwn(plan, s, key);
  }

  lemma ParkedOwn(plan: Plan, s: State, key: nat, f: nat)
    requires MapTrue(plan, s.place, s.links) && f in Contents(s, ParkBox(key))
    ensures Own(plan, f, key)
  {
    var i :| 0 <= i < |LinkIds(s.links.Waiting(key))| && LinkIds(s.links.Waiting(key))[i] == f;
    assert s.links.Waiting(key)[i].fileID == f;
  }

  lemma LeaderOwn(plan: Plan, s: State, key: nat) returns (p: nat)
    requires MapTrue(plan, s.place, s.links) && HasLivePrimary(s, key)
    ensures LivePrimary(s, p) && Own(plan, p, key)
  {
    p :| LivePrimary(s, p) && s.links.fileKey[p] == key;
  }

  // ---- what decideFile does, by the entry's own key ------------------------

  /** An entry without a key is compared on its own; one with a key consults the map. */
  lemma BeginsByKey(cfg: QC.Config, plan: Plan, s: State, w: nat)
    requires |s.c.history| == |s.c.tries| && Enabled(cfg, plan, s, Begin(w)) && s.decide[w].todo[0] in plan.files
    ensures var f := s.decide[w].todo[0];
            Apply(cfg, plan, s, Begin(w)).decide[w].pc
            == if plan.files[f].key.Some? then AskPath(f) else Content(f, false)
  {
  }

  /** With a path on record the entry is linked to it, and otherwise it claims its key. */
  lemma SeeksOwnPath(cfg: QC.Config, plan: Plan, s: State, w: nat, key: nat)
    requires |s.c.history| == |s.c.tries| && Enabled(cfg, plan, s, SeekPath(w)) && Own(plan, s.decide[w].pc.f, key)
    ensures var f, d := s.decide[w].pc.f, Apply(cfg, plan, s, SeekPath(w)).decide[w];
            if key in s.links.keyToPath then d.pc == TryLink(f) && d.via == s.links.keyToPath[key] else d.pc == AskClaim(f)
  {
  }

  /** It parks behind the others of its key exactly while the key is seen and not on disk,
      and otherwise goes on to lead it. */
  lemma ClaimsOwnKey(cfg: QC.Config, plan: Plan, s: State, w: nat, key: nat)
    requires |s.c.history| == |s.c.tries| && Enabled(cfg, plan, s, ClaimOrLead(w)) && Own(plan, s.decide[w].pc.f, key)
    ensures var f, t := s.decide[w].pc.f, Apply(cfg, plan, s, ClaimOrLead(w));
            if key in s.links.seen && key !in s.links.keyToPath then
              && t.place == s.place[f := At(ParkBox(key))] && t.decide[w].pc == Between([])
              && t.links.Waiting(key) == s.links.Waiting(key) + [PendingLink(f, plan.files[f].rel)]
            else t.place == s.place && t.links == s.links && t.decide[w].pc == Clearing(f, [])
  {
  }

  /** Taking over, the entry is the primary of its own key, which is seen from then on. */
  lemma LeadsOwnKey(cfg: QC.Config, plan: Plan, s: State, w: nat, key: nat)
    requires |s.c.history| == |s.c.tries| && Enabled(cfg, plan, s, TakeOver(w)) && Own(plan, s.decide[w].pc.f, key)
    ensures var f, t := s.decide[w].pc.f, Apply(cfg, plan, s, TakeOver(w));
            && t.links.fileKey == s.links.fileKey[f := key] && t.links.seen == s.links.seen + {key}
            && t.links.keyToPath == s.links.keyToPath && t.links.pending == s.links.pending
            && t.decide[w].pc == Content(f, true)
  {
  }

  /** A secondary that cannot be linked is queued as a file of its own, under the group at
      hand, when its metadata is on record and there is space; and is failed and counted
      otherwise. */
  lemma FallsBack(plan: Plan, s: State, g: nat, sec: PendingLink, pusher: QC.Pusher, space: bool)
    requires |s.c.history| == |s.c.tries| && OwnPath(plan, sec)
    ensures var t := FetchInstead(plan, s, g, sec, pusher, space);
            var it := NeedItem(sec.fileID, g, plan.files[sec.fileID].size, plan.files[sec.fileID].rel, 0);
            if sec.fileID in s.meta && space then
              && t.place == s.place[sec.fileID := At(QueueBox)] && t.c.q.items == s.c.q.items + [it]
              && t.filesFailed == s.filesFailed
            else
              t.place == s.place[sec.fileID := Failed] && t.c == s.c && t.filesFailed == s.filesFailed + 1
  {
  }

  /** In every reachable state a linked file was linked to the path of another file of its
      own key whose content is on disk. */
  lemma LinkedWithinKey(cfg: QC.Config, plan: Plan, s: State, f: nat) returns (p: nat)
    requires RR.Reachable(cfg, plan, s) && f in s.place && s.place[f] == Linked
    ensures f in plan.files && p in plan.files && p != f && f in s.linked && s.linked[f] == plan.files[p].rel
    ensures plan.files[f].key.Some? && plan.files[p].key == plan.files[f].key && InPlace(s.place, p)
  {
    ReachableKeys(cfg, plan, s);
    p :| Own(plan, p, plan.files[f].key.value) && plan.files[p].rel == s.linked[f] && InPlace(s.place, p);
  }

  /** Whatever is queued or in flight carries the path and the size of its manifest entry. */
  lemma ItemsAreTheirOwn(cfg: QC.Config, plan: Plan, s: State, it: NeedItem)
    requires RR.Reachable(cfg, plan, s) && (it in s.c.q.items || it in s.c.held.Values)
    ensures it.fileID in plan.files && it.rel == plan.files[it.fileID].rel && it.size == plan.files[it.fileID].size
  {
    ReachableKeys(cfg, plan, s);
  }
}
