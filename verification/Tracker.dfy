/** The sender's completion accounting (internal/sender/state.go) and the servicer
    that feeds it (internal/sender/serve.go).  The session is done when every group
    is decided, every needed file is resolved and nothing is in flight. */
module Tracker {
  import opened Bytes
  import opened Fault
  import opened Finite
  import opened Optional

  datatype Decision = Decision(group: nat, needed: seq<nat>, skipped: nat, rejected: nat)

  /** What the session summary and the watchdog report; the tallies are 64-bit. */
  datatype Summary = Summary(completed: seq<nat>, failed: set<nat>, fileGroup: map<nat, nat>,
                             skipped: nat, rejected: nat, bytes: nat)

  /** The calls that end a request. */
  datatype Call =
    | Completed(req: nat, file: nat, bytes: nat)
    | Failed(req: nat, resolve: bool, permanent: bool)
    | Cancelled(req: nat)

  datatype Ledger = Ledger(
    groupFirst: seq<nat>,
    decided: set<nat>,
    groupsDecided: nat,
    needed: set<nat>,
    resolved: set<nat>,
    reqToFile: map<nat, nat>,
    inflight: int,
    summary: Summary,
    allDecidedClosed: bool,
    doneClosed: bool)

  // ---- the operations ------------------------------------------------------

  predicate AllDecided(l: Ledger) { l.groupsDecided >= |l.groupFirst| }

  predicate Finished(l: Ledger) { AllDecided(l) && l.inflight <= 0 && l.needed <= l.resolved }

  /** reevalLocked. */
  function Reeval(l: Ledger): Ledger {
    l.(allDecidedClosed := l.allDecidedClosed || AllDecided(l), doneClosed := l.doneClosed || Finished(l))
  }

  function New(groupFirst: seq<nat>): Ledger {
    Reeval(Ledger(groupFirst, {}, 0, {}, {}, map[], 0, Summary([], {}, map[], 0, 0, 0), false, false))
  }

  datatype Result = Ok(ledger: Ledger) | Err(code: nat)

  function Ids(first: nat, indices: seq<nat>): set<nat> { set i | i in indices :: first + i }

  lemma IdsGrow(first: nat, indices: seq<nat>, i: nat)
    requires i < |indices|
    ensures Ids(first, indices[..i + 1]) == Ids(first, indices[..i]) + {first + indices[i]}
  {
    var some, more := indices[..i], indices[..i + 1];
    assert more == some + [indices[i]];
    forall x
      ensures x in Ids(first, more) <==> x in Ids(first, some) + {first + indices[i]}
    {
      assert indices[i] in more;
      assert forall k :: k in some ==> k in more;
      assert forall k :: k in more ==> k in some || k == indices[i];
    }
  }

  /** The needed files of a group, owned by it. */
  function Owned(m: map<nat, nat>, ids: set<nat>, g: nat): (r: map<nat, nat>)
    ensures r.Keys == m.Keys + ids
    ensures forall f :: f in r ==> r[f] == if f in ids then g else m[f]
  {
    map f | f in m.Keys + ids :: if f in ids then g else m[f]
  }

  /** Addition in 64 bits. */
  function Plus(a: nat, b: nat): nat { (a + b) % U64 }

  function Counted(u: Summary, ids: set<nat>, d: Decision): Summary {
    u.(fileGroup := Owned(u.fileGroup, ids, d.group),
       skipped := Plus(u.skipped, d.skipped), rejected := Plus(u.rejected, d.rejected))
  }

  function Recorded(l: Ledger, d: Decision): Ledger
    requires d.group < |l.groupFirst|
  {
    var ids := Ids(l.groupFirst[d.group], d.needed);
    l.(decided := l.decided + {d.group}, groupsDecided := l.groupsDecided + 1,
       needed := l.needed + ids, summary := Counted(l.summary, ids, d))
  }

  function Decide(l: Ledger, d: Decision): Result {
    if d.group >= |l.groupFirst| then Err(E5001)
    else if d.group in l.decided then Err(E5009)
    else Ok(Reeval(Recorded(l, d)))
  }

  function Started(l: Ledger, req: nat, file: nat): Ledger {
    l.(reqToFile := l.reqToFile[req := file], inflight := l.inflight + 1)
  }

  /** finishLocked. */
  function Release(l: Ledger, req: nat, resolve: bool): Ledger {
    if req !in l.reqToFile then l
    else l.(reqToFile := Without(l.reqToFile, req), inflight := l.inflight - 1,
            resolved := if resolve then l.resolved + {l.reqToFile[req]} else l.resolved)
  }

  /** A failure resolves its file only if it is final. */
  function Resolves(call: Call): bool { call.Failed? ==> call.resolve }

  /** The first completion of a file counts, and a permanent failure of a request that
      still holds its slot. */
  function Reported(u: Summary, slots: map<nat, nat>, call: Call): Summary {
    match call
    case Completed(_, file, bytes) =>
      if file in u.completed then u else u.(completed := u.completed + [file], bytes := Plus(u.bytes, bytes))
    case Failed(req, _, permanent) =>
      if permanent && req in slots then u.(failed := u.failed + {slots[req]}) else u
    case Cancelled(_) => u
  }

  function Perform(l: Ledger, call: Call): Ledger {
    Reeval(Release(l, call.req, Resolves(call)).(summary := Reported(l.summary, l.reqToFile, call)))
  }

  /** The tracker object: each method is one critical section. */
  class SharedTracker {
    var groupFirst: seq<nat>
    var decided: set<nat>
    var groupsDecided: nat
    var needed: set<nat>
    var resolved: set<nat>
    var reqToFile: map<nat, nat>
    var inflight: int
    var completed: seq<nat>
    var failed: set<nat>
    var fileGroup: map<nat, nat>
    var skipped: nat
    var rejected: nat
    var bytes: nat
    var allDecidedClosed: bool
    var doneClosed: bool

    ghost function View(): Ledger
      reads this
    {
      Ledger(groupFirst, decided, groupsDecided, needed, resolved, reqToFile, inflight,
             Summary(completed, failed, fileGroup, skipped, rejected, bytes), allDecidedClosed, doneClosed)
    }

    constructor (groupFirst: seq<nat>)
      ensures View() == New(groupFirst)
    {
      this.groupFirst := groupFirst;
      decided, groupsDecided, needed, resolved := {}, 0, {}, {};
      reqToFile, inflight, completed, failed := map[], 0, [], {};
      fileGroup, skipped, rejected, bytes := map[], 0, 0, 0;
      allDecidedClosed, doneClosed := false, false;
      new;
      ReevalLocked();
    }

    method ReevalLocked()
      modifies this`allDecidedClosed, this`doneClosed
      ensures View() == Reeval(old(View()))
    {
      if !allDecidedClosed && groupsDecided >= |groupFirst| {
        allDecidedClosed := true;
      }
      if doneClosed || groupsDecided < |groupFirst| || inflight > 0 {
        return;
      }
      var unseen := needed;
      while unseen != {}
        invariant unseen <= needed
        invariant forall f :: f in needed && f !in unseen ==> f in resolved
        decreases unseen
      {
        var f :| f in unseen;
        if f !in resolved {
          return;
        }
        unseen := unseen - {f};
      }
      doneClosed := true;
    }

    method RecordNeeded(group: nat, first: nat, indices: seq<nat>)
      modifies this`needed, this`fileGroup
      ensures needed == old(needed) + Ids(first, indices)
      ensures fileGroup == Owned(old(fileGroup), Ids(first, indices), group)
    {
      for i := 0 to |indices|
        invariant needed == old(needed) + Ids(first, indices[..i])
        invariant fileGroup == Owned(old(fileGroup), Ids(first, indices[..i]), group)
      {
        IdsGrow(first, indices, i);
        var f := first + indices[i];
        needed := needed + {f};
        fileGroup := fileGroup[f := group];
      }
      assert indices[..|indices|] == indices;
    }

    method Record(d: Decision)
      requires d.group < |groupFirst|
      modifies this`decided, this`groupsDecided, this`needed, this`fileGroup, this`skipped, this`rejected
      ensures View() == Recorded(old(View()), d)
    {
      var first := groupFirst[d.group];
      ghost var ids := Ids(first, d.needed);
      decided := decided + {d.group};
      groupsDecided := groupsDecided + 1;
      RecordNeeded(d.group, first, d.needed);
      skipped := Plus(skipped, d.skipped);
      rejected := Plus(rejected, d.rejected);
      assert Summary(completed, failed, fileGroup, skipped, rejected, bytes) == Counted(old(View()).summary, ids, d);
    }

    method DecisionArrives(d: Decision) returns (code: nat)
      modifies this
      ensures match Decide(old(View()), d)
              case Err(e) => code == e && View() == old(View())
              case Ok(l) => code == 0 && View() == l
    {
      if d.group >= |groupFirst| {
        return E5001;
      }
      if d.group in decided {
        return E5009;
      }
      Record(d);
      ReevalLocked();
      code := 0;
    }

    method ReqStarted(req: nat, file: nat)
      modifies this
      ensures View() == Started(old(View()), req, file)
    {
      reqToFile := reqToFile[req := file];
      inflight := inflight + 1;
    }

    method FinishLocked(req: nat, resolve: bool)
      modifies this`reqToFile, this`inflight, this`resolved
      ensures View() == Release(old(View()), req, resolve)
    {
      if req in reqToFile {
        var file := reqToFile[req];
        reqToFile := Without(reqToFile, req);
        inflight := inflight - 1;
        if resolve {
          resolved := resolved + {file};
        }
      }
    }

    method ReqEnds(call: Call)
      modifies this
      ensures View() == Perform(old(View()), call)
    {
      match call
      case Completed(req, file, sent) =>
        FinishLocked(req, true);
        if file !in completed {
          completed := completed + [file];
          bytes := Plus(bytes, sent);
        }
        ReevalLocked();
      case Failed(req, resolve, permanent) =>
        var known := req in reqToFile;
        var file := if known then reqToFile[req] else 0;
        FinishLocked(req, resolve);
        if known && permanent {
          failed := failed + {file};
        }
        ReevalLocked();
      case Cancelled(req) =>
        FinishLocked(req, true);
        ReevalLocked();
    }
  }

  // ---- runs of the servicers -----------------------------------------------

  /** `serving` holds the requests between reqStarted and the return of serve that
      still owe their release, `cancelled` those of them a FILE_CANCEL hit, and
      `used` every request id ever seen.  `accepted` are the decisions taken and `ended`
      the calls that ended a request, each with the file of the serve call it released,
      if it released one, in order. */
  datatype Session = Session(ledger: Ledger, serving: map<nat, nat>, cancelled: set<nat>, used: set<nat>,
                             accepted: seq<Decision>, ended: seq<Ending>)

  datatype Ending = Ending(call: Call, file: Option<nat>)

  /** The file of a serve call in progress that was not cancelled. */
  function Serving(s: Session, req: nat): Option<nat> {
    if req in s.serving && req !in s.cancelled then Some(s.serving[req]) else None
  }


  datatype Step =
    | Decided(d: Decision)
    | Start(req: nat, file: nat)
    | End(call: Call)      // the one release of a serve call
    | Cancel(req: nat)     // FILE_CANCEL, on whatever channel

  /** The releases serve makes for a request for `file`. */
  predicate Owed(file: nat, call: Call) {
    match call
    case Completed(_, f, _) => f == file
    case Failed(_, resolve, permanent) => permanent == resolve
    case Cancelled(_) => false
  }

  predicate Enabled(s: Session, step: Step) {
    match step
    case Decided(_) => true
    case Start(req, _) => req !in s.used
    case End(call) => call.req in s.serving && Owed(s.serving[call.req], call)
    case Cancel(_) => true
  }

  function Apply(s: Session, step: Step): Session
    requires Enabled(s, step)
  {
    match step
    case Decided(d) =>
      var r := Decide(s.ledger, d);
      if r.Ok? then s.(ledger := r.ledger, accepted := s.accepted + [d]) else s
    case Start(req, file) =>
      s.(ledger := Started(s.ledger, req, file), serving := s.serving[req := file], used := s.used + {req})
    case End(call) =>
      s.(ledger := Perform(s.ledger, call), serving := Without(s.serving, call.req),
         cancelled := s.cancelled - {call.req}, ended := s.ended + [Ending(call, Serving(s, call.req))])
    case Cancel(req) =>
      s.(ledger := Perform(s.ledger, Cancelled(req)), ended := s.ended + [Ending(Cancelled(req), Serving(s, req))],
         cancelled := if req in s.serving then s.cancelled + {req} else s.cancelled)
  }

  function Begin(groupFirst: seq<nat>): Session { Session(New(groupFirst), map[], {}, {}, [], []) }

  predicate Runs(s: Session, steps: seq<Step>)
    decreases |steps|
  {
    steps == [] || (Enabled(s, steps[0]) && Runs(Apply(s, steps[0]), steps[1..]))
  }

  function Final(s: Session, steps: seq<Step>): Session
    requires Runs(s, steps)
    decreases |steps|
  {
    if steps == [] then s else Final(Apply(s, steps[0]), steps[1..])
  }

  /** A slot is held exactly by the uncancelled serve calls in progress, and a
      cancelled one has resolved its file already. */
  ghost predicate Slots(s: Session) {
    && s.serving.Keys <= s.used
    && s.cancelled <= s.serving.Keys
    && Held(s.ledger.reqToFile, s.serving, s.cancelled)
    && (forall r :: r in s.cancelled ==> s.serving[r] in s.ledger.resolved)
    && s.ledger.inflight == |s.ledger.reqToFile.Keys|
  }

  ghost predicate Held(slots: map<nat, nat>, serving: map<nat, nat>, cancelled: set<nat>) {
    && (forall r :: r in slots <==> r in serving && r !in cancelled)
    && (forall r :: r in slots ==> r in serving && slots[r] == serving[r])
  }

  /** Bookkeeping, and the meaning of the two closed flags. */
  ghost predicate Sound(l: Ledger) {
    && (forall g :: g in l.decided ==> g < |l.groupFirst|)
    && l.groupsDecided == |l.decided|
    && (l.allDecidedClosed <==> AllDecided(l))
    && (Finished(l) ==> l.doneClosed)
    && (l.doneClosed ==> AllDecided(l) && l.needed <= l.resolved)
  }

  /** Every needed file has the group that asked for it; completed and failed files are
      resolved, and no file completes twice. */
  ghost predicate Reports(l: Ledger) {
    && l.summary.fileGroup.Keys == l.needed
    && (forall f :: f in l.summary.fileGroup ==> l.summary.fileGroup[f] in l.decided)
    && l.summary.failed <= l.resolved
    && Distinct(l.summary.completed)
    && (forall f :: f in l.summary.completed ==> f in l.resolved)
  }

  ghost predicate Inv(s: Session) { Slots(s) && Sound(s.ledger) && Reports(s.ledger) }

  /** What any ending call does to the slots. */
  lemma PerformFrees(l: Ledger, call: Call)
    ensures var r := Perform(l, call);
            && r.reqToFile == Without(l.reqToFile, call.req)
            && r.inflight == l.inflight - (if call.req in l.reqToFile then 1 else 0)
            && l.resolved <= r.resolved
            && r.resolved <= l.resolved + (if call.req in l.reqToFile then {l.reqToFile[call.req]} else {})
  {
  }

  lemma StartHolds(s: Session, req: nat, file: nat)
    requires Slots(s) && Enabled(s, Start(req, file))
    ensures Slots(Apply(s, Start(req, file)))
  {
    assert Apply(s, Start(req, file)).ledger.reqToFile.Keys == s.ledger.reqToFile.Keys + {req};
  }

  lemma SlotsKept(s: Session, step: Step)
    requires Slots(s) && Enabled(s, step)
    ensures Slots(Apply(s, step))
  {
    match step
    case Decided(_) =>
    case Start(req, file) => StartHolds(s, req, file);
    case End(call) => EndFrees(s, call);
    case Cancel(req) => CancelFrees(s, req);
  }

  lemma EndFrees(s: Session, call: Call)
    requires Slots(s) && Enabled(s, End(call))
    ensures Slots(Apply(s, End(call)))
  {
    PerformFrees(s.ledger, call);
    var s' := Apply(s, End(call));
    assert Held(s'.ledger.reqToFile, s'.serving, s'.cancelled);
  }

  lemma CancelFrees(s: Session, req: nat)
    requires Slots(s)
    ensures Slots(Apply(s, Cancel(req)))
  {
    PerformFrees(s.ledger, Cancelled(req));
    var s' := Apply(s, Cancel(req));
    assert Held(s'.ledger.reqToFile, s'.serving, s'.cancelled);
  }

  lemma ReportsKept(s: Session, step: Step)
    requires Slots(s) && Reports(s.ledger) && Enabled(s, step)
    ensures Reports(Apply(s, step).ledger)
  {
    match step
    case Decided(d) =>
    case Start(_, _) =>
    case End(call) => ReportsEnded(s.ledger, call, s.serving[call.req]);
    case Cancel(req) => ReportsEnded(s.ledger, Cancelled(req), 0);
  }

  lemma ReportsEnded(l: Ledger, call: Call, file: nat)
    requires Reports(l) && (call.Cancelled? || Owed(file, call))
    requires call.Completed? ==> if call.req in l.reqToFile then l.reqToFile[call.req] == file else file in l.resolved
    ensures Reports(Perform(l, call))
  {
  }

  lemma SoundDecided(l: Ledger, d: Decision)
    requires Sound(l) && Decide(l, d).Ok?
    ensures Sound(Decide(l, d).ledger)
  {
    Pigeonhole(l.decided, |l.groupFirst|);
  }

  lemma SoundEnded(l: Ledger, call: Call)
    requires Sound(l)
    ensures Sound(Perform(l, call))
  {
    PerformFrees(l, call);
  }

  lemma SoundKept(s: Session, step: Step)
    requires Inv(s) && Enabled(s, step)
    ensures Sound(Apply(s, step).ledger)
  {
    match step
    case Decided(d) =>
      if Decide(s.ledger, d).Ok? {
        SoundDecided(s.ledger, d);
      }
    case Start(_, _) =>
    case End(call) => SoundEnded(s.ledger, call);
    case Cancel(req) => SoundEnded(s.ledger, Cancelled(req));
  }

  lemma StepKeeps(s: Session, step: Step)
    requires Inv(s) && Enabled(s, step)
    ensures Inv(Apply(s, step))
  {
    SlotsKept(s, step);
    SoundKept(s, step);
    ReportsKept(s, step);
  }

  lemma {:induction false} RunKeeps(s: Session, steps: seq<Step>)
    requires Inv(s) && Runs(s, steps)
    ensures Inv(Final(s, steps))
    decreases |steps|
  {
    if steps != [] {
      StepKeeps(s, steps[0]);
      RunKeeps(Apply(s, steps[0]), steps[1..]);
    }
  }

  /** With distinct request ids, in-flight is the number of serve calls in progress
      less those a FILE_CANCEL released early: equal exactly when there is none.
      (The receiver never sends FILE_CANCEL.) */
  lemma InflightCountsServes(groupFirst: seq<nat>, steps: seq<Step>)
    requires Runs(Begin(groupFirst), steps)
    ensures var s := Final(Begin(groupFirst), steps);
            && s.ledger.inflight == |s.serving.Keys| - |s.cancelled|
            && (s.ledger.inflight == |s.serving.Keys| <==> s.cancelled == {})
  {
    RunKeeps(Begin(groupFirst), steps);
    var s := Final(Begin(groupFirst), steps);
    assert s.ledger.reqToFile.Keys == s.serving.Keys - s.cancelled;
  }

  /** In every run the summary tells the truth: no file is counted as completed twice,
      completed and failed files are resolved, and the files attributed to groups are
      exactly the needed ones, each to a group that was decided. */
  lemma SummaryIsTrue(groupFirst: seq<nat>, steps: seq<Step>)
    requires Runs(Begin(groupFirst), steps)
    ensures Reports(Final(Begin(groupFirst), steps).ledger)
  {
    RunKeeps(Begin(groupFirst), steps);
  }

  /** The run in which they differ: a FILE_CANCEL, arriving on another channel since a
      servicer reads its own only between requests, releases a request that is still
      being served. */
  lemma CancelReleasesEarly(file: nat)
    ensures var steps := [Start(1, file), Cancel(1)];
            && Runs(Begin([0]), steps)
            && var s := Final(Begin([0]), steps);
               s.ledger.inflight == 0 && s.serving == map[1 := file] && s.cancelled == {1}
  {
    var steps := [Start(1, file), Cancel(1)];
    var s0 := Begin([0]);
    var s1 := Apply(s0, steps[0]);
    assert steps[1..] == [Cancel(1)] && [Cancel(1)][1..] == [];
    assert Runs(s1, steps[1..]);
    var s2 := Apply(s1, Cancel(1));
    assert Runs(s2, []);
    assert Final(s1, steps[1..]) == Final(s2, []) == s2;
  }

  ghost predicate EveryGroupDecided(l: Ledger) { forall g: nat :: g < |l.groupFirst| ==> g in l.decided }

  lemma DecidedMeansEvery(l: Ledger)
    requires Sound(l)
    ensures AllDecided(l) <==> EveryGroupDecided(l)
  {
    Pigeonhole(l.decided, |l.groupFirst|);
    if EveryGroupDecided(l) {
      HoldsAllBelow(l.decided, |l.groupFirst|);
    }
  }

  /** done is closed whenever every group is decided, nothing is in flight and every
      needed file is resolved. */
  lemma DoneWhenFinished(groupFirst: seq<nat>, steps: seq<Step>)
    requires Runs(Begin(groupFirst), steps)
    ensures var l := Final(Begin(groupFirst), steps).ledger;
            && (l.allDecidedClosed <==> EveryGroupDecided(l))
            && (EveryGroupDecided(l) && l.inflight == 0 && l.needed <= l.resolved ==> l.doneClosed)
  {
    RunKeeps(Begin(groupFirst), steps);
    DecidedMeansEvery(Final(Begin(groupFirst), steps).ledger);
  }

  /** done is closed by no step that leaves a group undecided, a request in flight or a
      needed file unresolved. */
  lemma DoneOnlyWhenFinished(groupFirst: seq<nat>, steps: seq<Step>, step: Step)
    requires Runs(Begin(groupFirst), steps) && Enabled(Final(Begin(groupFirst), steps), step)
    requires !Final(Begin(groupFirst), steps).ledger.doneClosed
    ensures var l := Apply(Final(Begin(groupFirst), steps), step).ledger;
            l.doneClosed ==> EveryGroupDecided(l) && l.inflight <= 0 && l.needed <= l.resolved
  {
    RunKeeps(Begin(groupFirst), steps);
    StepKeeps(Final(Begin(groupFirst), steps), step);
    DecidedMeansEvery(Apply(Final(Begin(groupFirst), steps), step).ledger);
  }

  /** Once every group is decided, no step changes what is needed. */
  lemma FrozenStep(s: Session, step: Step)
    requires Sound(s.ledger) && Enabled(s, step) && AllDecided(s.ledger)
    ensures var l, l' := s.ledger, Apply(s, step).ledger;
            && l'.groupFirst == l.groupFirst && l'.groupsDecided == l.groupsDecided
            && l'.needed == l.needed && (l.doneClosed ==> l'.doneClosed)
  {
    if step.Decided? {
      NoDecisionAccepted(s.ledger, step.d);
    }
  }

  /** When every group is decided, any further decision is an error. */
  lemma NoDecisionAccepted(l: Ledger, d: Decision)
    requires Sound(l) && AllDecided(l)
    ensures Decide(l, d).Err?
  {
    Pigeonhole(l.decided, |l.groupFirst|);
  }

  lemma {:induction false} NeededFrozen(s: Session, steps: seq<Step>)
    requires Inv(s) && Runs(s, steps) && AllDecided(s.ledger)
    ensures var l, l' := s.ledger, Final(s, steps).ledger;
            && l'.needed == l.needed && (l.doneClosed ==> l'.doneClosed)
            && Sound(l')
    decreases |steps|
  {
    if steps != [] {
      StepKeeps(s, steps[0]);
      FrozenStep(s, steps[0]);
      NeededFrozen(Apply(s, steps[0]), steps[1..]);
    }
  }

  lemma {:induction false} FinalConcat(s: Session, a: seq<Step>, b: seq<Step>)
    requires Runs(s, a) && Runs(Final(s, a), b)
    ensures Runs(s, a + b) && Final(s, a + b) == Final(Final(s, a), b)
    decreases |a|
  {
    if a == [] {
      assert a + b == b;
    } else {
      assert (a + b)[1..] == a[1..] + b;
      FinalConcat(Apply(s, a[0]), a[1..], b);
    }
  }

  /** Once done is closed it stays so for the rest of the run, every group stays
      decided, nothing new becomes needed and the needed files stay resolved. */
  lemma DoneIsFinal(groupFirst: seq<nat>, before: seq<Step>, after: seq<Step>)
    requires Runs(Begin(groupFirst), before) && Runs(Final(Begin(groupFirst), before), after)
    requires Final(Begin(groupFirst), before).ledger.doneClosed
    ensures Runs(Begin(groupFirst), before + after)
    ensures var s, t := Final(Begin(groupFirst), before).ledger, Final(Begin(groupFirst), before + after).ledger;
            t.doneClosed && EveryGroupDecided(t) && t.needed == s.needed && t.needed <= t.resolved
  {
    FinalConcat(Begin(groupFirst), before, after);
    RunKeeps(Begin(groupFirst), before);
    NeededFrozen(Final(Begin(groupFirst), before), after);
    DecidedMeansEvery(Final(Begin(groupFirst), before + after).ledger);
  }

  // ---- what the ledger has been told ---------------------------------------

  /** Decision d asks for file f: some index of it, from the first file of its group. */
  ghost predicate Names(groupFirst: seq<nat>, d: Decision, f: nat) {
    d.group < |groupFirst| && exists i :: 0 <= i < |d.needed| && f == groupFirst[d.group] + d.needed[i]
  }

  ghost predicate NamedBy(groupFirst: seq<nat>, ds: seq<Decision>, f: nat, g: nat) {
    exists k :: 0 <= k < |ds| && ds[k].group == g && Names(groupFirst, ds[k], f)
  }

  ghost predicate NamedAtAll(groupFirst: seq<nat>, ds: seq<Decision>, f: nat) {
    exists k :: 0 <= k < |ds| && Names(groupFirst, ds[k], f)
  }

  function Tally(ds: seq<Decision>, of: Decision -> nat): nat {
    if ds == [] then 0 else Plus(Tally(ds[..|ds| - 1], of), of(ds[|ds| - 1]))
  }

  function SkippedOf(): Decision -> nat { (d: Decision) => d.skipped }

  function RejectedOf(): Decision -> nat { (d: Decision) => d.rejected }

  /** What is needed, and for which group, is what the accepted decisions asked for. */
  ghost predicate Asked(groupFirst: seq<nat>, needed: set<nat>, owners: map<nat, nat>, ds: seq<Decision>) {
    && (forall f :: f in needed <==> NamedAtAll(groupFirst, ds, f))
    && (forall f :: f in owners ==> NamedBy(groupFirst, ds, f, owners[f]))
  }

  function GroupsOf(ds: seq<Decision>): (r: seq<nat>)
    ensures |r| == |ds| && forall k :: 0 <= k < |r| ==> r[k] == ds[k].group
  {
    seq(|ds|, k requires 0 <= k < |ds| => ds[k].group)
  }

  /** One decision was accepted for each decided group, and the tallies are theirs. */
  ghost predicate Told(l: Ledger, ds: seq<Decision>) {
    && Asked(l.groupFirst, l.needed, l.summary.fileGroup, ds)
    && (forall g :: g in l.decided <==> g in GroupsOf(ds)) && Distinct(GroupsOf(ds))
    && (forall k :: 0 <= k < |ds| ==> ds[k].group < |l.groupFirst|)
    && l.summary.skipped == Tally(ds, SkippedOf()) && l.summary.rejected == Tally(ds, RejectedOf())
  }

  lemma IdsAreNamed(groupFirst: seq<nat>, d: Decision, f: nat)
    requires d.group < |groupFirst|
    ensures f in Ids(groupFirst[d.group], d.needed) <==> Names(groupFirst, d, f)
  {
    if Names(groupFirst, d, f) {
      var i :| 0 <= i < |d.needed| && f == groupFirst[d.group] + d.needed[i];
      assert d.needed[i] in d.needed;
    }
  }

  lemma NamedMore(groupFirst: seq<nat>, ds: seq<Decision>, d: Decision, f: nat, g: nat)
    ensures NamedAtAll(groupFirst, ds + [d], f) <==> NamedAtAll(groupFirst, ds, f) || Names(groupFirst, d, f)
    ensures NamedBy(groupFirst, ds, f, g) || (d.group == g && Names(groupFirst, d, f)) ==>
              NamedBy(groupFirst, ds + [d], f, g)
  {
    var more := ds + [d];
    assert more[|ds|] == d;
    if NamedAtAll(groupFirst, ds, f) {
      var k :| 0 <= k < |ds| && Names(groupFirst, ds[k], f);
      assert more[k] == ds[k];
    }
    if NamedBy(groupFirst, ds, f, g) {
      var k :| 0 <= k < |ds| && ds[k].group == g && Names(groupFirst, ds[k], f);
      assert more[k] == ds[k];
    }
  }

  lemma TallyMore(ds: seq<Decision>, d: Decision, of: Decision -> nat)
    ensures Tally(ds + [d], of) == Plus(Tally(ds, of), of(d))
  {
    assert (ds + [d])[..|ds|] == ds;
  }

  lemma AskedMore(groupFirst: seq<nat>, needed: set<nat>, owners: map<nat, nat>, ds: seq<Decision>, d: Decision)
    requires Asked(groupFirst, needed, owners, ds) && d.group < |groupFirst|
    ensures var ids := Ids(groupFirst[d.group], d.needed);
            Asked(groupFirst, needed + ids, Owned(owners, ids, d.group), ds + [d])
  {
    var ids := Ids(groupFirst[d.group], d.needed);
    var owners' := Owned(owners, ids, d.group);
    forall f
      ensures f in needed + ids <==> NamedAtAll(groupFirst, ds + [d], f)
    {
      IdsAreNamed(groupFirst, d, f);
      NamedMore(groupFirst, ds, d, f, d.group);
    }
    forall f | f in owners'
      ensures NamedBy(groupFirst, ds + [d], f, owners'[f])
    {
      IdsAreNamed(groupFirst, d, f);
      NamedMore(groupFirst, ds, d, f, owners'[f]);
    }
  }

  lemma GroupsMore(ds: seq<Decision>, d: Decision)
    ensures GroupsOf(ds + [d]) == GroupsOf(ds) + [d.group]
  {
  }

  lemma DecisionTold(l: Ledger, ds: seq<Decision>, d: Decision)
    requires Told(l, ds) && Decide(l, d).Ok?
    ensures Told(Decide(l, d).ledger, ds + [d])
  {
    AskedMore(l.groupFirst, l.needed, l.summary.fileGroup, ds, d);
    TallyMore(ds, d, SkippedOf());
    TallyMore(ds, d, RejectedOf());
    GroupsMore(ds, d);
  }

  lemma ToldKept(s: Session, step: Step)
    requires Told(s.ledger, s.accepted) && Enabled(s, step)
    ensures Told(Apply(s, step).ledger, Apply(s, step).accepted)
  {
    if step.Decided? && Decide(s.ledger, step.d).Ok? {
      DecisionTold(s.ledger, s.accepted, step.d);
    }
  }

  lemma {:induction false} RunTold(s: Session, steps: seq<Step>)
    requires Told(s.ledger, s.accepted) && Runs(s, steps)
    ensures Told(Final(s, steps).ledger, Final(s, steps).accepted)
    ensures Final(s, steps).ledger.groupFirst == s.ledger.groupFirst
    decreases |steps|
  {
    if steps != [] {
      ToldKept(s, steps[0]);
      RunTold(Apply(s, steps[0]), steps[1..]);
    }
  }

  /** In every run a file is needed exactly when an accepted decision has an index of it,
      counted from the first file of the decision's group; it is attributed to the group
      of such a decision; one decision was accepted for each decided group; and the
      skipped and rejected tallies are the sums over them, in 64 bits. */
  lemma NeededExactly(groupFirst: seq<nat>, steps: seq<Step>)
    requires Runs(Begin(groupFirst), steps)
    ensures var s := Final(Begin(groupFirst), steps);
            s.ledger.groupFirst == groupFirst && Told(s.ledger, s.accepted)
  {
    RunTold(Begin(groupFirst), steps);
  }

  /** Decision d stays within its group. */
  ghost predicate Within(groupFirst: seq<nat>, d: Decision) {
    d.group + 1 < |groupFirst| ==>
      forall i :: 0 <= i < |d.needed| ==> groupFirst[d.group] + d.needed[i] < groupFirst[d.group + 1]
  }

  /** When the decisions stay within their groups, every needed file lies between the
      first file of the group it is attributed to and that of the next. */
  lemma AttributedWithin(groupFirst: seq<nat>, steps: seq<Step>, f: nat)
    requires Runs(Begin(groupFirst), steps)
    requires var s := Final(Begin(groupFirst), steps);
             f in s.ledger.needed && forall k :: 0 <= k < |s.accepted| ==> Within(groupFirst, s.accepted[k])
    ensures var owners := Final(Begin(groupFirst), steps).ledger.summary.fileGroup;
            && f in owners && owners[f] < |groupFirst| && groupFirst[owners[f]] <= f
            && (owners[f] + 1 < |groupFirst| ==> f < groupFirst[owners[f] + 1])
  {
    RunKeeps(Begin(groupFirst), steps);
    RunTold(Begin(groupFirst), steps);
    var s := Final(Begin(groupFirst), steps);
    OwnerWithin(groupFirst, s.accepted, f, s.ledger.summary.fileGroup[f]);
  }

  lemma OwnerWithin(groupFirst: seq<nat>, ds: seq<Decision>, f: nat, g: nat)
    requires NamedBy(groupFirst, ds, f, g) && forall k :: 0 <= k < |ds| ==> Within(groupFirst, ds[k])
    ensures g < |groupFirst| && groupFirst[g] <= f && (g + 1 < |groupFirst| ==> f < groupFirst[g + 1])
  {
    var k :| 0 <= k < |ds| && ds[k].group == g && Names(groupFirst, ds[k], f);
    assert Within(groupFirst, ds[k]);
  }

  /** The endings resolve file f. */
  ghost predicate ResolvedBy(es: seq<Ending>, f: nat) {
    exists k :: 0 <= k < |es| && es[k].file == Some(f) && (es[k].call.Failed? ==> es[k].call.resolve)
  }

  ghost predicate FailedBy(es: seq<Ending>, f: nat) {
    exists k :: 0 <= k < |es| && es[k].file == Some(f) && es[k].call.Failed? && es[k].call.permanent
  }

  ghost predicate CompletedBy(es: seq<Ending>, f: nat) {
    exists k :: 0 <= k < |es| && es[k].call.Completed? && es[k].call.file == f
  }

  /** The bytes of the first completion of each file, in 64 bits. */
  ghost function BytesOf(es: seq<Ending>): nat {
    if es == [] then 0
    else
      var front, last := es[..|es| - 1], es[|es| - 1];
      if last.call.Completed? && !CompletedBy(front, last.call.file) then Plus(BytesOf(front), last.call.bytes)
      else BytesOf(front)
  }

  /** What is resolved, failed and completed is what the endings of serve calls said. */
  ghost predicate Heard(l: Ledger, es: seq<Ending>) {
    && (forall f :: f in l.resolved <==> ResolvedBy(es, f))
    && (forall f :: f in l.summary.failed <==> FailedBy(es, f))
    && (forall f :: f in l.summary.completed <==> CompletedBy(es, f))
    && l.summary.bytes == BytesOf(es)
  }

  lemma EndingMore(es: seq<Ending>, e: Ending, f: nat)
    ensures ResolvedBy(es + [e], f) <==> ResolvedBy(es, f) || (e.file == Some(f) && (e.call.Failed? ==> e.call.resolve))
    ensures FailedBy(es + [e], f) <==> FailedBy(es, f) || (e.file == Some(f) && e.call.Failed? && e.call.permanent)
    ensures CompletedBy(es + [e], f) <==> CompletedBy(es, f) || (e.call.Completed? && e.call.file == f)
  {
    var more := es + [e];
    assert more[|es|] == e && forall k :: 0 <= k < |es| ==> more[k] == es[k];
  }

  lemma BytesMore(es: seq<Ending>, e: Ending)
    ensures BytesOf(es + [e])
            == if e.call.Completed? && !CompletedBy(es, e.call.file) then Plus(BytesOf(es), e.call.bytes) else BytesOf(es)
  {
    assert (es + [e])[..|es|] == es;
  }

  lemma CallHeard(l: Ledger, es: seq<Ending>, call: Call, file: Option<nat>)
    requires Heard(l, es)
    requires file == if call.req in l.reqToFile then Some(l.reqToFile[call.req]) else None
    ensures Heard(Perform(l, call), es + [Ending(call, file)])
  {
    var e := Ending(call, file);
    forall f
      ensures f in Perform(l, call).resolved <==> ResolvedBy(es + [e], f)
      ensures f in Perform(l, call).summary.failed <==> FailedBy(es + [e], f)
      ensures f in Perform(l, call).summary.completed <==> CompletedBy(es + [e], f)
    {
      EndingMore(es, e, f);
    }
    BytesMore(es, e);
  }

  lemma HeardKept(s: Session, step: Step)
    requires Slots(s) && Heard(s.ledger, s.ended) && Enabled(s, step)
    ensures Heard(Apply(s, step).ledger, Apply(s, step).ended)
  {
    match step
    case Decided(_) =>
    case Start(_, _) =>
    case End(call) => CallHeard(s.ledger, s.ended, call, Serving(s, call.req));
    case Cancel(req) => CallHeard(s.ledger, s.ended, Cancelled(req), Serving(s, req));
  }

  lemma {:induction false} RunHeard(s: Session, steps: seq<Step>)
    requires Inv(s) && Heard(s.ledger, s.ended) && Runs(s, steps)
    ensures Heard(Final(s, steps).ledger, Final(s, steps).ended)
    decreases |steps|
  {
    if steps != [] {
      HeardKept(s, steps[0]);
      StepKeeps(s, steps[0]);
      RunHeard(Apply(s, steps[0]), steps[1..]);
    }
  }

  /** In every run a file is resolved exactly when a serve call for it was released by a
      completion, a cancel or a failure that is final; it is counted as failed exactly
      when one was released by a permanent failure, and as completed exactly when one
      completed; and the bytes are those of first completions, in 64 bits. */
  lemma ResolvedExactly(groupFirst: seq<nat>, steps: seq<Step>)
    requires Runs(Begin(groupFirst), steps)
    ensures var s := Final(Begin(groupFirst), steps); Heard(s.ledger, s.ended)
  {
    RunHeard(Begin(groupFirst), steps);
  }
  /** A decision is refused as out of range exactly when it names no group, and as a
      duplicate exactly when one for its group was accepted before. */
  lemma RefusedExactly(groupFirst: seq<nat>, steps: seq<Step>, d: Decision)
    requires Runs(Begin(groupFirst), steps)
    ensures var s := Final(Begin(groupFirst), steps);
            && (Decide(s.ledger, d) == Err(E5001) <==> d.group >= |groupFirst|)
            && (Decide(s.ledger, d) == Err(E5009) <==> d.group < |groupFirst| && d.group in GroupsOf(s.accepted))
            && (Decide(s.ledger, d).Ok? <==> d.group < |groupFirst| && d.group !in GroupsOf(s.accepted))
  {
    RunTold(Begin(groupFirst), steps);
  }
}
