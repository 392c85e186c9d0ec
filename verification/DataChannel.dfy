/** One data channel between a fetch worker and a servicer, and the part file the
    worker fills (internal/receiver/fetch.go, internal/sender/serve.go).

    The channel is a FIFO each way.  The receiver never compares request ids: it
    keeps one request outstanding and drops a channel whose stream it abandoned.
    A transport failure kills the channel, after which nothing is delivered in
    either direction; the worker may meet it as a lost channel, as a retryable
    item error or as a fatal error. */
module DataChannel {
  import opened Bytes
  import opened Fault

  datatype Request = Request(id: nat, file: nat)

  datatype Msg =
    | Header(req: nat, size: nat, digest: seq<byte>)
    | Chunk(req: nat, offset: nat, data: seq<byte>)
    | Complete(req: nat, digest: seq<byte>)
    | FileErr(req: nat, code: nat)

  /** What both sides agreed on: the planned size and manifest digest (empty when
      there is none) of each file, and the digest algorithm. */
  datatype World = World(sizes: map<nat, nat>, digests: map<nat, seq<byte>>, hash: seq<byte> -> seq<byte>) {
    function SizeOf(f: nat): nat { if f in sizes then sizes[f] else 0 }
    function DigestOf(f: nat): seq<byte> { if f in digests then digests[f] else [] }
  }

  // ---- the receiving side of one request -----------------------------------

  /** fetchOne's position: before the header, or filling the part file. */
  datatype Fetch = AwaitHeader | Receiving(size: nat, hdrDigest: seq<byte>, part: seq<byte>)

  /** What the local file system does with a message: it works, or fails with a code, or
      moves a complete file into place and then refuses its journal record. */
  datatype Local = Works | Fails(code: nat) | Unrecorded

  /** `recorded` says that the journal has the file that was moved into place, `synced`
      that the terminal message of the request has been consumed. */
  datatype Verdict =
    | Continue(next: Fetch)
    | Publish(content: seq<byte>, recorded: bool)
    | Stop(code: nat, synced: bool)

  predicate Differs(d: seq<byte>, local: seq<byte>) { d != [] && d != local }

  /** One turn of fetchOne's receive loop; `manifest` is the manifest digest. */
  function OnMessage(hash: seq<byte> -> seq<byte>, manifest: seq<byte>, pc: Fetch, m: Msg, io: Local): Verdict {
    match pc
    case AwaitHeader =>
      (match m
       case Header(_, size, digest) => if io.Fails? then Stop(io.code, false) else Continue(Receiving(size, digest, []))
       case FileErr(_, code) => Stop(code, true)
       case _ => Stop(E5001, false))
    case Receiving(size, hdrDigest, part) =>
      (match m
       case Chunk(_, offset, data) =>
         if offset != |part| then Stop(E5006, false)
         else if io.Fails? then Stop(io.code, false)
         else Continue(Receiving(size, hdrDigest, part + data))
       case Complete(_, full) =>
         var local := hash(part);
         if |part| != size then Stop(E8002, true)
         else if Differs(full, local) then Stop(E8001, true)
         else if Differs(manifest, local) || Differs(hdrDigest, local) then Stop(E8003, true)
         else if io.Fails? then Stop(io.code, true)
         else Publish(part, io.Works?)
       case FileErr(_, code) => Stop(code, true)
       case Header(_, _, _) => Stop(E5001, false))
  }

  /** fetchOne's whole receive loop over the messages that arrive: the verdict and
      how many messages it took. */
  function Receptions(hash: seq<byte> -> seq<byte>, manifest: seq<byte>, pc: Fetch,
                      inbox: seq<Msg>, io: seq<Local>): (Verdict, nat)
    requires |io| == |inbox|
    decreases |inbox|
  {
    if inbox == [] then (Continue(pc), 0)
    else
      var v := OnMessage(hash, manifest, pc, inbox[0], io[0]);
      if v.Continue? then
        var (w, n) := Receptions(hash, manifest, v.next, inbox[1..], io[1..]);
        (w, n + 1)
      else (v, 1)
  }

  /** fetchOne after its request went out: await the header, then fill the part
      file chunk by chunk until a terminal message. */
  method FetchOne(hash: seq<byte> -> seq<byte>, manifest: seq<byte>, inbox: seq<Msg>, io: seq<Local>)
    returns (v: Verdict, taken: nat)
    requires |io| == |inbox|
    ensures (v, taken) == Receptions(hash, manifest, AwaitHeader, inbox, io)
  {
    if |inbox| == 0 {
      return Continue(AwaitHeader), 0;
    }
    v := OnMessage(hash, manifest, AwaitHeader, inbox[0], io[0]);
    taken := 1;
    if !v.Continue? {
      return;
    }
    var size, hdrDigest, part := v.next.size, v.next.hdrDigest, [];
    while taken < |inbox|
      invariant 1 <= taken <= |inbox|
      invariant var (w, n) := Receptions(hash, manifest, Receiving(size, hdrDigest, part), inbox[taken..], io[taken..]);
                Receptions(hash, manifest, AwaitHeader, inbox, io) == (w, taken + n)
      decreases |inbox| - taken
    {
      assert inbox[taken..][1..] == inbox[taken + 1..] && io[taken..][1..] == io[taken + 1..];
      v := OnMessage(hash, manifest, Receiving(size, hdrDigest, part), inbox[taken], io[taken]);
      taken := taken + 1;
      if !v.Continue? {
        return;
      }
      part := v.next.part;
    }
    v := Continue(Receiving(size, hdrDigest, part));
  }

  /** Chunks contiguous from an offset, of whatever request. */
  predicate Contiguous(ms: seq<Msg>, from: nat) {
    ms == [] || (ms[0].Chunk? && ms[0].offset == from && Contiguous(ms[1..], from + |ms[0].data|))
  }

  /** What a receive loop that took n messages of the inbox, starting from a part
      file, has done: the part file holds exactly the chunks received, contiguous
      from where it stood, and the loop stops in sync exactly at a terminal message. */
  predicate Accounted(hash: seq<byte> -> seq<byte>, manifest: seq<byte>, pc: Fetch, inbox: seq<Msg>, v: Verdict, n: nat)
    requires pc.Receiving?
  {
    match v
    case Continue(next) =>
      && n == |inbox| && Contiguous(inbox, |pc.part|)
      && next == Receiving(pc.size, pc.hdrDigest, pc.part + Body(inbox))
    case Publish(content, _) =>
      && 1 <= n <= |inbox| && inbox[n - 1].Complete? && Contiguous(inbox[..n - 1], |pc.part|)
      && content == pc.part + Body(inbox[..n - 1]) && |content| == pc.size
      && !Differs(manifest, hash(content)) && !Differs(pc.hdrDigest, hash(content))
      && !Differs(inbox[n - 1].digest, hash(content))
    case Stop(_, synced) =>
      && 1 <= n <= |inbox| && Contiguous(inbox[..n - 1], |pc.part|)
      && (synced <==> Terminates(inbox[n - 1]))
  }

  lemma AccountedFurther(hash: seq<byte> -> seq<byte>, manifest: seq<byte>, pc: Fetch, next: Fetch,
                         inbox: seq<Msg>, v: Verdict, n: nat)
    requires pc.Receiving? && inbox != [] && inbox[0].Chunk? && inbox[0].offset == |pc.part|
    requires next == Receiving(pc.size, pc.hdrDigest, pc.part + inbox[0].data)
    requires Accounted(hash, manifest, next, inbox[1..], v, n)
    ensures Accounted(hash, manifest, pc, inbox, v, n + 1)
  {
    if v.Continue? {
      assert pc.part + Body(inbox) == next.part + Body(inbox[1..]);
    } else {
      assert inbox[..n][1..] == inbox[1..][..n - 1];
      assert pc.part + Body(inbox[..n]) == next.part + Body(inbox[..n][1..]);
    }
  }

  /** fetchOne's receive loop, from any part file on any inbox. */
  lemma {:induction false} PartHoldsChunks(hash: seq<byte> -> seq<byte>, manifest: seq<byte>, pc: Fetch,
                                           inbox: seq<Msg>, io: seq<Local>)
    requires |io| == |inbox| && pc.Receiving?
    ensures var (v, n) := Receptions(hash, manifest, pc, inbox, io); Accounted(hash, manifest, pc, inbox, v, n)
    decreases |inbox|
  {
    if inbox == [] {
      assert pc.part + Body(inbox) == pc.part;
    } else {
      var v := OnMessage(hash, manifest, pc, inbox[0], io[0]);
      if v.Continue? {
        PartHoldsChunks(hash, manifest, v.next, inbox[1..], io[1..]);
        var (w, n) := Receptions(hash, manifest, v.next, inbox[1..], io[1..]);
        AccountedFurther(hash, manifest, pc, v.next, inbox, w, n);
      } else {
        assert inbox[..0] == [] && Contiguous([], |pc.part|);
        assert pc.part + Body([]) == pc.part;
      }
    }
  }

  // ---- both ends -----------------------------------------------------------

  datatype Servicer = Idle | Opening(req: Request) | Streaming(req: Request, sent: seq<byte>) | Ended

  datatype Worker = Free | Busy(req: Request, pc: Fetch) | Gone

  /** `log` is everything sent for the current request and `got` how much of it
      the worker has consumed: the theorems are about them, no code reads them. */
  datatype Channel = Channel(
    alive: bool,
    requests: seq<Request>,
    replies: seq<Msg>,
    servicer: Servicer,
    worker: Worker,
    log: seq<Msg>,
    got: nat)

  const FRESH_CHANNEL := Channel(true, [], [], Idle, Free, [], 0)

  function Reply(ch: Channel, m: Msg, next: Servicer): Channel {
    if ch.alive then ch.(replies := ch.replies + [m], log := ch.log + [m], servicer := next)
    else ch.(servicer := next)
  }

  datatype Step =
    | Ask(req: Request)                // the worker sends a FILE_REQUEST
    | Take                             // the servicer reads it
    | Refuse(code: nat, quit: bool)    // FILE_ERROR before any header; quit: unknown file id
    | SendHeader
    | SendChunk(data: seq<byte>)
    | ReadFails(code: nat)             // FILE_ERROR in mid-stream
    | Finish                           // end of file: FILE_COMPLETE or a late FILE_ERROR
    | ServicerQuits
    | Die                              // the transport fails
    | Receive(io: Local, ends: bool)   // the worker consumes a reply; ends: fatal or cancelled
    | TransportError(ends: bool)       // the worker meets the dead channel
    | WorkerQuits                      // cancelled, or a stall (fatal)

  predicate Enabled(ch: Channel, step: Step) {
    match step
    case Ask(_) => ch.worker == Free
    case Take => ch.alive && ch.servicer == Idle && ch.requests != []
    case Refuse(_, _) => ch.servicer.Opening?
    case SendHeader => ch.servicer.Opening?
    case SendChunk(data) => ch.servicer.Streaming? && data != []
    case ReadFails(_) => ch.servicer.Streaming?
    case Finish => ch.servicer.Streaming?
    case ServicerQuits => true
    case Die => true
    case Receive(_, _) => ch.alive && ch.worker.Busy? && ch.replies != []
    case TransportError(_) => !ch.alive && ch.worker.Busy?
    case WorkerQuits => true
  }

  /** The servicer's last message once it has read the whole file. */
  function Terminal(world: World, req: Request, sent: seq<byte>): Msg {
    if |sent| != world.SizeOf(req.file) then FileErr(req.id, E6003)
    else if Differs(world.DigestOf(req.file), world.hash(sent)) then FileErr(req.id, E8003)
    else Complete(req.id, world.hash(sent))
  }

  /** After a verdict the worker loops only if the channel is in step: a stream it
      abandoned ends the worker, and so does a journal error, which is fatal. */
  function AfterVerdict(req: Request, v: Verdict, ends: bool): Worker {
    match v
    case Continue(next) => Busy(req, next)
    case Publish(_, recorded) => if ends || !recorded then Gone else Free
    case Stop(_, synced) => if ends || !synced then Gone else Free
  }

  function Apply(world: World, ch: Channel, step: Step): Channel
    requires Enabled(ch, step)
  {
    match step
    case Ask(req) =>
      ch.(worker := Busy(req, AwaitHeader), log := [], got := 0,
          requests := if ch.alive then ch.requests + [req] else ch.requests)
    case Take => ch.(requests := ch.requests[1..], servicer := Opening(ch.requests[0]))
    case Refuse(code, quit) => Reply(ch, FileErr(ch.servicer.req.id, code), if quit then Ended else Idle)
    case SendHeader =>
      var req := ch.servicer.req;
      Reply(ch, Header(req.id, world.SizeOf(req.file), world.DigestOf(req.file)), Streaming(req, []))
    case SendChunk(data) =>
      var req, sent := ch.servicer.req, ch.servicer.sent;
      Reply(ch, Chunk(req.id, |sent|, data), Streaming(req, sent + data))
    case ReadFails(code) => Reply(ch, FileErr(ch.servicer.req.id, code), Idle)
    case Finish => Reply(ch, Terminal(world, ch.servicer.req, ch.servicer.sent), Idle)
    case ServicerQuits => ch.(servicer := Ended)
    case Die => ch.(alive := false, requests := [], replies := [])
    case Receive(io, ends) =>
      var req := ch.worker.req;
      var v := OnMessage(world.hash, world.DigestOf(req.file), ch.worker.pc, ch.replies[0], io);
      ch.(replies := ch.replies[1..], got := ch.got + 1, worker := AfterVerdict(req, v, ends))
    case TransportError(ends) =>
      ch.(worker := if ends || ch.worker.pc.Receiving? then Gone else Free)
    case WorkerQuits => ch.(worker := Gone)
  }

  // ---- what a response looks like ------------------------------------------

  predicate Terminates(m: Msg) { m.Complete? || m.FileErr? }

  /** Chunks of one request, contiguous from an offset. */
  predicate Chunks(req: nat, ms: seq<Msg>, from: nat) {
    ms == [] ||
    (ms[0].Chunk? && ms[0].req == req && ms[0].offset == from && Chunks(req, ms[1..], from + |ms[0].data|))
  }

  function Body(ms: seq<Msg>): seq<byte> {
    if ms == [] then [] else (if ms[0].Chunk? then ms[0].data else []) + Body(ms[1..])
  }

  /** A response in progress: nothing, or the header and a contiguous body. */
  predicate Open(world: World, req: Request, log: seq<Msg>) {
    log == [] ||
    (log[0] == Header(req.id, world.SizeOf(req.file), world.DigestOf(req.file)) && Chunks(req.id, log[1..], 0))
  }

  function Last(log: seq<Msg>): Msg
    requires log != []
  {
    log[|log| - 1]
  }

  /** A whole response: an open one and its terminal message.  Only a response
      that carried the whole file, with the right digest, completes. */
  predicate Whole(world: World, req: Request, log: seq<Msg>) {
    && log != []
    && var last := Last(log);
       var open := log[..|log| - 1];
       && Open(world, req, open)
       && Terminates(last) && last.req == req.id
       && (last.Complete? ==> open != [] && last == Terminal(world, req, Body(open)))
  }

  /** The servicer's position matches what it has sent for the worker's request. */
  predicate ServicerAt(world: World, ch: Channel, req: Request) {
    if ch.requests != [] then ch.requests == [req] && ch.log == [] && (ch.servicer == Idle || ch.servicer == Ended)
    else match ch.servicer
      case Opening(r) => r == req && ch.log == []
      case Streaming(r, sent) => r == req && Open(world, req, ch.log) && ch.log != [] && Body(ch.log) == sent
      case Idle => Whole(world, req, ch.log)
      case Ended => Whole(world, req, ch.log) || Open(world, req, ch.log)
  }

  /** The worker's position matches what it has consumed. */
  predicate WorkerAt(world: World, ch: Channel, req: Request, pc: Fetch) {
    && ch.got <= |ch.log| && ch.replies == ch.log[ch.got..]
    && match pc
       case AwaitHeader => ch.got == 0
       case Receiving(size, digest, part) =>
         && 1 <= ch.got && !Terminates(ch.log[ch.got - 1])
         && ch.log[0] == Header(req.id, size, digest)
         && part == Body(ch.log[..ch.got])
  }

  /** On a live channel every byte in transit belongs to the request in hand, and
      a free worker's channel is empty. */
  ghost predicate InStep(world: World, ch: Channel) {
    && (!ch.alive ==> ch.requests == [] && ch.replies == [])
    && (ch.alive ==>
          match ch.worker
          case Free => ch.requests == [] && ch.replies == [] && (ch.servicer == Idle || ch.servicer == Ended)
          case Busy(req, pc) => ServicerAt(world, ch, req) && WorkerAt(world, ch, req, pc)
          case Gone => true)
  }

  // ---- facts about responses -----------------------------------------------

  lemma {:induction false} ChunksAppend(req: nat, ms: seq<Msg>, from: nat, c: Msg)
    requires Chunks(req, ms, from)
    requires c.Chunk? && c.req == req && c.offset == from + |Body(ms)|
    ensures Chunks(req, ms + [c], from)
  {
    if ms == [] {
      assert ms + [c] == [c];
      assert Chunks(req, [c][1..], from + |c.data|);
    } else {
      ChunksAppend(req, ms[1..], from + |ms[0].data|, c);
      assert (ms + [c])[1..] == ms[1..] + [c];
    }
  }

  lemma {:induction false} BodyAppend(a: seq<Msg>, b: seq<Msg>)
    ensures Body(a + b) == Body(a) + Body(b)
  {
    if a == [] {
      assert a + b == b;
    } else {
      BodyAppend(a[1..], b);
      var first := if a[0].Chunk? then a[0].data else [];
      assert (a + b)[1..] == a[1..] + b;
      assert first + (Body(a[1..]) + Body(b)) == (first + Body(a[1..])) + Body(b);
    }
  }

  /** Where a chunk sits in a contiguous body decides its offset. */
  lemma {:induction false} ChunkAt(req: nat, ms: seq<Msg>, from: nat, i: nat)
    requires Chunks(req, ms, from) && i < |ms|
    ensures ms[i].Chunk? && ms[i].req == req && ms[i].offset == from + |Body(ms[..i])|
  {
    if i > 0 {
      ChunkAt(req, ms[1..], from + |ms[0].data|, i - 1);
      assert ms[..i][1..] == ms[1..][..i - 1];
    }
  }

  /** The i-th message of a response: the header first, then chunks at the right
      offsets, and a terminal message only at the end. */
  lemma MessageAt(world: World, req: Request, log: seq<Msg>, i: nat)
    requires Open(world, req, log) || Whole(world, req, log)
    requires i < |log|
    ensures log[i].req == req.id
    ensures i == 0 ==> log[i] == Header(req.id, world.SizeOf(req.file), world.DigestOf(req.file)) || log[i].FileErr?
    ensures i > 0 && !Terminates(log[i]) ==> log[i].Chunk? && log[i].offset == |Body(log[..i])|
    ensures Terminates(log[i]) ==> i == |log| - 1
    ensures log[i].Complete? ==> i > 0 && log[i] == Terminal(world, req, Body(log[..i]))
    ensures i > 0 && !Terminates(log[i - 1]) && !Terminates(log[i]) ==> log[i].Chunk?
  {
    var open := if Open(world, req, log) then log else log[..|log| - 1];
    if 0 < i < |open| {
      ChunkAt(req.id, open[1..], 0, i - 1);
      assert log[..i] == open[..i];
      assert open[..i][1..] == open[1..][..i - 1];
    }
  }

  /** No response is both open and whole. */
  lemma OpenIsNotWhole(world: World, req: Request, log: seq<Msg>)
    requires Open(world, req, log)
    ensures !Whole(world, req, log)
  {
    if |log| > 1 {
      ChunkAt(req.id, log[1..], 0, |log| - 2);
    }
  }

  // ---- every step keeps the channel in step --------------------------------

  /** A reply behind what the worker has consumed does not move it. */
  lemma WorkerStays(world: World, ch: Channel, ch': Channel, req: Request, pc: Fetch, m: Msg)
    requires WorkerAt(world, ch, req, pc)
    requires ch'.log == ch.log + [m] && ch'.replies == ch.replies + [m] && ch'.got == ch.got
    ensures WorkerAt(world, ch', req, pc)
  {
    assert ch'.log[ch.got..] == ch.log[ch.got..] + [m];
    assert ch'.log[..ch.got] == ch.log[..ch.got];
  }

  lemma ReplyKeeps(world: World, ch: Channel, m: Msg, next: Servicer)
    requires InStep(world, ch) && (ch.servicer.Opening? || ch.servicer.Streaming?)
    requires ch.alive && ch.worker.Busy? ==>
               ServicerAt(world, Reply(ch, m, next), ch.worker.req) && ch.requests == []
    ensures InStep(world, Reply(ch, m, next))
  {
    if ch.alive && ch.worker.Busy? {
      WorkerStays(world, ch, Reply(ch, m, next), ch.worker.req, ch.worker.pc, m);
    }
  }

  /** A terminal message makes an open response whole. */
  lemma WholeBy(world: World, req: Request, log: seq<Msg>, m: Msg)
    requires Open(world, req, log) && Terminates(m) && m.req == req.id
    requires m.Complete? ==> log != [] && m == Terminal(world, req, Body(log))
    ensures Whole(world, req, log + [m])
  {
    assert (log + [m])[..|log + [m]| - 1] == log;
  }

  lemma ServicerKeeps(world: World, ch: Channel, step: Step)
    requires InStep(world, ch) && Enabled(ch, step)
    requires step.Refuse? || step.SendHeader? || step.SendChunk? || step.ReadFails? || step.Finish?
    ensures InStep(world, Apply(world, ch, step))
  {
    var ch' := Apply(world, ch, step);
    var req := ch.servicer.req;
    match step
    case Refuse(code, quit) =>
      WholeBy(world, req, [], FileErr(req.id, code));
      assert [] + [FileErr(req.id, code)] == [FileErr(req.id, code)];
      ReplyKeeps(world, ch, FileErr(req.id, code), ch'.servicer);
    case SendHeader =>
      var m := Header(req.id, world.SizeOf(req.file), world.DigestOf(req.file));
      assert [m][1..] == [] && Body([m]) == [];
      ReplyKeeps(world, ch, m, ch'.servicer);
    case SendChunk(data) => ChunkKeeps(world, ch, data);
    case ReadFails(code) =>
      if ch.alive && ch.worker.Busy? {
        WholeBy(world, req, ch.log, FileErr(req.id, code));
      }
      ReplyKeeps(world, ch, FileErr(req.id, code), Idle);
    case Finish =>
      if ch.alive && ch.worker.Busy? {
        WholeBy(world, req, ch.log, Terminal(world, req, ch.servicer.sent));
      }
      ReplyKeeps(world, ch, Terminal(world, req, ch.servicer.sent), Idle);
  }

  /** The next chunk extends an open response. */
  lemma OpenGrows(world: World, req: Request, log: seq<Msg>, data: seq<byte>)
    requires Open(world, req, log) && log != []
    ensures var m := Chunk(req.id, |Body(log)|, data);
            Open(world, req, log + [m]) && Body(log + [m]) == Body(log) + data
  {
    var m := Chunk(req.id, |Body(log)|, data);
    assert Body(log) == Body(log[1..]);
    ChunksAppend(req.id, log[1..], 0, m);
    assert (log + [m])[1..] == log[1..] + [m];
    BodyAppend(log, [m]);
    BodyOfOne(m);
  }

  lemma BodyOfOne(m: Msg)
    ensures Body([m]) == if m.Chunk? then m.data else []
  {
    assert [m][1..] == [];
  }

  lemma ChunkKeeps(world: World, ch: Channel, data: seq<byte>)
    requires InStep(world, ch) && ch.servicer.Streaming?
    ensures InStep(world, Apply(world, ch, SendChunk(data)))
    requires data != []
  {
    var req, sent := ch.servicer.req, ch.servicer.sent;
    var m := Chunk(req.id, |sent|, data);
    if ch.alive && ch.worker.Busy? {
      OpenGrows(world, req, ch.log, data);
    }
    ReplyKeeps(world, ch, m, Streaming(req, sent + data));
  }

  /** What the worker finds next belongs to its own request and is in order. */
  lemma NextReply(world: World, ch: Channel)
    requires InStep(world, ch) && ch.alive && ch.worker.Busy? && ch.replies != []
    ensures var m := ch.replies[0];
            var req := ch.worker.req;
            && m.req == req.id
            && ch.got < |ch.log| && m == ch.log[ch.got]
            && (Open(world, req, ch.log) || Whole(world, req, ch.log))
            && (ch.worker.pc.AwaitHeader? ==>
                  m == Header(req.id, world.SizeOf(req.file), world.DigestOf(req.file)) || m.FileErr?)
            && (ch.worker.pc.Receiving? ==>
                  (m.Chunk? && m.offset == |ch.worker.pc.part|) || Terminates(m))
            && (Terminates(m) ==> ch.replies == [m] && ch.requests == [] && (ch.servicer == Idle || ch.servicer == Ended))
  {
    var req := ch.worker.req;
    assert ch.replies[0] == ch.log[ch.got];
    MessageAt(world, req, ch.log, ch.got);
    if Terminates(ch.replies[0]) {
      OpenHasNoTerminal(world, req, ch.log, ch.got);
    }
  }

  lemma OpenHasNoTerminal(world: World, req: Request, log: seq<Msg>, i: nat)
    requires i < |log| && Terminates(log[i])
    ensures !Open(world, req, log)
  {
    if Open(world, req, log) && i > 0 {
      ChunkAt(req.id, log[1..], 0, i - 1);
    }
  }

  /** The worker moves past a header or a chunk. */
  lemma Advances(world: World, ch: Channel, ch': Channel, req: Request, pc: Fetch, next: Fetch, m: Msg)
    requires ServicerAt(world, ch, req) && WorkerAt(world, ch, req, pc) && ch.replies != [] && m == ch.replies[0]
    requires !Terminates(m)
    requires if pc.AwaitHeader? then m.Header? && m.req == req.id && next == Receiving(m.size, m.digest, [])
             else m.Chunk? && next == Receiving(pc.size, pc.hdrDigest, pc.part + m.data)
    requires ch' == ch.(replies := ch.replies[1..], got := ch.got + 1, worker := Busy(req, next))
    ensures ServicerAt(world, ch', req) && WorkerAt(world, ch', req, next)
  {
    var done := ch.log[..ch.got];
    assert m == ch.log[ch.got];
    assert ch.log[..ch.got + 1] == done + [m];
    BodyAppend(done, [m]);
    BodyOfOne(m);
    assert ch.log[ch.got + 1..] == ch.replies[1..];
  }

  /** A verdict goes on only past a header or a chunk, and keeps the channel only
      at a terminal message. */
  predicate Fitting(pc: Fetch, m: Msg, v: Verdict) {
    match v
    case Continue(next) =>
      if pc.AwaitHeader? then m.Header? && next == Receiving(m.size, m.digest, [])
      else m.Chunk? && next == Receiving(pc.size, pc.hdrDigest, pc.part + m.data)
    case Publish(_, _) => Terminates(m)
    case Stop(_, synced) => synced ==> Terminates(m)
  }

  lemma VerdictFits(hash: seq<byte> -> seq<byte>, manifest: seq<byte>, pc: Fetch, m: Msg, io: Local)
    ensures Fitting(pc, m, OnMessage(hash, manifest, pc, m, io))
  {
  }

  lemma Drains(world: World, ch: Channel)
    requires InStep(world, ch) && ch.alive && ch.worker.Busy? && ch.replies != []
    ensures ch.replies[0].req == ch.worker.req.id
    ensures Terminates(ch.replies[0]) ==>
              ch.replies == [ch.replies[0]] && ch.requests == [] && (ch.servicer == Idle || ch.servicer == Ended)
  {
    NextReply(world, ch);
  }

  lemma Received(world: World, ch: Channel, ch': Channel, v: Verdict, ends: bool)
    requires InStep(world, ch) && ch.alive && ch.worker.Busy? && ch.replies != []
    requires Fitting(ch.worker.pc, ch.replies[0], v)
    requires ch' == ch.(replies := ch.replies[1..], got := ch.got + 1, worker := AfterVerdict(ch.worker.req, v, ends))
    ensures InStep(world, ch')
  {
    Drains(world, ch);
    if v.Continue? {
      Advances(world, ch, ch', ch.worker.req, ch.worker.pc, v.next, ch.replies[0]);
    }
  }

  lemma ReceiveKeeps(world: World, ch: Channel, io: Local, ends: bool)
    requires InStep(world, ch) && Enabled(ch, Receive(io, ends))
    ensures InStep(world, Apply(world, ch, Receive(io, ends)))
  {
    var manifest := world.DigestOf(ch.worker.req.file);
    VerdictFits(world.hash, manifest, ch.worker.pc, ch.replies[0], io);
    Received(world, ch, Apply(world, ch, Receive(io, ends)),
             OnMessage(world.hash, manifest, ch.worker.pc, ch.replies[0], io), ends);
  }

  lemma StepKeeps(world: World, ch: Channel, step: Step)
    requires InStep(world, ch) && Enabled(ch, step)
    ensures InStep(world, Apply(world, ch, step))
  {
    match step
    case Receive(io, ends) => ReceiveKeeps(world, ch, io, ends);
    case Refuse(_, _) => ServicerKeeps(world, ch, step);
    case SendHeader => ServicerKeeps(world, ch, step);
    case SendChunk(_) => ServicerKeeps(world, ch, step);
    case ReadFails(_) => ServicerKeeps(world, ch, step);
    case Finish => ServicerKeeps(world, ch, step);
    case _ =>
  }

  // ---- whole runs ----------------------------------------------------------

  ghost predicate Runs(world: World, ch: Channel, steps: seq<Step>)
    decreases |steps|
  {
    steps == [] || (Enabled(ch, steps[0]) && Runs(world, Apply(world, ch, steps[0]), steps[1..]))
  }

  ghost function End(world: World, ch: Channel, steps: seq<Step>): Channel
    requires Runs(world, ch, steps)
    decreases |steps|
  {
    if steps == [] then ch else End(world, Apply(world, ch, steps[0]), steps[1..])
  }

  lemma {:induction false} RunKeeps(world: World, ch: Channel, steps: seq<Step>)
    requires InStep(world, ch) && Runs(world, ch, steps)
    ensures InStep(world, End(world, ch, steps))
    decreases |steps|
  {
    if steps != [] {
      StepKeeps(world, ch, steps[0]);
      RunKeeps(world, Apply(world, ch, steps[0]), steps[1..]);
    }
  }

  /** The worker that is about to ask again, on a live channel, leaves nothing
      unread and nothing unserved behind. */
  lemma NothingLeftUnread(world: World, steps: seq<Step>)
    requires Runs(world, FRESH_CHANNEL, steps)
    ensures var ch := End(world, FRESH_CHANNEL, steps);
            ch.worker == Free ==> ch.requests == [] && ch.replies == []
  {
    RunKeeps(world, FRESH_CHANNEL, steps);
  }

  /** Every message fetchOne consumes was sent for its own request, although it
      never looks at the request id; and it never meets the two messages it calls
      protocol violations, E5001 and E5006. */
  lemma OwnRepliesOnly(world: World, steps: seq<Step>, io: Local)
    requires Runs(world, FRESH_CHANNEL, steps)
    requires var ch := End(world, FRESH_CHANNEL, steps); ch.alive && ch.worker.Busy? && ch.replies != []
    ensures var ch := End(world, FRESH_CHANNEL, steps);
            var m := ch.replies[0];
            var v := OnMessage(world.hash, world.DigestOf(ch.worker.req.file), ch.worker.pc, m, io);
            && m.req == ch.worker.req.id
            && (v.Stop? && v.code in {E5001, E5006} ==> m.FileErr? || io == Fails(v.code))
  {
    RunKeeps(world, FRESH_CHANNEL, steps);
    NextReply(world, End(world, FRESH_CHANNEL, steps));
  }

  /** What is published is the body of one whole response to the request in hand:
      every chunk of it from offset 0, of the planned size, and matching the
      manifest digest when there is one. */
  lemma PublishedIsWhole(world: World, steps: seq<Step>, io: Local)
    requires Runs(world, FRESH_CHANNEL, steps)
    requires var ch := End(world, FRESH_CHANNEL, steps); ch.alive && ch.worker.Busy? && ch.replies != []
    ensures var ch := End(world, FRESH_CHANNEL, steps);
            var req := ch.worker.req;
            var v := OnMessage(world.hash, world.DigestOf(req.file), ch.worker.pc, ch.replies[0], io);
            v.Publish? ==>
              && Whole(world, req, ch.log) && v.content == Body(ch.log)
              && |v.content| == world.SizeOf(req.file)
              && (world.DigestOf(req.file) != [] ==> world.hash(v.content) == world.DigestOf(req.file))
  {
    RunKeeps(world, FRESH_CHANNEL, steps);
    PublishHere(world, End(world, FRESH_CHANNEL, steps), io);
  }

  /** Only a part file being filled is published, and as it stands. */
  lemma PublishedPart(hash: seq<byte> -> seq<byte>, manifest: seq<byte>, pc: Fetch, m: Msg, io: Local)
    requires OnMessage(hash, manifest, pc, m, io).Publish?
    ensures pc.Receiving? && m.Complete? && OnMessage(hash, manifest, pc, m, io) == Publish(pc.part, io.Works?)
  {
  }

  lemma PublishHere(world: World, ch: Channel, io: Local)
    requires InStep(world, ch) && ch.alive && ch.worker.Busy? && ch.replies != []
    ensures var req := ch.worker.req;
            var v := OnMessage(world.hash, world.DigestOf(req.file), ch.worker.pc, ch.replies[0], io);
            v.Publish? ==>
              && Whole(world, req, ch.log) && v.content == Body(ch.log)
              && |v.content| == world.SizeOf(req.file)
              && (world.DigestOf(req.file) != [] ==> world.hash(v.content) == world.DigestOf(req.file))
  {
    var m, pc := ch.replies[0], ch.worker.pc;
    if m.Complete? && pc.Receiving? {
      CompleteClosesResponse(world, ch);
    }
  }

  /** FILE_COMPLETE is the last message of a whole response, all of which the
      worker has written to its part file. */
  lemma CompleteClosesResponse(world: World, ch: Channel)
    requires InStep(world, ch) && ch.alive && ch.worker.Busy? && ch.replies != []
    requires ch.replies[0].Complete? && ch.worker.pc.Receiving?
    ensures Whole(world, ch.worker.req, ch.log) && ch.worker.pc.part == Body(ch.log)
    ensures ch.replies[0] == Terminal(world, ch.worker.req, Body(ch.log))
    ensures ch.worker.pc.size == world.SizeOf(ch.worker.req.file)
  {
    NextReply(world, ch);
    var req, m := ch.worker.req, ch.replies[0];
    MessageAt(world, req, ch.log, ch.got);
    MessageAt(world, req, ch.log, 0);
    OpenHasNoTerminal(world, req, ch.log, ch.got);
    LastAddsNothing(ch.log, ch.got, m);
  }

  lemma LastAddsNothing(log: seq<Msg>, i: nat, m: Msg)
    requires |log| == i + 1 && log[i] == m && !m.Chunk?
    ensures Body(log) == Body(log[..i])
  {
    assert log == log[..i] + [m];
    BodyAppend(log[..i], [m]);
    BodyOfOne(m);
  }

  // ---- what a verdict says -------------------------------------------------

  /** The worker gives up with a code for exactly one reason each: a message out of place,
      a chunk at a wrong offset, a wrong length, a digest that differs from the servicer's,
      or from the manifest's or the header's; and otherwise it passes on the code of a
      FILE_ERROR or of the local failure. */
  lemma VerdictIs(hash: seq<byte> -> seq<byte>, manifest: seq<byte>, pc: Fetch, m: Msg, io: Local)
    requires !m.FileErr? && !io.Fails?
    ensures var v := OnMessage(hash, manifest, pc, m, io);
            var part := if pc.Receiving? then pc.part else [];
            var ended := pc.Receiving? && m.Complete?;
            var sized := ended && |part| == pc.size;
            var streamed := sized && (m.digest == [] || m.digest == hash(part));
            var planned := streamed && (manifest == [] || manifest == hash(part)) && (pc.hdrDigest == [] || pc.hdrDigest == hash(part));
            && (v.Stop? && v.code == E5001 <==> if pc.AwaitHeader? then !m.Header? else m.Header?)
            && (v.Stop? && v.code == E5006 <==> pc.Receiving? && m.Chunk? && m.offset != |part|)
            && (v.Stop? && v.code == E8002 <==> ended && !sized)
            && (v.Stop? && v.code == E8001 <==> sized && !streamed)
            && (v.Stop? && v.code == E8003 <==> streamed && !planned)
            && (v == Publish(part, io.Works?) <==> planned)
            && (v.Continue? <==> (pc.AwaitHeader? && m.Header?) || (pc.Receiving? && m.Chunk? && m.offset == |part|))
  {
  }

  /** A FILE_ERROR ends the request with its code, in step; a local failure with its own. */
  lemma ErrorPassesOn(hash: seq<byte> -> seq<byte>, manifest: seq<byte>, pc: Fetch, m: Msg, io: Local)
    ensures m.FileErr? ==> OnMessage(hash, manifest, pc, m, io) == Stop(m.code, true)
    ensures !m.FileErr? && io.Fails? && OnMessage(hash, manifest, pc, m, Works).Continue? ==>
              OnMessage(hash, manifest, pc, m, io) == Stop(io.code, false)
    ensures !m.FileErr? && io.Fails? && OnMessage(hash, manifest, pc, m, Works).Publish? ==>
              OnMessage(hash, manifest, pc, m, io) == Stop(io.code, true)
    ensures !m.FileErr? && io.Fails? && OnMessage(hash, manifest, pc, m, Works).Stop? ==>
              OnMessage(hash, manifest, pc, m, io) == OnMessage(hash, manifest, pc, m, Works)
  {
  }
}
