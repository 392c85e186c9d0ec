/** One FILE_REQUEST served from start to finish (internal/sender/serve.go): the
    messages it sends and the tracker call that releases its slot. */
module Servicer {
  import opened Bytes
  import opened Fault
  import DC = DataChannel
  import T = Tracker

  datatype Opening = Opened | Missing | Denied | OpenFails

  datatype After = More | Eof | Broken

  /** One read of the source: what it returned, and with which error. */
  datatype Read = Read(data: seq<byte>, after: After)

  /** What the file system, the context and the transport do during the call.
      `sends` is how many messages the transport takes before it fails for good;
      running out of `input` is end of file. */
  datatype Env = Env(cancelled: bool, opening: Opening, statOk: bool, regular: bool, sameFile: bool, size: nat,
                     seekOk: bool, hasher: bool, input: seq<Read>, sends: nat)

  function OpenCode(o: Opening): nat {
    match o case Missing => E6002 case Denied => E6001 case _ => E6004
  }

  /** How a served request ended: an error return, or the tracker call it made. */
  datatype Outcome = Error | Ended(call: T.Call)

  // ---- responses to a request at an offset ---------------------------------

  /** The offset as the source converts it, to a signed 64-bit integer. */
  function Signed(offset: nat): int { if offset < U64 / 2 then offset else offset - U64 }

  /** Where the source believes it stands after n bytes, in the same integer. */
  function Position(offset: nat, n: nat): int { Signed((offset + n) % U64) }

  /** Chunks of one request, contiguous from an offset that wraps round at 2^64. */
  predicate Chunks(req: nat, ms: seq<DC.Msg>, from: nat) {
    ms == [] ||
    (ms[0].Chunk? && ms[0].req == req && ms[0].offset == from % U64 && Chunks(req, ms[1..], from + |ms[0].data|))
  }

  lemma {:induction false} ChunksAppend(req: nat, ms: seq<DC.Msg>, from: nat, m: DC.Msg)
    requires Chunks(req, ms, from) && m.Chunk? && m.req == req && m.offset == (from + |DC.Body(ms)|) % U64
    ensures Chunks(req, ms + [m], from)
  {
    if ms == [] {
      assert ms + [m] == [m] && [m][1..] == [];
    } else {
      ChunksAppend(req, ms[1..], from + |ms[0].data|, m);
      assert (ms + [m])[1..] == ms[1..] + [m];
    }
  }

  lemma {:induction false} ChunkAt(req: nat, ms: seq<DC.Msg>, from: nat, i: nat)
    requires Chunks(req, ms, from) && i < |ms|
    ensures ms[i].Chunk?
  {
    if i > 0 {
      ChunkAt(req, ms[1..], from + |ms[0].data|, i - 1);
    }
  }

  /** A response in progress: nothing, or the header and chunks contiguous from the
      requested offset. */
  predicate Open(world: DC.World, req: DC.Request, offset: nat, log: seq<DC.Msg>) {
    log == [] ||
    (log[0] == DC.Header(req.id, world.SizeOf(req.file), world.DigestOf(req.file)) && Chunks(req.id, log[1..], offset))
  }

  /** What FILE_COMPLETE claims: everything from the offset to the end was sent, with
      this digest; and from offset 0 it matches the manifest. */
  predicate Completes(world: DC.World, req: DC.Request, offset: nat, sent: seq<byte>, m: DC.Msg) {
    && m == DC.Complete(req.id, world.hash(sent))
    && Position(offset, |sent|) == world.SizeOf(req.file)
    && (offset == 0 ==> !DC.Differs(world.DigestOf(req.file), world.hash(sent)))
  }

  /** A whole response: an open one and its terminal message. */
  predicate Whole(world: DC.World, req: DC.Request, offset: nat, log: seq<DC.Msg>) {
    && log != []
    && var last := DC.Last(log);
       var open := log[..|log| - 1];
       && Open(world, req, offset, open)
       && DC.Terminates(last) && last.req == req.id
       && (last.Complete? ==> open != [] && Completes(world, req, offset, DC.Body(open), last))
  }

  lemma {:induction false} ChunksAtZero(req: nat, ms: seq<DC.Msg>, from: nat)
    requires from + |DC.Body(ms)| < U64
    ensures Chunks(req, ms, from) <==> DC.Chunks(req, ms, from)
  {
    if ms != [] && ms[0].Chunk? {
      ChunksAtZero(req, ms[1..], from + |ms[0].data|);
    }
  }

  lemma OpenAtZero(world: DC.World, req: DC.Request, log: seq<DC.Msg>)
    requires |DC.Body(log)| < U64
    ensures Open(world, req, 0, log) <==> DC.Open(world, req, log)
  {
    if log != [] && !log[0].Chunk? {
      HeaderHasNoBody(log);
      ChunksAtZero(req.id, log[1..], 0);
    }
  }

  lemma CompletesAtZero(world: DC.World, req: DC.Request, sent: seq<byte>, m: DC.Msg)
    requires |sent| < U64 / 2
    ensures m.Complete? ==> (Completes(world, req, 0, sent, m) <==> m == DC.Terminal(world, req, sent))
  {
  }

  /** The receiver asks for offset 0, and there these are the responses its channel
      expects: a file is shorter than 2^63 bytes. */
  lemma AtZero(world: DC.World, req: DC.Request, log: seq<DC.Msg>)
    requires |DC.Body(log)| < U64 / 2
    ensures Open(world, req, 0, log) <==> DC.Open(world, req, log)
    ensures Whole(world, req, 0, log) <==> DC.Whole(world, req, log)
  {
    OpenAtZero(world, req, log);
    if log != [] {
      var open := log[..|log| - 1];
      assert log == open + [DC.Last(log)];
      DC.BodyAppend(open, [DC.Last(log)]);
      OpenAtZero(world, req, open);
      CompletesAtZero(world, req, DC.Body(open), DC.Last(log));
    }
  }

  lemma OpenGrows(world: DC.World, req: DC.Request, offset: nat, log: seq<DC.Msg>, m: DC.Msg)
    requires Open(world, req, offset, log) && log != []
    requires m.Chunk? && m.req == req.id && m.offset == (offset + |DC.Body(log)|) % U64
    ensures Open(world, req, offset, log + [m]) && DC.Body(log + [m]) == DC.Body(log) + m.data
  {
    HeaderHasNoBody(log);
    var rest := log[1..];
    ChunksAppend(req.id, rest, offset, m);
    assert (log + [m])[1..] == rest + [m];
    BodyGrows(log, m);
  }

  lemma HeaderHasNoBody(log: seq<DC.Msg>)
    requires log != [] && !log[0].Chunk?
    ensures DC.Body(log) == DC.Body(log[1..])
  {
  }

  lemma BodyGrows(log: seq<DC.Msg>, m: DC.Msg)
    requires m.Chunk?
    ensures DC.Body(log + [m]) == DC.Body(log) + m.data
  {
    DC.BodyAppend(log, [m]);
    DC.BodyOfOne(m);
  }

  lemma WholeBy(world: DC.World, req: DC.Request, offset: nat, log: seq<DC.Msg>, m: DC.Msg)
    requires Open(world, req, offset, log) && DC.Terminates(m) && m.req == req.id
    requires m.Complete? ==> log != [] && Completes(world, req, offset, DC.Body(log), m)
    ensures Whole(world, req, offset, log + [m])
  {
    assert (log + [m])[..|log + [m]| - 1] == log;
  }

  lemma OpenIsNotWhole(world: DC.World, req: DC.Request, offset: nat, log: seq<DC.Msg>)
    requires Open(world, req, offset, log)
    ensures !Whole(world, req, offset, log)
  {
    if |log| > 1 {
      ChunkAt(req.id, log[1..], offset, |log| - 2);
    }
  }

  // ---- what serve promises -------------------------------------------------

  /** The messages sent answer the request in the order the receiver expects, and
      what the sender records is what it said: a completion exactly for a whole
      response that completes, with its bytes, and a file resolved and failed exactly
      when the error sent is not the retryable E6004. */
  ghost predicate Answers(world: DC.World, req: DC.Request, offset: nat, log: seq<DC.Msg>, out: Outcome) {
    && (Open(world, req, offset, log) || Whole(world, req, offset, log))
    && (out.Ended? ==> T.Owed(req.file, out.call) && out.call.req == req.id)
    && (out.Ended? && Whole(world, req, offset, log) ==> Matches(log, out.call))
    && (out.Ended? && out.call.Completed? ==> Whole(world, req, offset, log))
  }

  predicate Matches(log: seq<DC.Msg>, call: T.Call)
    requires log != []
  {
    var m := DC.Last(log);
    match call
    case Completed(_, _, bytes) => m.Complete? && bytes == |DC.Body(log)|
    case Failed(_, resolve, _) => m.FileErr? && (resolve <==> m.code != E6004)
    case Cancelled(_) => false
  }

  // ---- what the environment decides ----------------------------------------

  /** All that the reads return, up to and including the one that ends them. */
  function Data(input: seq<Read>): seq<byte> {
    if input == [] then []
    else input[0].data + (if input[0].after == More then Data(input[1..]) else [])
  }

  function Chunked(input: seq<Read>): nat {
    if input == [] then 0
    else (if input[0].data == [] then 0 else 1) + (if input[0].after == More then Chunked(input[1..]) else 0)
  }

  predicate Breaks(input: seq<Read>) {
    input != [] && (input[0].after == Broken || (input[0].after == More && Breaks(input[1..])))
  }

  /** How a request ends: served; refused, with the tracker told; refused with an error
      return; or an error return without a word. */
  datatype Fate = Served | Refused(code: nat) | Quits(code: nat) | Drops

  /** The source is the planned file and can be read. */
  function BeforeHeader(world: DC.World, isFile: seq<bool>, req: DC.Request, env: Env): Fate {
    if req.file >= |isFile| then Quits(E5007)
    else if !isFile[req.file] then Refused(E5007)
    else if env.cancelled then Drops
    else if !env.opening.Opened? then Refused(OpenCode(env.opening))
    else if !env.statOk then Refused(E6004)
    else if !env.regular || !env.sameFile || env.size != world.SizeOf(req.file) then Refused(E6003)
    else Served
  }

  /** What is read is all of it, and what was planned. */
  function AfterReads(world: DC.World, req: DC.Request, offset: nat, env: Env): Fate {
    var sent := Data(env.input);
    if env.sends < 1 + Chunked(env.input) then Drops
    else if Breaks(env.input) then Refused(E6004)
    else if Position(offset, |sent|) != world.SizeOf(req.file) then Refused(E6003)
    else if Signed(offset) == 0 && DC.Differs(world.DigestOf(req.file), world.hash(sent)) then Refused(E8003)
    else if env.sends == 1 + Chunked(env.input) then Drops
    else Served
  }

  function AfterHeader(world: DC.World, req: DC.Request, offset: nat, env: Env): Fate {
    if env.sends == 0 then Drops
    else if Signed(offset) > 0 && !env.seekOk then Refused(E6004)
    else if !env.hasher then Drops
    else AfterReads(world, req, offset, env)
  }

  function FateOf(world: DC.World, isFile: seq<bool>, req: DC.Request, offset: nat, env: Env): Fate {
    var first := BeforeHeader(world, isFile, req, env);
    if first == Served then AfterHeader(world, req, offset, env) else first
  }

  /** What must hold of the environment for a request to be served. */
  predicate Intact(world: DC.World, isFile: seq<bool>, req: DC.Request, offset: nat, env: Env) {
    && req.file < |isFile| && isFile[req.file] && !env.cancelled
    && env.opening == Opened && env.statOk && env.regular && env.sameFile && env.size == world.SizeOf(req.file)
    && (Signed(offset) > 0 ==> env.seekOk) && env.hasher && !Breaks(env.input)
    && Position(offset, |Data(env.input)|) == world.SizeOf(req.file)
    && (Signed(offset) == 0 && world.DigestOf(req.file) != [] ==> world.hash(Data(env.input)) == world.DigestOf(req.file))
    && env.sends >= Chunked(env.input) + 2
  }

  /** A request is served exactly when its file is intact, everything local works and the
      transport takes it all; otherwise each refusal names what is wrong first. */
  lemma FateIs(world: DC.World, isFile: seq<bool>, req: DC.Request, offset: nat, env: Env)
    ensures var fate := FateOf(world, isFile, req, offset, env);
            var known := req.file < |isFile| && isFile[req.file];
            var reached := known && !env.cancelled && env.opening == Opened && env.statOk;
            var planned := reached && env.regular && env.sameFile && env.size == world.SizeOf(req.file);
            var read := planned && env.hasher && (Signed(offset) > 0 ==> env.seekOk) && env.sends > Chunked(env.input);
            var whole := Position(offset, |Data(env.input)|) == world.SizeOf(req.file);
            && (fate == Served <==> Intact(world, isFile, req, offset, env))
            && (fate == Quits(E5007) <==> req.file >= |isFile|)
            && (fate == Refused(E5007) <==> req.file < |isFile| && !isFile[req.file])
            && (fate == Refused(E6002) <==> known && !env.cancelled && env.opening == Missing)
            && (fate == Refused(E6001) <==> known && !env.cancelled && env.opening == Denied)
            && (fate == Refused(E6003) <==> (reached && !planned) || (read && !Breaks(env.input) && !whole))
            && (fate == Refused(E8003) <==>
                  read && !Breaks(env.input) && whole && Signed(offset) == 0
                  && world.DigestOf(req.file) != [] && world.hash(Data(env.input)) != world.DigestOf(req.file))
            && (fate == Refused(E6004) <==>
                  || (known && !env.cancelled && (env.opening == OpenFails || (env.opening == Opened && !env.statOk)))
                  || (planned && env.sends > 0 && Signed(offset) > 0 && !env.seekOk)
                  || (read && Breaks(env.input)))
  {
  }

  /** What was sent and recorded is what the fate says.  A message that tells of a
      refusal may itself be lost. */
  ghost predicate Fulfils(req: DC.Request, env: Env, hash: seq<byte> -> seq<byte>, fate: Fate, log: seq<DC.Msg>, out: Outcome) {
    match fate
    case Served =>
      && out == Ended(T.Completed(req.id, req.file, |Data(env.input)|))
      && |log| == Chunked(env.input) + 2 && DC.Body(log) == Data(env.input)
      && DC.Last(log) == DC.Complete(req.id, hash(Data(env.input)))
    case Refused(code) =>
      && out == Ended(T.Failed(req.id, code != E6004, code != E6004))
      && (|log| < env.sends ==> log != [] && DC.Last(log) == DC.FileErr(req.id, code))
    case Quits(code) => out == Error && log == (if env.sends > 0 then [DC.FileErr(req.id, code)] else [])
    case Drops => out == Error
  }

  /** All that the handling of a request promises, for the fate it meets. */
  ghost predicate Handles(world: DC.World, req: DC.Request, offset: nat, env: Env, fate: Fate, log: seq<DC.Msg>, out: Outcome) {
    && Answers(world, req, offset, log, out)
    && Fulfils(req, env, world.hash, fate, log, out)
    && |log| <= env.sends
    && (out.Ended? && |log| < env.sends ==> Whole(world, req, offset, log))
  }

  /** FILE_ERROR, whose own send failure is ignored, and the end of the request. */
  method Refuse(world: DC.World, req: DC.Request, offset: nat, log: seq<DC.Msg>, code: nat, env: Env)
    returns (log': seq<DC.Msg>, out: Outcome)
    requires Open(world, req, offset, log) && |log| <= env.sends
    ensures Handles(world, req, offset, env, Refused(code), log', out)
    ensures log' == if |log| < env.sends then log + [DC.FileErr(req.id, code)] else log
  {
    var m := DC.FileErr(req.id, code);
    WholeBy(world, req, offset, log, m);
    log' := if |log| < env.sends then log + [m] else log;
    if |log| == env.sends && log != [] {
      OpenIsNotWhole(world, req, offset, log);
    }
    out := Ended(T.Failed(req.id, code != E6004, code != E6004));
  }

  /** The body of serve, without its deferred release. */
  method Respond(world: DC.World, isFile: seq<bool>, req: DC.Request, offset: nat, env: Env)
    returns (log: seq<DC.Msg>, out: Outcome)
    ensures Handles(world, req, offset, env, FateOf(world, isFile, req, offset, env), log, out)
  {
    log := [];
    if req.file >= |isFile| {
      log, out := Refuse(world, req, offset, log, E5007, env);
      out := Error;
      return;
    }
    if !isFile[req.file] {
      log, out := Refuse(world, req, offset, log, E5007, env);
      return;
    }
    if env.cancelled {
      out := Error;
      return;
    }
    if !env.opening.Opened? {
      log, out := Refuse(world, req, offset, log, OpenCode(env.opening), env);
      return;
    }
    if !env.statOk {
      log, out := Refuse(world, req, offset, log, E6004, env);
      return;
    }
    if !env.regular || !env.sameFile || env.size != world.SizeOf(req.file) {
      log, out := Refuse(world, req, offset, log, E6003, env);
      return;
    }
    log, out := Stream(world, req, offset, env);
  }

  /** FILE_HEADER, the seek, the chunks and the terminal message. */
  method Stream(world: DC.World, req: DC.Request, offset: nat, env: Env) returns (log: seq<DC.Msg>, out: Outcome)
    ensures Handles(world, req, offset, env, AfterHeader(world, req, offset, env), log, out)
  {
    log := [];
    if env.sends == 0 {
      out := Error;
      return;
    }
    log := [DC.Header(req.id, world.SizeOf(req.file), world.DigestOf(req.file))];
    assert log[1..] == [];
    if Signed(offset) > 0 && !env.seekOk {
      log, out := Refuse(world, req, offset, log, E6004, env);
      return;
    }
    if !env.hasher {
      out := Error;
      return;
    }
    log, out := Transfer(world, req, offset, env, log);
  }

  /** The read and send loop. */
  method Transfer(world: DC.World, req: DC.Request, offset: nat, env: Env, header: seq<DC.Msg>)
    returns (log: seq<DC.Msg>, out: Outcome)
    requires Open(world, req, offset, header) && |header| == 1 && env.sends >= 1
    ensures Handles(world, req, offset, env, AfterReads(world, req, offset, env), log, out)
  {
    log := header;
    var sent: seq<byte> := [];
    assert log[1..] == [] && DC.Body(log) == [];
    var i := 0;
    assert env.input[0..] == env.input && [] + Data(env.input) == Data(env.input);
    while i < |env.input|
      invariant Progress(world, req, offset, env, i, log, sent)
    {
      var r := env.input[i];
      ghost var before, had := log, sent;
      if r.data != [] {
        if |log| == env.sends {
          NoRoom(world, req, offset, env, i, log, sent);
          out := Error;
          return;
        }
        log, sent := SendChunk(world, req, offset, log, sent, r.data);
      }
      Turn(world, req, offset, env, i, before, had, log, sent);
      i := i + 1;
      if r.after == Eof {
        break;
      }
      if r.after == Broken {
        log, out := Refuse(world, req, offset, log, E6004, env);
        return;
      }
    }
    if i == |env.input| {
      InputEnds(world, req, offset, env, log, sent);
    }
    log, out := Finish(world, req, offset, log, sent, env);
  }

  /** Where the loop stands after i reads, none of which ended the input. */
  ghost predicate Progress(world: DC.World, req: DC.Request, offset: nat, env: Env, i: nat, log: seq<DC.Msg>, sent: seq<byte>) {
    && Open(world, req, offset, log) && log != [] && |log| <= env.sends && DC.Body(log) == sent
    && ReadUpTo(env.input, i, sent, |log|)
  }

  ghost predicate AllRead(world: DC.World, req: DC.Request, offset: nat, env: Env, log: seq<DC.Msg>, sent: seq<byte>) {
    && Open(world, req, offset, log) && log != [] && |log| <= env.sends && DC.Body(log) == sent
    && sent == Data(env.input) && |log| == 1 + Chunked(env.input)
  }

  lemma Turn(world: DC.World, req: DC.Request, offset: nat, env: Env, i: nat, log: seq<DC.Msg>, sent: seq<byte>,
             log': seq<DC.Msg>, sent': seq<byte>)
    requires Progress(world, req, offset, env, i, log, sent) && i < |env.input|
    requires Open(world, req, offset, log') && log' != [] && DC.Body(log') == sent' == sent + env.input[i].data
    requires |log'| == |log| + (if env.input[i].data == [] then 0 else 1) <= env.sends
    ensures match env.input[i].after
            case More => Progress(world, req, offset, env, i + 1, log', sent')
            case Eof => AllRead(world, req, offset, env, log', sent') && !Breaks(env.input)
            case Broken =>
              AllRead(world, req, offset, env, log', sent') && AfterReads(world, req, offset, env) == Refused(E6004)
  {
    ReadsOn(env.input, i, sent, |log|);
  }

  /** Running out of input is end of file. */
  lemma InputEnds(world: DC.World, req: DC.Request, offset: nat, env: Env, log: seq<DC.Msg>, sent: seq<byte>)
    requires Progress(world, req, offset, env, |env.input|, log, sent)
             || (AllRead(world, req, offset, env, log, sent) && !Breaks(env.input))
    ensures AllRead(world, req, offset, env, log, sent) && !Breaks(env.input)
  {
    assert env.input[|env.input|..] == [];
  }

  method SendChunk(world: DC.World, req: DC.Request, offset: nat, log: seq<DC.Msg>, sent: seq<byte>, data: seq<byte>)
    returns (log': seq<DC.Msg>, sent': seq<byte>)
    requires Open(world, req, offset, log) && log != [] && DC.Body(log) == sent
    ensures Open(world, req, offset, log') && DC.Body(log') == sent' == sent + data && |log'| == |log| + 1
  {
    var m := DC.Chunk(req.id, (offset + |sent|) % U64, data);
    OpenGrows(world, req, offset, log, m);
    log', sent' := log + [m], sent + data;
  }

  /** The transport fails with data still to send. */
  lemma NoRoom(world: DC.World, req: DC.Request, offset: nat, env: Env, i: nat, log: seq<DC.Msg>, sent: seq<byte>)
    requires Progress(world, req, offset, env, i, log, sent) && i < |env.input| && env.input[i].data != []
    requires |log| == env.sends
    ensures Handles(world, req, offset, env, AfterReads(world, req, offset, env), log, Error)
  {
    ReadsOn(env.input, i, sent, |log|);
  }

  /** After i reads, none of which ended the input: what was sent, in how many messages. */
  ghost predicate ReadUpTo(input: seq<Read>, i: nat, sent: seq<byte>, messages: nat) {
    && i <= |input|
    && sent + Data(input[i..]) == Data(input) && messages + Chunked(input[i..]) == 1 + Chunked(input)
    && Breaks(input) == Breaks(input[i..])
  }

  lemma ReadsOn(input: seq<Read>, i: nat, sent: seq<byte>, messages: nat)
    requires ReadUpTo(input, i, sent, messages) && i < |input|
    ensures var sent', messages' := sent + input[i].data, messages + (if input[i].data == [] then 0 else 1);
            match input[i].after
            case More => ReadUpTo(input, i + 1, sent', messages')
            case Eof => sent' == Data(input) && messages' == 1 + Chunked(input) && !Breaks(input)
            case Broken => sent' == Data(input) && messages' == 1 + Chunked(input) && Breaks(input)
    ensures input[i].data != [] ==> messages < 1 + Chunked(input)
  {
    assert input[i..][1..] == input[i + 1..];
    Associative(sent, input[i].data, Data(input[i + 1..]));
  }

  method Finish(world: DC.World, req: DC.Request, offset: nat, log: seq<DC.Msg>, sent: seq<byte>, env: Env)
    returns (log': seq<DC.Msg>, out: Outcome)
    requires AllRead(world, req, offset, env, log, sent) && !Breaks(env.input)
    ensures Handles(world, req, offset, env, AfterReads(world, req, offset, env), log', out)
  {
    if Position(offset, |sent|) != world.SizeOf(req.file) {
      log', out := Refuse(world, req, offset, log, E6003, env);
      return;
    }
    if Signed(offset) == 0 && world.DigestOf(req.file) != [] && world.hash(sent) != world.DigestOf(req.file) {
      log', out := Refuse(world, req, offset, log, E8003, env);
      return;
    }
    if |log| == env.sends {
      return log, Error;
    }
    var m := DC.Complete(req.id, world.hash(sent));
    WholeBy(world, req, offset, log, m);
    DC.BodyAppend(log, [m]);
    DC.BodyOfOne(m);
    log', out := log + [m], Ended(T.Completed(req.id, req.file, |sent|));
  }

  /** serve: every exit releases the request's slot exactly once, by its own call
      or, on an error return, by the deferred one, which leaves the file
      unresolved so that a later request can still complete it. */
  method Serve(world: DC.World, isFile: seq<bool>, req: DC.Request, offset: nat, env: Env, tracker: T.SharedTracker)
    returns (log: seq<DC.Msg>, failed: bool, ghost call: T.Call)
    modifies tracker
    ensures tracker.View() == T.Perform(old(tracker.View()), call)
    ensures T.Owed(req.file, call) && call.req == req.id
    ensures failed ==> call == T.Failed(req.id, false, false)
    ensures Handles(world, req, offset, env, FateOf(world, isFile, req, offset, env), log,
                    if failed then Error else Ended(call))
  {
    var out;
    log, out := Respond(world, isFile, req, offset, env);
    failed := out.Error?;
    var release := if failed then T.Failed(req.id, false, false) else out.call;
    tracker.ReqEnds(release);
    call := release;
  }
}
