/** The record writer and reader as objects (internal/crypto/record/record.go). */
module RecordChannel {
  import opened Bytes
  import opened Fault
  import opened Optional
  import opened Padding
  import opened Record
  import opened RecordStream

  /** Records of logs that agree so far are the same bytes. */
  lemma {:induction false} ChosenAgree(r: nat -> seq<byte>, s: nat -> seq<byte>, picks: seq<nat>)
    requires forall j :: 0 <= j < |picks| ==> r(picks[j]) == s(picks[j])
    ensures Chosen(r, picks) == Chosen(s, picks)
  {
    if picks != [] {
      ChosenAgree(r, s, picks[1..]);
    }
  }

  lemma {:induction false} ChosenAppend(r: nat -> seq<byte>, picks: seq<nat>, last: nat)
    ensures Chosen(r, picks + [last]) == Chosen(r, picks) + r(last)
  {
    if picks == [] {
      assert picks + [last] == [last] && [last][1..] == [];
    } else {
      ChosenAppend(r, picks[1..], last);
      assert (picks + [last])[1..] == picks[1..] + [last];
    }
  }

  function Longer(g: Log, iv: seq<byte>, p: seq<byte>): Log {
    g.(ivs := g.ivs + [iv], plains := g.plains + [p])
  }

  /** One more record appends its bytes to the stream. */
  lemma EverythingGrows(g: Log, iv: seq<byte>, p: seq<byte>)
    requires |g.ivs| == |g.plains|
    ensures Everything(Longer(g, iv, p)) == Everything(g) + RecordOf(g.keys, g.ch, |g.plains|, iv, p)
  {
    var g', n := Longer(g, iv, p), |g.plains|;
    assert UpTo(n + 1) == UpTo(n) + [n];
    ChosenAppend(Records(g'), UpTo(n), n);
    ChosenAgree(Records(g), Records(g'), UpTo(n));
  }

  /** A log of frames, whose last record alone may be CLOSE. */
  ghost predicate Frames(g: Log, closed: bool) {
    && Written(g)
    && (forall i :: 0 <= i < |g.plains| - 1 ==> g.plains[i] != [])
    && (closed <==> g.plains != [] && g.plains[|g.plains| - 1] == [])
  }

  lemma FramesGrow(g: Log, iv: seq<byte>, p: seq<byte>)
    requires Frames(g, false) && |g.plains| < U64 - 1 && |iv| == IV_LEN && InRange(g.ch, p)
    ensures Frames(Longer(g, iv, p), p == [])
    ensures Everything(Longer(g, iv, p)) == Everything(g) + RecordOf(g.keys, g.ch, |g.plains|, iv, p)
  {
    LongerIsFrames(g, iv, p);
    EverythingGrows(g, iv, p);
  }

  lemma LongerIsFrames(g: Log, iv: seq<byte>, p: seq<byte>)
    requires Frames(g, false) && |g.plains| < U64 - 1 && |iv| == IV_LEN && InRange(g.ch, p)
    ensures Frames(Longer(g, iv, p), p == [])
  {
  }

  /** `ivs` and `plains` are what was written; `intact` holds until a socket error. */
  class Writer {
    const keys: Keys
    const ch: byte
    var out: seq<byte>
    var num: nat
    var closed: bool
    ghost var intact: bool
    ghost var ivs: seq<seq<byte>>
    ghost var plains: seq<seq<byte>>

    ghost function Trace(): Log
      reads this
    {
      Log(keys, ch, ivs, plains)
    }

    /** As long as the socket has taken everything, what was written is a log of frames,
        closed by CLOSE or not yet. */
    ghost predicate Valid()
      reads this
    {
      && Proper(keys) && num < U64
      && (intact ==> Frames(Trace(), closed) && num == |plains| && out == Everything(Trace()))
    }

    constructor (keys: Keys, ch: byte)
      requires Proper(keys)
      ensures Valid() && this.keys == keys && this.ch == ch && plains == [] && intact && !closed
    {
      this.keys, this.ch := keys, ch;
      out, num, closed, intact := [], 0, false, true;
      ivs, plains := [], [];
    }

    /** The code of a write, by the first check that fails. */
    ghost function WriteCode(p: seq<byte>, close: bool, iv: Option<seq<byte>>, takes: nat): nat
      reads this
    {
      if closed then (if close then 0 else E9004)
      else if num == U64 - 1 then E4006
      else if !InRange(ch, p) then E5003
      else if iv.None? then E4007
      else if takes < |RecordOf(keys, ch, num, iv.value, p)| then E3003
      else 0
    }

    /** `iv` is what the random source yields, if it does, and `takes` how many bytes of
        the record the socket takes. */
    method WriteRecord(p: seq<byte>, close: bool, iv: Option<seq<byte>>, takes: nat) returns (code: nat)
      requires Valid() && (iv.Some? ==> |iv.value| == IV_LEN) && (close <==> p == [])
      modifies this
      ensures Valid()
      ensures code == old(WriteCode(p, close, iv, takes))
      ensures code == 0 && !old(closed) ==>
                && plains == old(plains) + [p] && ivs == old(ivs) + [iv.value] && closed == close
                && num == old(num) + 1 && intact == old(intact)
                && out == old(out) + RecordOf(keys, ch, old(num), iv.value, p)
      ensures code == E3003 ==>
                && !intact && num == old(num) && plains == old(plains) && ivs == old(ivs) && closed == old(closed)
                && out == old(out) + RecordOf(keys, ch, num, iv.value, p)[..takes]
      ensures code !in {0, E3003} || old(closed) ==>
                && out == old(out) && num == old(num) && closed == old(closed) && intact == old(intact)
                && plains == old(plains) && ivs == old(ivs)
    {
      if closed {
        return if close then 0 else E9004;
      }
      if num == U64 - 1 {
        return E4006;
      }
      var padded := Pkcs7Pad(p);
      if |padded| > MaxCt(ch) {
        return E5003;
      }
      if iv.None? {
        return E4007;
      }
      var buf := Header(ch, num, |padded|) + iv.value + keys.enc(iv.value, padded);
      var rec := buf + keys.mac(buf);
      if takes < |rec| {
        out := out + rec[..takes];
        intact := false;
        return E3003;
      }
      if intact {
        FramesGrow(Trace(), iv.value, p);
      }
      out := out + rec;
      num := num + 1;
      closed := close;
      ivs, plains := ivs + [iv.value], plains + [p];
      code := 0;
    }

    /** A frame is refused when empty, and otherwise written as WriteRecord writes. */
    method WriteFrame(p: seq<byte>, iv: Option<seq<byte>>, takes: nat) returns (code: nat)
      requires Valid() && (iv.Some? ==> |iv.value| == IV_LEN)
      modifies this
      ensures Valid() && closed == old(closed)
      ensures code == if p == [] then E9004 else old(WriteCode(p, false, iv, takes))
      ensures plains == if code == 0 then old(plains) + [p] else old(plains)
      ensures intact == (old(intact) && code != E3003)
    {
      if p == [] {
        return E9004;
      }
      code := WriteRecord(p, false, iv, takes);
    }

    /** Idempotent. */
    method Close(iv: Option<seq<byte>>, takes: nat) returns (code: nat)
      requires Valid() && (iv.Some? ==> |iv.value| == IV_LEN)
      modifies this
      ensures Valid()
      ensures code == old(WriteCode([], true, iv, takes)) && (code == 0 <==> closed)
      ensures plains == if closed && !old(closed) then old(plains) + [[]] else old(plains)
      ensures intact == (old(intact) && code != E3003)
    {
      code := WriteRecord([], true, iv, takes);
    }
  }

  /** What a closed writer wrote is a closed log of its frames. */
  lemma ClosedWriterLog(g: Log)
    requires Frames(g, true)
    ensures ClosedLog(g, g.plains[..|g.plains| - 1])
  {
    assert g.plains == g.plains[..|g.plains| - 1] + [[]];
  }

  /** A reader given all that a closed writer wrote yields exactly its frames, and
      then end of file. */
  method ReadBack(w: Writer) returns (frames: seq<seq<byte>>, end: End)
    requires w.Valid() && w.intact && w.closed
    ensures (frames, end) == (w.plains[..|w.plains| - 1], Closed)
  {
    ghost var g := w.Trace();
    ClosedWriterLog(g);
    WholeStream(g, g.plains[..|g.plains| - 1]);
    var r := new Reader(w.keys, w.ch, w.out, false);
    frames, end := Drain(r);
  }

  /** Reading on, after the frames read so far, reaches the goal. */
  ghost predicate ReadsOn(run: (nat, seq<byte>) -> (seq<seq<byte>>, End), num: nat, input: seq<byte>,
                          frames: seq<seq<byte>>, goal: (seq<seq<byte>>, End)) {
    var (rest, end) := run(num, input);
    frames + rest == goal.0 && end == goal.1
  }

  function Run(k: Keys, ch: byte): (nat, seq<byte>) -> (seq<seq<byte>>, End) {
    (num: nat, input: seq<byte>) => ReadStream(k, ch, num, input)
  }

  lemma ReadsOnStep(k: Keys, ch: byte, num: nat, input: seq<byte>, frames: seq<seq<byte>>,
                    goal: (seq<seq<byte>>, End), read: Read)
    requires ReadsOn(Run(k, ch), num, input, frames, goal)
    requires read == ReadOne(k, ch, num, input)
    ensures match read
            case Fault(code) => frames == goal.0 && goal.1 == Failed(code)
            case Got(p, rest) =>
              |rest| < |input|
              && if p == [] then frames == goal.0 && goal.1 == Closed else ReadsOn(Run(k, ch), num + 1, rest, frames + [p], goal)
  {
    match read
    case Fault(code) => assert frames + [] == frames;
    case Got(p, rest) =>
      if p == [] {
        assert frames + [] == frames;
      } else {
        var more := ReadStream(k, ch, num + 1, rest).0;
        assert frames + ([p] + more) == (frames + [p]) + more;
      }
  }

  /** ReadFrame until it stops yielding frames. */
  method Drain(r: Reader) returns (frames: seq<seq<byte>>, end: End)
    requires !r.done
    modifies r
    ensures var (fs, e) := ReadStream(r.keys, r.ch, old(r.num), old(r.input));
            frames == fs && end == if e.Failed? then Failed(r.Seen(e.code)) else e
  {
    frames := [];
    ghost var run := Run(r.keys, r.ch);
    ghost var goal := run(r.num, r.input);
    assert [] + goal.0 == goal.0;
    while true
      invariant !r.done && ReadsOn(run, r.num, r.input, frames, goal)
      decreases |r.input|
    {
      ghost var read := ReadOne(r.keys, r.ch, r.num, r.input);
      ReadsOnStep(r.keys, r.ch, r.num, r.input, frames, goal, read);
      var f := r.ReadFrame();
      match f
      case Frame(p) => frames := frames + [p];
      case Eof => return frames, Closed;
      case Err(code) => return frames, Failed(code);
    }
  }

  datatype Reading = Frame(p: seq<byte>) | Eof | Err(code: nat)

  /** What ReadFrame reports, and the state it leaves, for what it read. */
  predicate Follows(read: Read, r: Reading, before: nat, num: nat, input: seq<byte>, done: bool, breaks: bool) {
    match read
    case Fault(code) => r == Err(if code == E4005 && breaks then E3003 else code) && num == before && !done
    case Got(p, rest) =>
      input == rest && num == before + 1 && (if p == [] then r == Eof && done else r == Frame(p) && !done)
  }

  /** `breaks` is whether the input ends with a socket error or by ending. */
  class Reader {
    const keys: Keys
    const ch: byte
    const breaks: bool
    var input: seq<byte>
    var num: nat
    var done: bool

    /** What a code looks like when the input breaks off with a socket error. */
    function Seen(code: nat): nat { if code == E4005 && breaks then E3003 else code }

    constructor (keys: Keys, ch: byte, input: seq<byte>, breaks: bool)
      ensures this.keys == keys && this.ch == ch && this.input == input && this.breaks == breaks && num == 0 && !done
    {
      this.keys, this.ch, this.input, this.breaks := keys, ch, input, breaks;
      num, done := 0, false;
    }

    method ReadFrame() returns (r: Reading)
      modifies this
      ensures old(done) ==> r == Eof && done
      ensures !old(done) ==>
                Follows(ReadOne(keys, ch, old(num), old(input)), r, old(num), num, input, done, breaks)
      ensures r.Frame? ==> Genuine(keys, ch, old(num), old(input), r.p, input)
      ensures r == Eof && !old(done) ==> Genuine(keys, ch, old(num), old(input), [], input)
    {
      if done {
        return Eof;
      }
      if |input| < HEADER_LEN {
        return Err(if breaks then E3003 else E4005);
      }
      var all := input;
      var h := input[..HEADER_LEN];
      input := input[HEADER_LEN..];
      HeaderInside(h, all);
      if h[0] != VERSION {
        return Err(E5002);
      }
      if h[1] != ch {
        return Err(E4003);
      }
      var n := FromBigEndian(h[10..14]);
      if n < BLOCK_SIZE || n > MaxCt(ch) || n % BLOCK_SIZE != 0 {
        return Err(E5003);
      }
      if |input| < IV_LEN + n + MAC_LEN {
        return Err(if breaks then E3003 else E4005);
      }
      var iv, ct, mac := input[..IV_LEN], input[IV_LEN..IV_LEN + n], input[IV_LEN + n..IV_LEN + n + MAC_LEN];
      input := input[IV_LEN + n + MAC_LEN..];
      Slices(all, h, iv, ct, mac, n);
      if keys.mac(h + iv + ct) != mac {
        return Err(E4003);
      }
      if FromBigEndian(h[2..10]) != num {
        return Err(E4004);
      }
      var plain := Pkcs7Unpad(keys.dec(iv, ct));
      if plain.BadPadding? {
        return Err(E5004);
      }
      UnpadInvertsPad(keys.dec(iv, ct), plain.data);
      num := num + 1;
      if plain.data == [] {
        done := true;
        return Eof;
      }
      r := Frame(plain.data);
    }
  }

  lemma Slices(all: seq<byte>, h: seq<byte>, iv: seq<byte>, ct: seq<byte>, mac: seq<byte>, n: nat)
    requires |all| >= PREFIX_LEN + n + MAC_LEN
    requires h == all[..HEADER_LEN]
    requires iv == all[HEADER_LEN..][..IV_LEN] && ct == all[HEADER_LEN..][IV_LEN..IV_LEN + n]
    requires mac == all[HEADER_LEN..][IV_LEN + n..IV_LEN + n + MAC_LEN]
    ensures h + iv + ct == all[..PREFIX_LEN + n] && iv == all[HEADER_LEN..PREFIX_LEN] && ct == all[PREFIX_LEN..PREFIX_LEN + n]
    ensures mac == all[PREFIX_LEN + n..PREFIX_LEN + n + MAC_LEN]
    ensures all[HEADER_LEN..][IV_LEN + n + MAC_LEN..] == all[PREFIX_LEN + n + MAC_LEN..]
  {
  }
}
