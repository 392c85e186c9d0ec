/** Streams of records: what a reader yields on everything a writer wrote, on any
    shorter prefix of it, and on any selection of its records
    (internal/crypto/record/record.go). */
module RecordStream {
  import opened Bytes
  import opened Fault
  import opened Padding
  import opened Record

  datatype End = Closed | Failed(code: nat)

  /** ReadFrame until it stops yielding frames. */
  function ReadStream(k: Keys, ch: byte, expected: nat, input: seq<byte>): (seq<seq<byte>>, End)
    decreases |input|
  {
    match ReadOne(k, ch, expected, input)
    case Fault(code) => ([], Failed(code))
    case Got(frame, rest) =>
      if frame == [] then ([], Closed)
      else var (frames, end) := ReadStream(k, ch, expected + 1, rest); ([frame] + frames, end)
  }

  /** The writer's output: record i carries plaintext i, the empty one being CLOSE. */
  datatype Log = Log(keys: Keys, ch: byte, ivs: seq<seq<byte>>, plains: seq<seq<byte>>)

  ghost predicate Written(g: Log) {
    && Proper(g.keys)
    && |g.ivs| == |g.plains| < U64
    && (forall i :: 0 <= i < |g.ivs| ==> |g.ivs[i]| == IV_LEN)
    && (forall i :: 0 <= i < |g.plains| ==> InRange(g.ch, g.plains[i]))
  }

  function Nth(g: Log, i: nat): seq<byte> {
    if i < |g.ivs| && i < |g.plains| then RecordOf(g.keys, g.ch, i, g.ivs[i], g.plains[i]) else []
  }

  function Records(g: Log): nat -> seq<byte> { (i: nat) => Nth(g, i) }

  predicate Picks(g: Log, picks: seq<nat>) { forall j :: 0 <= j < |picks| ==> picks[j] < |g.plains| }

  /** Whole records in any choice and order. */
  function Chosen(rec: nat -> seq<byte>, picks: seq<nat>): seq<byte> {
    if picks == [] then [] else rec(picks[0]) + Chosen(rec, picks[1..])
  }

  /** A strict prefix of one of the first n records, the empty one included. */
  ghost predicate Torn(rec: nat -> seq<byte>, n: nat, torn: seq<byte>) {
    exists i: nat :: i < n && |torn| < |rec(i)| && torn == rec(i)[..|torn|]
  }

  /** What the reader makes of picked records: frames as long as each record is the
      next one, until CLOSE, a record out of sequence, or the end of the bytes. */
  function Expect(g: Log, picks: seq<nat>, expected: nat): (seq<seq<byte>>, End)
    requires Picks(g, picks)
    decreases |picks|
  {
    if picks == [] then ([], Failed(E4005))
    else if picks[0] != expected then ([], Failed(E4004))
    else if g.plains[expected] == [] then ([], Closed)
    else var (frames, end) := Expect(g, picks[1..], expected + 1); ([g.plains[expected]] + frames, end)
  }

  lemma PrefixHeader(s: seq<byte>, torn: seq<byte>)
    requires |torn| < |s| && torn == s[..|torn|] && |torn| >= HEADER_LEN
    ensures torn[0] == s[0] && torn[1] == s[1] && torn[2..10] == s[2..10] && torn[10..14] == s[10..14]
  {
  }

  /** The header of a whole record. */
  lemma NthHeader(g: Log, i: nat)
    requires Written(g) && i < |g.plains|
    ensures var r := Nth(g, i);
            var n := |Pad(g.plains[i])|;
            && |r| == PREFIX_LEN + n + MAC_LEN
            && r[0] == VERSION && r[1] == g.ch && FromBigEndian(r[10..14]) == n
  {
    var r, n := Nth(g, i), |Pad(g.plains[i])|;
    var h := Header(g.ch, i, n);
    assert r[..HEADER_LEN] == h;
    HeaderFields(g.ch, i, n);
    HeaderInside(h, r);
  }

  lemma TornFails(g: Log, torn: seq<byte>, expected: nat)
    requires Written(g) && Torn(Records(g), |g.plains|, torn)
    ensures ReadOne(g.keys, g.ch, expected, torn) == Fault(E4005)
  {
    var rec := Records(g);
    var i: nat :| i < |g.plains| && |torn| < |rec(i)| && torn == rec(i)[..|torn|];
    if |torn| >= HEADER_LEN {
      NthHeader(g, i);
      PrefixHeader(Nth(g, i), torn);
    }
  }

  lemma ReadStep(g: Log, i: nat, expected: nat, rest: seq<byte>)
    requires Written(g) && i < |g.plains|
    ensures ReadOne(g.keys, g.ch, expected, Nth(g, i) + rest)
            == if i == expected then Got(g.plains[i], rest) else Fault(E4004)
  {
    OneBack(g.keys, g.ch, i, expected, g.ivs[i], g.plains[i], rest);
  }

  /** A record in sequence yields its frame, and CLOSE ends the stream. */
  lemma StreamStep(g: Log, i: nat, expected: nat, rest: seq<byte>)
    requires Written(g) && i < |g.plains|
    ensures var (frames, end) := ReadStream(g.keys, g.ch, expected + 1, rest);
            ReadStream(g.keys, g.ch, expected, Nth(g, i) + rest)
            == if i != expected then ([], Failed(E4004))
               else if g.plains[i] == [] then ([], Closed)
               else ([g.plains[i]] + frames, end)
  {
    ReadStep(g, i, expected, rest);
  }

  lemma StreamTorn(g: Log, torn: seq<byte>, expected: nat)
    requires Written(g) && Torn(Records(g), |g.plains|, torn)
    ensures ReadStream(g.keys, g.ch, expected, torn) == ([], Failed(E4005))
  {
    TornFails(g, torn, expected);
  }

  lemma PickedStep(g: Log, picks: seq<nat>, torn: seq<byte>, expected: nat)
    requires Written(g) && Picks(g, picks) && picks != []
    requires ReadStream(g.keys, g.ch, expected + 1, Chosen(Records(g), picks[1..]) + torn) == Expect(g, picks[1..], expected + 1)
    ensures ReadStream(g.keys, g.ch, expected, Chosen(Records(g), picks) + torn) == Expect(g, picks, expected)
  {
    var first, more := Nth(g, picks[0]), Chosen(Records(g), picks[1..]);
    Associative(first, more, torn);
    StreamStep(g, picks[0], expected, more + torn);
  }

  /** The reader on any picked records followed by a torn one. */
  lemma {:induction false} PickedRead(g: Log, picks: seq<nat>, torn: seq<byte>, expected: nat)
    requires Written(g) && Picks(g, picks) && Torn(Records(g), |g.plains|, torn)
    ensures ReadStream(g.keys, g.ch, expected, Chosen(Records(g), picks) + torn) == Expect(g, picks, expected)
    decreases |picks|
  {
    if picks == [] {
      assert Chosen(Records(g), picks) + torn == torn;
      StreamTorn(g, torn, expected);
    } else {
      PickedRead(g, picks[1..], torn, expected + 1);
      PickedStep(g, picks, torn, expected);
    }
  }

  // ---- the stream itself ---------------------------------------------------

  function UpTo(n: nat): (r: seq<nat>)
    ensures |r| == n && forall i :: 0 <= i < n ==> r[i] == i
  {
    seq(n, i => i)
  }

  function From(a: nat, b: nat): (r: seq<nat>)
    requires a <= b
    ensures |r| == b - a && forall i :: 0 <= i < |r| ==> r[i] == a + i
  {
    seq(b - a, i => a + i)
  }

  /** Frames, then CLOSE. */
  ghost predicate ClosedLog(g: Log, frames: seq<seq<byte>>) {
    && Written(g)
    && g.plains == frames + [[]]
    && forall i :: 0 <= i < |frames| ==> frames[i] != []
  }

  function Everything(g: Log): seq<byte>
    requires |g.ivs| == |g.plains|
  {
    Chosen(Records(g), UpTo(|g.plains|))
  }

  lemma {:induction false} ExpectRun(g: Log, frames: seq<seq<byte>>, a: nat, b: nat)
    requires ClosedLog(g, frames) && a <= b <= |g.plains|
    ensures b <= |frames| ==> Expect(g, From(a, b), a) == (frames[a..b], Failed(E4005))
    ensures b == |g.plains| && a < b ==> Expect(g, From(a, b), a) == (frames[a..], Closed)
    decreases b - a
  {
    if a < b {
      assert From(a, b)[1..] == From(a + 1, b);
      ExpectRun(g, frames, a + 1, b);
      if b <= |frames| {
        assert frames[a..b] == [frames[a]] + frames[a + 1..b];
      } else if a < |frames| {
        assert frames[a..] == [frames[a]] + frames[a + 1..];
      } else {
        assert frames[a..] == [];
      }
    } else if a <= |frames| {
      assert frames[a..a] == [];
    }
  }

  lemma EmptyIsTorn(g: Log)
    requires Written(g) && g.plains != []
    ensures Torn(Records(g), |g.plains|, [])
  {
    NthHeader(g, 0);
    assert Records(g)(0)[..0] == [];
  }

  /** A reader given the whole stream yields exactly the frames, then end of file. */
  lemma WholeStream(g: Log, frames: seq<seq<byte>>)
    requires ClosedLog(g, frames)
    ensures ReadStream(g.keys, g.ch, 0, Everything(g)) == (frames, Closed)
  {
    PickedWhole(g, UpTo(|g.plains|));
    assert UpTo(|g.plains|) == From(0, |g.plains|);
    ExpectRun(g, frames, 0, |g.plains|);
    assert frames[0..] == frames;
  }

  /** Where a cut falls: after m whole records and inside the next. */
  lemma {:induction false} CutAt(rec: nat -> seq<byte>, n: nat, a: nat, cut: nat) returns (m: nat, torn: seq<byte>)
    requires a <= n && cut < |Chosen(rec, From(a, n))|
    ensures a <= m < n && Torn(rec, n, torn) && |torn| < |rec(m)|
    ensures Chosen(rec, From(a, n))[..cut] == Chosen(rec, From(a, m)) + torn
    decreases n - a
  {
    assert From(a, n) != [];
    assert From(a, n)[1..] == From(a + 1, n);
    var first, rest := rec(a), Chosen(rec, From(a + 1, n));
    if cut < |first| {
      m, torn := a, first[..cut];
      assert (first + rest)[..cut] == torn;
      assert From(a, a) == [] && Chosen(rec, []) + torn == torn;
    } else {
      m, torn := CutAt(rec, n, a + 1, cut - |first|);
      assert (first + rest)[..cut] == first + rest[..cut - |first|];
      assert From(a, m)[1..] == From(a + 1, m);
      Associative(first, Chosen(rec, From(a + 1, m)), torn);
    }
  }

  /** A reader given any strictly shorter prefix yields exactly the frames wholly
      present, then E4005: never end of file. */
  lemma CutStream(g: Log, frames: seq<seq<byte>>, cut: nat) returns (m: nat)
    requires ClosedLog(g, frames) && cut < |Everything(g)|
    ensures m <= |frames|
    ensures |Chosen(Records(g), UpTo(m))| <= cut < |Chosen(Records(g), UpTo(m))| + |Nth(g, m)|
    ensures ReadStream(g.keys, g.ch, 0, Everything(g)[..cut]) == (frames[..m], Failed(E4005))
  {
    var torn;
    assert UpTo(|g.plains|) == From(0, |g.plains|);
    m, torn := CutAt(Records(g), |g.plains|, 0, cut);
    assert UpTo(m) == From(0, m);
    PickedRead(g, UpTo(m), torn, 0);
    ExpectRun(g, frames, 0, m);
    assert frames[0..m] == frames[..m];
  }

  /** How many of the picked records are in sequence. */
  function InSequence(picks: seq<nat>, from: nat): nat {
    if picks == [] || picks[0] != from then 0 else 1 + InSequence(picks[1..], from + 1)
  }

  lemma {:induction false} ExpectPicks(g: Log, frames: seq<seq<byte>>, picks: seq<nat>, from: nat)
    requires ClosedLog(g, frames) && Picks(g, picks) && from <= |frames|
    ensures var n := InSequence(picks, from);
            && n <= |picks| && from + n <= |g.plains|
            && Expect(g, picks, from)
               == if from + n == |g.plains| then (frames[from..], Closed)
                  else (frames[from..from + n], Failed(if n == |picks| then E4005 else E4004))
    decreases |picks|
  {
    if picks == [] || picks[0] != from {
      assert frames[from..from] == [];
    } else if from < |frames| {
      ExpectPicks(g, frames, picks[1..], from + 1);
      var n := InSequence(picks[1..], from + 1);
      if from + 1 + n < |g.plains| {
        assert frames[from..from + 1 + n] == [frames[from]] + frames[from + 1..from + 1 + n];
      } else {
        assert frames[from..] == [frames[from]] + frames[from + 1..];
      }
    } else {
      assert frames[from..] == [];
      if |picks| > 1 {
        assert picks[1..][0] == picks[1] && picks[1] < |g.plains|;
      }
    }
  }

  /** A reader given any sequence of whole records of the stream, with repeats, drops
      and reorderings, yields a prefix of the frames: it stops at the first record out
      of sequence, and reports end of file only after every frame. */
  lemma PickedStream(g: Log, frames: seq<seq<byte>>, picks: seq<nat>)
    requires ClosedLog(g, frames) && Picks(g, picks)
    ensures var n := InSequence(picks, 0);
            n <= |picks| && n <= |g.plains|
            && ReadStream(g.keys, g.ch, 0, Chosen(Records(g), picks))
               == if n == |g.plains| then (frames, Closed)
                  else (frames[..n], Failed(if n == |picks| then E4005 else E4004))
  {
    PickedWhole(g, picks);
    PickedYields(g, frames, picks);
  }

  lemma PickedWhole(g: Log, picks: seq<nat>)
    requires Written(g) && g.plains != [] && Picks(g, picks)
    ensures ReadStream(g.keys, g.ch, 0, Chosen(Records(g), picks)) == Expect(g, picks, 0)
  {
    EmptyIsTorn(g);
    PickedRead(g, picks, [], 0);
    assert Chosen(Records(g), picks) + [] == Chosen(Records(g), picks);
  }

  lemma PickedYields(g: Log, frames: seq<seq<byte>>, picks: seq<nat>)
    requires ClosedLog(g, frames) && Picks(g, picks)
    ensures var n := InSequence(picks, 0);
            n <= |picks| && n <= |g.plains|
            && Expect(g, picks, 0)
               == if n == |g.plains| then (frames, Closed)
                  else (frames[..n], Failed(if n == |picks| then E4005 else E4004))
  {
    var n := InSequence(picks, 0);
    ExpectPicks(g, frames, picks, 0);
    assert frames[0..] == frames;
    if n <= |frames| {
      assert frames[0..n] == frames[..n];
    }
  }

  // ---- any input at all ----------------------------------------------------

  /** The next record is authentic, has the expected number and carries this frame. */
  predicate Genuine(k: Keys, ch: byte, expected: nat, input: seq<byte>, frame: seq<byte>, rest: seq<byte>) {
    Authentic(k, ch, input) && FromBigEndian(input[2..10]) == expected && Carries(k, input, frame, rest)
  }

  /** The input begins with one genuine record for each frame, numbered on from
      `expected`, and with a genuine CLOSE behind them if it is to end the stream. */
  ghost predicate GenuineRun(k: Keys, ch: byte, expected: nat, input: seq<byte>, frames: seq<seq<byte>>, end: End)
    decreases |frames|
  {
    if frames == [] then end.Closed? ==> exists rest :: Genuine(k, ch, expected, input, [], rest)
    else
      && frames[0] != []
      && exists rest :: Genuine(k, ch, expected, input, frames[0], rest)
                        && GenuineRun(k, ch, expected + 1, rest, frames[1..], end)
  }

  /** Whatever bytes arrive, the frames a reader yields come from authentic records with
      consecutive numbers from the expected one on, and end of file from an authentic
      CLOSE behind them. */
  lemma {:induction false} YieldsOnlyGenuine(k: Keys, ch: byte, expected: nat, input: seq<byte>)
    ensures var (frames, end) := ReadStream(k, ch, expected, input); GenuineRun(k, ch, expected, input, frames, end)
    decreases |input|
  {
    match ReadOne(k, ch, expected, input)
    case Fault(_) =>
    case Got(frame, rest) =>
      GotIff(k, ch, expected, input, frame, rest);
      assert Genuine(k, ch, expected, input, frame, rest);
      if frame != [] {
        YieldsOnlyGenuine(k, ch, expected + 1, rest);
        var more := ReadStream(k, ch, expected + 1, rest).0;
        assert ([frame] + more)[1..] == more;
      }
  }
}
