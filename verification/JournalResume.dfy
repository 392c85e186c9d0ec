/** Resuming on a journal cut at any byte (internal/fsx/journal.go): the resumed session
    appends its records straight after what is left of the file. */
module JournalResume {
  import opened Bytes
  import opened Optional
  import opened FieldText
  import opened Journal
  import opened JournalLog

  // ---- lines before and after the cut --------------------------------------

  ghost predicate AllSturdy(line: Record -> seq<byte>, decode: seq<byte> -> Option<Record>, rs: seq<Record>) {
    forall i :: 0 <= i < |rs| ==> Sturdy(line, decode, rs[i])
  }

  /** Whole lines are read, and parsing goes on behind them. */
  lemma {:induction false} ParsePrefix(line: Record -> seq<byte>, decode: seq<byte> -> Option<Record>, rs: seq<Record>,
                                       tail: seq<byte>, m: map<nat, Record>)
    requires AllSturdy(line, decode, rs)
    ensures ParseLog(decode, LogOf(line, rs) + tail, m) == ParseLog(decode, tail, MapOf(m, rs))
    decreases |rs|
  {
    if rs == [] {
      assert LogOf(line, rs) + tail == tail;
    } else {
      var rest := LogOf(line, rs[1..]);
      assert LogOf(line, rs) + tail == line(rs[0]) + ([NEWLINE] + (rest + tail));
      ParseWholeLine(line, decode, rs[0], rest + tail, m);
      ParsePrefix(line, decode, rs[1..], tail, Stored(m, rs[0]));
    }
  }

  lemma ParseWhole(line: Record -> seq<byte>, decode: seq<byte> -> Option<Record>, rs: seq<Record>, m: map<nat, Record>)
    requires AllSturdy(line, decode, rs)
    ensures ParseLog(decode, LogOf(line, rs), m) == MapOf(m, rs)
  {
    ParsePrefix(line, decode, rs, [], m);
    assert LogOf(line, rs) + [] == LogOf(line, rs);
  }

  lemma {:induction false} MapOfAppend(m: map<nat, Record>, a: seq<Record>, b: seq<Record>)
    ensures MapOf(m, a + b) == MapOf(MapOf(m, a), b)
    decreases |a|
  {
    if a == [] {
      assert a + b == b;
    } else {
      MapOfAppend(Stored(m, a[0]), a[1..], b);
      assert (a + b)[1..] == a[1..] + b;
    }
  }

  /** What a cut leaves: whole lines, and the beginning of the next one. */
  lemma {:induction false} SplitCut(line: Record -> seq<byte>, rs: seq<Record>, k: nat) returns (n: nat, torn: seq<byte>)
    requires k <= |LogOf(line, rs)|
    ensures n <= |rs| && LogOf(line, rs)[..k] == LogOf(line, rs[..n]) + torn
    ensures torn != [] ==> n < |rs| && |torn| <= |line(rs[n])| && torn == line(rs[n])[..|torn|]
    decreases |rs|
  {
    n, torn := 0, [];
    assert rs[..0] == [];
    if rs == [] {
      assert LogOf(line, rs)[..k] == [];
      return;
    }
    var text, rest := line(rs[0]), LogOf(line, rs[1..]);
    if k <= |text| {
      torn := text[..k];
      assert LogOf(line, rs)[..k] == torn;
    } else {
      var j := k - |text| - 1;
      assert LogOf(line, rs)[..k] == text + ([NEWLINE] + rest[..j]);
      n, torn := SplitCut(line, rs[1..], j);
      var before := LogOf(line, rs[1..][..n]);
      assert rs[..n + 1][1..] == rs[1..][..n];
      assert text + ([NEWLINE] + (before + torn)) == (text + ([NEWLINE] + before)) + torn;
      n := n + 1;
    }
  }

  /** The first appended line merges with what was torn. */
  lemma MergedParse(line: Record -> seq<byte>, decode: seq<byte> -> Option<Record>, torn: seq<byte>, s: Record,
                    more: seq<Record>, m: map<nat, Record>)
    requires NoNewline(torn) && Sturdy(line, decode, s)
    ensures ParseLog(decode, torn + LogOf(line, [s] + more), m)
            == match decode(torn + line(s)) case None => m case Some(x) => ParseLog(decode, LogOf(line, more), Stored(m, x))
  {
    var text, rest := torn + line(s), LogOf(line, more);
    assert ([s] + more)[1..] == more;
    var data := text + ([NEWLINE] + rest);
    assert torn + LogOf(line, [s] + more) == data;
    LineEnds(text, rest);
    assert data[..|text|] == text && data[|text| + 1..] == rest;
  }

  // ---- what a merged line decodes to ---------------------------------------

  lemma DropOne(t: seq<byte>)
    requires t != []
    ensures |Fields(t[1..])| <= |Fields(t)|
  {
    if !IsSpace(t[0]) {
      var n, u := WordLength(t), t[1..];
      if n > 1 {
        assert WordLength(u) == n - 1;
        assert u[n - 1..] == t[n..];
      }
    }
  }

  lemma {:induction false} SuffixHasFewerFields(t: seq<byte>, i: nat)
    requires i <= |t|
    ensures |Fields(t[i..])| <= |Fields(t)|
  {
    if i > 0 {
      DropOne(t);
      SuffixHasFewerFields(t[1..], i - 1);
      assert t[1..][i - 1..] == t[i..];
    } else {
      assert t[0..] == t;
    }
  }

  predicate Unspaced(t: seq<byte>) { forall i :: 0 <= i < |t| ==> !IsSpace(t[i]) }

  /** A text that begins with a word and a space has one field more than what follows
      has, wherever in the rest that begins. */
  lemma SpacedHasMore(torn: seq<byte>, rest: seq<byte>, i: nat)
    requires 0 < i < |torn| && !IsSpace(torn[0]) && IsSpace(torn[i])
    ensures |Fields(torn + rest)| > |Fields(rest)|
  {
    var t := torn + rest;
    var n := WordLength(t);
    assert t[i] == torn[i] && t[0] == torn[0];
    assert 0 < n <= i;
    SuffixHasFewerFields(t[n..], |torn| - n);
    assert t[n..][|torn| - n..] == rest;
  }

  /** The record a merged line is taken for: only when the tear lies inside the first
      field, the digits still make a file id, and the checksums of the two bodies
      collide. */
  function Misread(crc: seq<byte> -> nat, torn: seq<byte>, s: Record): Option<Record> {
    var id := torn + FormatUint(10, s.file);
    var file := ParseUint(10, U64, id);
    var body := Joined(id, FormatInt(s.size), HexText(s.digest), Base64Text(s.path));
    if Unspaced(torn) && file.Some? && crc(body) % U32 == crc(Body(s)) % U32
    then Some(Record(file.value, s.size, s.digest, s.path))
    else None
  }

  lemma WordsConcatenated(a: seq<byte>, b: seq<byte>)
    requires IsWord(a) && IsWord(b)
    ensures IsWord(a + b)
  {
  }

  lemma Prepended(a: seq<byte>, b: seq<byte>, c: seq<byte>, d: seq<byte>)
    ensures a + Then(Then(b, c), d) == Then(Then(a + b, c), d)
  {
  }

  lemma MergedFields(torn: seq<byte>, a: seq<byte>, b: seq<byte>, c: seq<byte>, d: seq<byte>, tail: seq<byte>)
    requires IsWord(torn) && IsWord(a) && IsWord(b) && IsWord(c) && IsWord(d) && IsWord(tail)
    ensures Fields(torn + Then(Joined(a, b, c, d), tail)) == [torn + a, b, c, d, tail]
  {
    WordsConcatenated(torn, a);
    Prepended(torn, a, Then(b, Then(c, d)), tail);
    JoinedFields(torn + a, b, c, d, tail);
    OneWord(tail);
  }

  /** Decoding a line of five fields of which all but the first are known to parse. */
  lemma DecodeFive(crc: seq<byte> -> nat, line: seq<byte>, a: seq<byte>, b: seq<byte>, c: seq<byte>, d: seq<byte>,
                   e: seq<byte>, sum: nat, size: int, digest: seq<byte>, path: seq<byte>)
    requires Fields(line) == [a, b, c, d, e] && ParseUint(16, U32, e) == Some(sum)
    requires ParseInt(b) == Some(size) && HexDecode(c) == Some(digest) && Base64Decode(d) == Some(path)
    ensures DecodeRecord(crc, line)
            == if ParseUint(10, U64, a).Some? && crc(Joined(a, b, c, d)) % U32 == sum
               then Some(Record(ParseUint(10, U64, a).value, size, digest, path)) else None
  {
  }

  lemma DecodeUnspaced(crc: seq<byte> -> nat, torn: seq<byte>, s: Record)
    requires Storable(s) && IsWord(torn)
    ensures DecodeRecord(crc, torn + Line(crc, s)) == Misread(crc, torn, s)
  {
    var a, b, c, d := FormatUint(10, s.file), FormatInt(s.size), HexText(s.digest), Base64Text(s.path);
    var sum := crc(Body(s)) % U32;
    RecordWords(crc, s);
    MergedFields(torn, a, b, c, d, CrcText(crc, Body(s)));
    UintBack(16, U32, sum);
    IntBack(s.size);
    HexBack(s.digest);
    Base64Back(s.path);
    DecodeFive(crc, torn + Line(crc, s), torn + a, b, c, d, CrcText(crc, Body(s)), sum, s.size, s.digest, s.path);
  }

  lemma DecodeSpaced(crc: seq<byte> -> nat, torn: seq<byte>, s: Record, i: nat)
    requires Storable(s) && 0 < i < |torn| && !IsSpace(torn[0]) && IsSpace(torn[i])
    ensures DecodeRecord(crc, torn + Line(crc, s)) == None
  {
    LineFields(s, CrcText(crc, Body(s)));
    RecordWords(crc, s);
    OneWord(CrcText(crc, Body(s)));
    SpacedHasMore(torn, Line(crc, s), i);
  }

  lemma LineStartsWithWord(crc: seq<byte> -> nat, r: Record)
    requires Storable(r)
    ensures Line(crc, r) != [] && !IsSpace(Line(crc, r)[0])
  {
    RecordWords(crc, r);
    assert Line(crc, r)[0] == Body(r)[0] == FormatUint(10, r.file)[0];
  }

  /** The line that a torn line and an appended one make decodes to nothing, unless it
      is misread. */
  lemma DecodeMerged(crc: seq<byte> -> nat, r: Record, k: nat, s: Record)
    requires Storable(r) && Storable(s) && 0 < k <= |Line(crc, r)|
    ensures DecodeRecord(crc, Line(crc, r)[..k] + Line(crc, s)) == Misread(crc, Line(crc, r)[..k], s)
  {
    var torn := Line(crc, r)[..k];
    LineStartsWithWord(crc, r);
    if Unspaced(torn) {
      DecodeUnspaced(crc, torn, s);
    } else {
      var i :| 0 <= i < |torn| && IsSpace(torn[i]);
      DecodeSpaced(crc, torn, s, i);
    }
  }

  // ---- resuming ------------------------------------------------------------

  predicate AllStorable(rs: seq<Record>) { forall i :: 0 <= i < |rs| ==> Storable(rs[i]) }

  lemma AllStorableSturdy(crc: seq<byte> -> nat, rs: seq<Record>)
    requires AllStorable(rs)
    ensures AllSturdy(Encoder(crc), Decoder(crc), rs)
  {
    forall i | 0 <= i < |rs|
      ensures Sturdy(Encoder(crc), Decoder(crc), rs[i])
    {
      StorableIsSturdy(crc, rs[i]);
    }
  }

  /** What the next parse makes of the file after records were appended to a torn one. */
  function ReadAfter(kept: seq<Record>, merged: Option<Record>, rest: seq<Record>): map<nat, Record> {
    match merged
    case None => MapOf(map[], kept)
    case Some(x) => MapOf(map[], kept + ([x] + rest))
  }

  lemma TearParse(line: Record -> seq<byte>, decode: seq<byte> -> Option<Record>, kept: seq<Record>, torn: seq<byte>,
                  s: Record, rest: seq<Record>)
    requires AllSturdy(line, decode, kept) && AllSturdy(line, decode, rest) && Sturdy(line, decode, s) && NoNewline(torn)
    ensures ParseLog(decode, (LogOf(line, kept) + torn) + LogOf(line, [s] + rest), map[])
            == ReadAfter(kept, decode(torn + line(s)), rest)
  {
    var m := MapOf(map[], kept);
    Associative(LogOf(line, kept), torn, LogOf(line, [s] + rest));
    ParsePrefix(line, decode, kept, torn + LogOf(line, [s] + rest), map[]);
    MergedParse(line, decode, torn, s, rest, m);
    if decode(torn + line(s)).Some? {
      var x := decode(torn + line(s)).value;
      ParseWhole(line, decode, rest, Stored(m, x));
      MapOfAppend(map[], kept, [x] + rest);
      assert ([x] + rest)[1..] == rest;
    }
  }

  lemma TearParseAll(line: Record -> seq<byte>, decode: seq<byte> -> Option<Record>, kept: seq<Record>, torn: seq<byte>,
                     more: seq<Record>, merged: Option<Record>)
    requires AllSturdy(line, decode, kept) && AllSturdy(line, decode, more) && NoNewline(torn) && more != []
    requires decode(torn + line(more[0])) == merged
    ensures ParseLog(decode, (LogOf(line, kept) + torn) + LogOf(line, more), map[]) == ReadAfter(kept, merged, more[1..])
  {
    assert Sturdy(line, decode, more[0]);
    assert more == [more[0]] + more[1..];
    TearParse(line, decode, kept, torn, more[0], more[1..]);
  }

  lemma TornPrefix(crc: seq<byte> -> nat, r: Record, torn: seq<byte>)
    requires Storable(r) && |torn| <= |Line(crc, r)| && torn == Line(crc, r)[..|torn|]
    ensures NoNewline(torn)
  {
    LineHasNoNewline(crc, r);
  }

  lemma ResumeAtTear(crc: seq<byte> -> nat, kept: seq<Record>, r: Record, torn: seq<byte>, more: seq<Record>)
    requires AllStorable(kept) && AllStorable(more)
    requires Storable(r) && torn != [] && |torn| <= |Line(crc, r)| && torn == Line(crc, r)[..|torn|] && more != []
    ensures ParseLog(Decoder(crc), (LogOf(Encoder(crc), kept) + torn) + LogOf(Encoder(crc), more), map[])
            == ReadAfter(kept, Misread(crc, torn, more[0]), more[1..])
  {
    AllStorableSturdy(crc, kept);
    AllStorableSturdy(crc, more);
    TornPrefix(crc, r, torn);
    MergedIsMisread(crc, r, torn, more[0]);
    TearParseAll(Encoder(crc), Decoder(crc), kept, torn, more, Misread(crc, torn, more[0]));
  }

  lemma MergedIsMisread(crc: seq<byte> -> nat, r: Record, torn: seq<byte>, s: Record)
    requires Storable(r) && Storable(s) && torn != [] && |torn| <= |Line(crc, r)| && torn == Line(crc, r)[..|torn|]
    ensures Decoder(crc)(torn + Encoder(crc)(s)) == Misread(crc, torn, s)
  {
    DecodeMerged(crc, r, |torn|, s);
  }

  lemma ResumeAtBoundary(crc: seq<byte> -> nat, kept: seq<Record>, more: seq<Record>)
    requires AllStorable(kept) && AllStorable(more)
    ensures ParseLog(Decoder(crc), LogOf(Encoder(crc), kept) + LogOf(Encoder(crc), more), map[])
            == MapOf(map[], kept + more)
  {
    AllStorableSturdy(crc, kept);
    AllStorableSturdy(crc, more);
    ParsePrefix(Encoder(crc), Decoder(crc), kept, LogOf(Encoder(crc), more), map[]);
    ParseWhole(Encoder(crc), Decoder(crc), more, MapOf(map[], kept));
    MapOfAppend(map[], kept, more);
  }

  /** For every log, every cut and everything appended after it: let `torn` be what the
      cut left behind the last newline.  If nothing is torn, the next parse reads what
      was kept and all that was appended.  Otherwise the torn text, whole or not, and
      everything appended are lost, unless the merged line is misread, which takes a
      tear inside the first field and a checksum collision. */
  lemma ResumeAfterCut(crc: seq<byte> -> nat, rs: seq<Record>, k: nat, more: seq<Record>)
    returns (n: nat, torn: seq<byte>)
    requires AllStorable(rs) && AllStorable(more)
    requires k <= |LogOf(Encoder(crc), rs)|
    ensures n <= |rs| && LogOf(Encoder(crc), rs)[..k] == LogOf(Encoder(crc), rs[..n]) + torn && NoNewline(torn)
    ensures more != [] ==>
              ParseLog(Decoder(crc), LogOf(Encoder(crc), rs)[..k] + LogOf(Encoder(crc), more), map[])
              == if torn == [] then MapOf(map[], rs[..n] + more)
                 else ReadAfter(rs[..n], Misread(crc, torn, more[0]), more[1..])
  {
    n, torn := SplitCut(Encoder(crc), rs, k);
    if torn == [] {
      assert LogOf(Encoder(crc), rs[..n]) + torn == LogOf(Encoder(crc), rs[..n]);
      ResumeAtBoundary(crc, rs[..n], more);
    } else {
      TornPrefix(crc, rs[n], torn);
      if more != [] {
        ResumeAtTear(crc, rs[..n], rs[n], torn, more);
      }
    }
  }

  /** The last record's text is whole and only its newline is missing: parsed as it is
      the log yields the record, but once anything is appended it is lost with it. */
  lemma AppendAfterMissingNewline(crc: seq<byte> -> nat, r: Record, s: Record)
    requires Storable(r) && Storable(s)
    ensures ParseLog(Decoder(crc), Line(crc, r), map[]) == MapOf(map[], [r])
    ensures ParseLog(Decoder(crc), Line(crc, r) + LogOf(Encoder(crc), [s]), map[]) == map[]
  {
    StorableIsSturdy(crc, r);
    ParseWholeLine(Encoder(crc), Decoder(crc), r, [], map[]);
    assert [r][1..] == [];
    var torn := Line(crc, r);
    LineHasNoNewline(crc, r);
    assert torn[..|torn|] == torn && [] + torn == torn;
    ResumeAtTear(crc, [], r, torn, [s]);
    assert torn[|Body(r)|] == SPACE;
    assert !Unspaced(torn);
  }

  /** Torn behind its first field: what is appended is lost too. */
  lemma AppendAfterFirstField(crc: seq<byte> -> nat, r: Record, s: Record)
    requires Storable(r) && Storable(s)
    ensures ParseLog(Decoder(crc), Then(FormatUint(10, r.file), []) + LogOf(Encoder(crc), [s]), map[]) == map[]
  {
    var first := FormatUint(10, r.file);
    var torn := Then(first, []);
    assert torn == Line(crc, r)[..|torn|];
    assert [] + torn == torn;
    ResumeAtTear(crc, [], r, torn, [s]);
    assert torn[|first|] == SPACE;
    assert !Unspaced(torn);
  }
}
