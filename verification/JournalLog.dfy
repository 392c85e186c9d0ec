/** Whole complete.log files (internal/fsx/journal.go): parsing, and what is left of a
    file cut at any byte. */
module JournalLog {
  import opened Bytes
  import opened Optional
  import opened FieldText
  import opened Journal

  function LineLength(data: seq<byte>): (n: nat)
    ensures n <= |data| && (n < |data| ==> data[n] == NEWLINE)
    ensures forall i :: 0 <= i < n ==> data[i] != NEWLINE
  {
    if data == [] || data[0] == NEWLINE then 0 else 1 + LineLength(data[1..])
  }

  function Stored(m: map<nat, Record>, r: Record): map<nat, Record> { m[r.file := r] }

  /** parseCompleteLog from a given point, onto what was read so far: empty lines are
      passed over, and the first line that does not decode ends the log. */
  function ParseLog(decode: seq<byte> -> Option<Record>, data: seq<byte>, m: map<nat, Record>): map<nat, Record>
    decreases |data|
  {
    var n := LineLength(data);
    var rec := decode(data[..n]);
    if n > 0 && rec.None? then m
    else
      var m' := if n == 0 then m else Stored(m, rec.value);
      if n == |data| then m' else ParseLog(decode, data[n + 1..], m')
  }

  function LogOf(line: Record -> seq<byte>, rs: seq<Record>): seq<byte> {
    if rs == [] then [] else line(rs[0]) + ([NEWLINE] + LogOf(line, rs[1..]))
  }

  function Encoder(crc: seq<byte> -> nat): Record -> seq<byte> { (r: Record) => Line(crc, r) }

  function Decoder(crc: seq<byte> -> nat): seq<byte> -> Option<Record> { (s: seq<byte>) => DecodeRecord(crc, s) }

  /** The later of two records of one file wins. */
  function MapOf(m: map<nat, Record>, rs: seq<Record>): map<nat, Record>
    decreases |rs|
  {
    if rs == [] then m else MapOf(Stored(m, rs[0]), rs[1..])
  }

  predicate NoNewline(s: seq<byte>) { forall i :: 0 <= i < |s| ==> s[i] != NEWLINE }

  lemma LineHasNoNewline(crc: seq<byte> -> nat, r: Record)
    requires Storable(r)
    ensures NoNewline(Line(crc, r)) && Line(crc, r) != []
  {
    RecordWords(crc, r);
    ThenHasNoNewline(HexText(r.digest), Base64Text(r.path));
    ThenHasNoNewline(FormatInt(r.size), Then(HexText(r.digest), Base64Text(r.path)));
    ThenHasNoNewline(FormatUint(10, r.file), Then(FormatInt(r.size), Then(HexText(r.digest), Base64Text(r.path))));
    ThenHasNoNewline(Body(r), CrcText(crc, Body(r)));
  }

  lemma ThenHasNoNewline(a: seq<byte>, b: seq<byte>)
    requires NoNewline(a) && NoNewline(b)
    ensures NoNewline(Then(a, b))
  {
  }

  lemma LineEnds(line: seq<byte>, rest: seq<byte>)
    requires NoNewline(line)
    ensures LineLength(line + ([NEWLINE] + rest)) == |line| && LineLength(line) == |line|
  {
    var s := line + ([NEWLINE] + rest);
    assert s[|line|] == NEWLINE;
    assert forall i :: 0 <= i < |line| ==> s[i] == line[i];
  }

  /** A record whose line, and only its whole line, decodes, to the record. */
  ghost predicate Sturdy(line: Record -> seq<byte>, decode: seq<byte> -> Option<Record>, r: Record) {
    && NoNewline(line(r)) && line(r) != []
    && decode(line(r)) == Some(r)
    && forall k :: 0 <= k < |line(r)| ==> decode(line(r)[..k]) == None
  }

  lemma StorableIsSturdy(crc: seq<byte> -> nat, r: Record)
    requires Storable(r)
    ensures Sturdy(Encoder(crc), Decoder(crc), r)
  {
    LineHasNoNewline(crc, r);
    LineBack(crc, r);
    forall k | 0 <= k < |Encoder(crc)(r)|
      ensures Decoder(crc)(Encoder(crc)(r)[..k]) == None
    {
      TornLine(crc, r, k);
    }
  }

  lemma ParseWholeLine(line: Record -> seq<byte>, decode: seq<byte> -> Option<Record>, r: Record, rest: seq<byte>,
                       m: map<nat, Record>)
    requires Sturdy(line, decode, r)
    ensures ParseLog(decode, line(r) + ([NEWLINE] + rest), m) == ParseLog(decode, rest, Stored(m, r))
    ensures ParseLog(decode, line(r), m) == Stored(m, r)
  {
    var text := line(r);
    var s := text + ([NEWLINE] + rest);
    LineEnds(text, rest);
    assert s[..|text|] == text && s[|text| + 1..] == rest && text[..|text|] == text;
  }

  lemma ParseTornLine(line: Record -> seq<byte>, decode: seq<byte> -> Option<Record>, r: Record, k: nat,
                      m: map<nat, Record>)
    requires Sturdy(line, decode, r) && k < |line(r)|
    ensures ParseLog(decode, line(r)[..k], m) == m
  {
    var torn := line(r)[..k];
    LineEnds(torn, []);
    assert torn[..|torn|] == torn;
  }

  /** Which records of a log have their text wholly before a cut. */
  ghost predicate WhollyBefore(line: Record -> seq<byte>, rs: seq<Record>, k: nat, n: nat) {
    && n <= |rs|
    && (n > 0 ==> |LogOf(line, rs[..n])| - 1 <= k)
    && (n < |rs| ==> k < |LogOf(line, rs[..n + 1])| - 1)
  }

  lemma LogPrefix(line: Record -> seq<byte>, rs: seq<Record>, n: nat)
    requires 1 <= n <= |rs|
    ensures |LogOf(line, rs[..n])| == |line(rs[0])| + 1 + |LogOf(line, rs[1..][..n - 1])|
  {
    assert rs[..n][1..] == rs[1..][..n - 1];
  }

  lemma WhollyBeforeNext(line: Record -> seq<byte>, rs: seq<Record>, k: nat, n: nat)
    requires rs != [] && k > |line(rs[0])| && WhollyBefore(line, rs[1..], k - |line(rs[0])| - 1, n)
    ensures WhollyBefore(line, rs, k, n + 1)
  {
    LogPrefix(line, rs, n + 1);
    if n + 1 < |rs| {
      LogPrefix(line, rs, n + 2);
      assert rs[1..][..n + 1] == rs[1..][..n + 1];
    }
  }

  lemma MapOfNext(m: map<nat, Record>, rs: seq<Record>, n: nat)
    requires 1 <= n <= |rs|
    ensures MapOf(m, rs[..n]) == MapOf(Stored(m, rs[0]), rs[1..][..n - 1])
  {
    assert rs[..n][1..] == rs[1..][..n - 1];
  }

  lemma {:induction false} CutLines(line: Record -> seq<byte>, decode: seq<byte> -> Option<Record>, rs: seq<Record>,
                                    m: map<nat, Record>, k: nat) returns (n: nat)
    requires (forall i :: 0 <= i < |rs| ==> Sturdy(line, decode, rs[i])) && k <= |LogOf(line, rs)|
    ensures WhollyBefore(line, rs, k, n)
    ensures ParseLog(decode, LogOf(line, rs)[..k], m) == MapOf(m, rs[..n])
    decreases |rs|
  {
    n := 0;
    if rs == [] {
      assert LogOf(line, rs)[..k] == [];
      return;
    }
    var text, rest := line(rs[0]), LogOf(line, rs[1..]);
    LogPrefix(line, rs, 1);
    if k < |text| {
      assert LogOf(line, rs)[..k] == text[..k];
      ParseTornLine(line, decode, rs[0], k, m);
    } else if k == |text| {
      assert LogOf(line, rs)[..k] == text;
      ParseWholeLine(line, decode, rs[0], [], m);
      n := 1;
      MapOfNext(m, rs, 1);
      if |rs| > 1 {
        LogPrefix(line, rs, 2);
        LogPrefix(line, rs[1..], 1);
        assert Sturdy(line, decode, rs[1]);
      }
    } else {
      var j := k - |text| - 1;
      assert LogOf(line, rs)[..k] == text + ([NEWLINE] + rest[..j]);
      ParseWholeLine(line, decode, rs[0], rest[..j], m);
      var p := CutLines(line, decode, rs[1..], Stored(m, rs[0]), j);
      n := p + 1;
      WhollyBeforeNext(line, rs, k, p);
      MapOfNext(m, rs, n);
    }
  }

  /** A log cut at any byte parses to exactly the map of the records whose text is
      wholly present: a record needs its text, not its newline, and no assumption is
      made on the checksum. */
  lemma CutLog(crc: seq<byte> -> nat, rs: seq<Record>, k: nat) returns (n: nat)
    requires (forall i :: 0 <= i < |rs| ==> Storable(rs[i])) && k <= |LogOf(Encoder(crc), rs)|
    ensures WhollyBefore(Encoder(crc), rs, k, n)
    ensures ParseLog(Decoder(crc), LogOf(Encoder(crc), rs)[..k], map[]) == MapOf(map[], rs[..n])
  {
    forall i | 0 <= i < |rs|
      ensures Sturdy(Encoder(crc), Decoder(crc), rs[i])
    {
      StorableIsSturdy(crc, rs[i]);
    }
    n := CutLines(Encoder(crc), Decoder(crc), rs, map[], k);
  }

  // ---- the code ------------------------------------------------------------

  lemma ParseLogStep(decode: seq<byte> -> Option<Record>, data: seq<byte>, m: map<nat, Record>, n: nat)
    requires n == LineLength(data)
    ensures var rec := decode(data[..n]);
            if n > 0 && rec.None? then ParseLog(decode, data, m) == m
            else
              var m' := if n == 0 then m else Stored(m, rec.value);
              ParseLog(decode, data, m) == if n == |data| then m' else ParseLog(decode, data[n + 1..], m')
  {
  }

  method ParseCompleteLog(crc: seq<byte> -> nat, data: seq<byte>) returns (out: map<nat, Record>)
    ensures out == ParseLog(Decoder(crc), data, map[])
  {
    out := map[];
    ghost var decode := Decoder(crc);
    ghost var goal := ParseLog(decode, data, out);
    var rest := data;
    while true
      invariant goal == ParseLog(decode, rest, out)
      decreases |rest|
    {
      var n := NewlineIndex(rest);
      ParseLogStep(decode, rest, out, n);
      if n > 0 {
        var rec := DecodeRecord(crc, rest[..n]);
        if rec.None? {
          return;
        }
        out := out[rec.value.file := rec.value];
      }
      if n == |rest| {
        return;
      }
      rest := rest[n + 1..];
    }
  }

  method NewlineIndex(s: seq<byte>) returns (n: nat)
    ensures n == LineLength(s)
  {
    n := 0;
    while n < |s| && s[n] != NEWLINE
      invariant n <= |s| && forall i :: 0 <= i < n ==> s[i] != NEWLINE
    {
      n := n + 1;
    }
  }

  /** The map of a log holds the last record of every file in it. */
  lemma {:induction false} LastRecordCounts(m: map<nat, Record>, rs: seq<Record>, f: nat)
    ensures f in MapOf(m, rs) <==> f in m || exists i :: 0 <= i < |rs| && rs[i].file == f
    ensures forall i :: 0 <= i < |rs| && rs[i].file == f && (forall j :: i < j < |rs| ==> rs[j].file != f) ==>
              f in MapOf(m, rs) && MapOf(m, rs)[f] == rs[i]
    ensures (forall i :: 0 <= i < |rs| ==> rs[i].file != f) && f in m ==> f in MapOf(m, rs) && MapOf(m, rs)[f] == m[f]
    decreases |rs|
  {
    if rs != [] {
      var rest := rs[1..];
      LastRecordCounts(Stored(m, rs[0]), rest, f);
      assert forall i :: 0 < i < |rs| ==> rs[i] == rest[i - 1];
      assert forall i :: 0 <= i < |rest| ==> rest[i] == rs[i + 1];
    }
  }
}
