/** The resume journal's complete.log (internal/fsx/journal.go): one line of text per
    completed file, closed by a CRC-32 that is an uninterpreted function. */
module Journal {
  import opened Bytes
  import opened Optional
  import opened FieldText

  datatype Record = Record(file: nat, size: int, digest: seq<byte>, path: seq<byte>)

  predicate Storable(r: Record) {
    r.file < U64 && -(U64 / 2) <= r.size < U64 / 2 && r.digest != [] && r.path != []
  }

  const SPACE: byte := 32
  const NEWLINE: byte := 10

  predicate IsSpace(c: byte) { c == 32 || 9 <= c <= 13 }

  // ---- splitting into fields -----------------------------------------------

  /** The length of the leading word. */
  function WordLength(s: seq<byte>): (n: nat)
    ensures n <= |s| && (n < |s| ==> IsSpace(s[n]))
    ensures forall i :: 0 <= i < n ==> !IsSpace(s[i])
  {
    if s == [] || IsSpace(s[0]) then 0 else 1 + WordLength(s[1..])
  }

  function Fields(s: seq<byte>): seq<seq<byte>> {
    if s == [] then []
    else if IsSpace(s[0]) then Fields(s[1..])
    else var n := WordLength(s); [s[..n]] + Fields(s[n..])
  }

  predicate IsWord(w: seq<byte>) { w != [] && forall i :: 0 <= i < |w| ==> !IsSpace(w[i]) }

  lemma WordThenSpace(w: seq<byte>, rest: seq<byte>)
    requires IsWord(w)
    ensures Fields(Then(w, rest)) == [w] + Fields(rest)
  {
    var s := Then(w, rest);
    var n := WordLength(s);
    assert n == |w| by {
      assert s[|w|] == SPACE;
      assert forall i :: 0 <= i < |w| ==> s[i] == w[i];
    }
    assert s[..n] == w && s[n..] == [SPACE] + rest && ([SPACE] + rest)[1..] == rest;
  }

  lemma OneWord(w: seq<byte>)
    requires IsWord(w)
    ensures Fields(w) == [w]
  {
    assert WordLength(w) == |w|;
    assert w[..|w|] == w && w[|w|..] == [];
  }

  /** A prefix of a text has no more fields than the text. */
  lemma {:induction false} PrefixHasFewerFields(s: seq<byte>, k: nat)
    requires k <= |s|
    ensures |Fields(s[..k])| <= |Fields(s)|
    decreases |s|
  {
    if k > 0 {
      if IsSpace(s[0]) {
        assert s[..k][1..] == s[1..][..k - 1];
        PrefixHasFewerFields(s[1..], k - 1);
      } else {
        var n, t := WordLength(s), s[..k];
        var m := WordLength(t);
        if k <= n {
          assert m == k && t[m..] == [];
        } else {
          assert m == n by {
            assert forall i :: 0 <= i < k ==> t[i] == s[i];
          }
          assert t[n..] == s[n..][..k - n];
          PrefixHasFewerFields(s[n..], k - n);
        }
      }
    }
  }

  // ---- records as lines ----------------------------------------------------

  /** Four fields and the spaces between them. */
  function Joined(a: seq<byte>, b: seq<byte>, c: seq<byte>, d: seq<byte>): seq<byte> {
    Then(a, Then(b, Then(c, d)))
  }

  function Then(a: seq<byte>, b: seq<byte>): seq<byte> { a + ([SPACE] + b) }

  lemma ThenAppend(a: seq<byte>, b: seq<byte>, c: seq<byte>)
    ensures Then(a, b) + c == Then(a, b + c)
  {
  }

  function Body(r: Record): seq<byte> {
    Joined(FormatUint(10, r.file), FormatInt(r.size), HexText(r.digest), Base64Text(r.path))
  }

  function CrcText(crc: seq<byte> -> nat, body: seq<byte>): (s: seq<byte>)
    ensures s != []
  {
    FormatUint(16, crc(body) % U32)
  }

  /** encodeRecord, without its newline. */
  function Line(crc: seq<byte> -> nat, r: Record): seq<byte> { Then(Body(r), CrcText(crc, Body(r))) }

  /** decodeRecord: five fields, the checksum first, then each field. */
  function DecodeRecord(crc: seq<byte> -> nat, line: seq<byte>): Option<Record> {
    var f := Fields(line);
    if |f| != 5 then None
    else if ParseUint(16, U32, f[4]) != Some(crc(Joined(f[0], f[1], f[2], f[3])) % U32) then None
    else RecordOf(f)
  }

  function RecordOf(f: seq<seq<byte>>): Option<Record>
    requires |f| == 5
  {
    var file, size := ParseUint(10, U64, f[0]), ParseInt(f[1]);
    var digest, path := HexDecode(f[2]), Base64Decode(f[3]);
    if file.None? || size.None? || digest.None? || path.None? then None
    else Some(Record(file.value, size.value, digest.value, path.value))
  }

  lemma UintIsWord(base: nat, v: nat)
    requires 2 <= base <= 16
    ensures IsWord(FormatUint(base, v))
  {
  }

  lemma HexIsWord(b: seq<byte>)
    requires b != []
    ensures IsWord(HexText(b))
  {
    HexBack(b);
  }

  lemma Base64IsWord(b: seq<byte>)
    requires b != []
    ensures IsWord(Base64Text(b))
  {
    Base64Back(b);
  }

  lemma RecordWords(crc: seq<byte> -> nat, r: Record)
    requires Storable(r)
    ensures IsWord(FormatUint(10, r.file)) && IsWord(FormatInt(r.size)) && IsWord(CrcText(crc, Body(r)))
    ensures IsWord(HexText(r.digest)) && IsWord(Base64Text(r.path))
  {
    UintIsWord(10, r.file);
    UintIsWord(10, if r.size < 0 then -r.size else r.size);
    HexIsWord(r.digest);
    Base64IsWord(r.path);
    UintIsWord(16, crc(Body(r)) % U32);
  }

  lemma JoinedThen(a: seq<byte>, b: seq<byte>, c: seq<byte>, d: seq<byte>, rest: seq<byte>)
    ensures Then(Joined(a, b, c, d), rest) == Then(a, Then(b, Then(c, Then(d, rest))))
  {
    var tail := [SPACE] + rest;
    ThenAppend(a, Then(b, Then(c, d)), tail);
    ThenAppend(b, Then(c, d), tail);
    ThenAppend(c, d, tail);
  }

  lemma JoinedFields(a: seq<byte>, b: seq<byte>, c: seq<byte>, d: seq<byte>, rest: seq<byte>)
    requires IsWord(a) && IsWord(b) && IsWord(c) && IsWord(d)
    ensures Fields(Then(Joined(a, b, c, d), rest)) == [a, b, c, d] + Fields(rest)
  {
    JoinedThen(a, b, c, d, rest);
    WordThenSpace(a, Then(b, Then(c, Then(d, rest))));
    WordThenSpace(b, Then(c, Then(d, rest)));
    WordThenSpace(c, Then(d, rest));
    WordThenSpace(d, rest);
  }

  /** The fields of a record's line up to a cut in its checksum. */
  lemma LineFields(r: Record, tail: seq<byte>)
    requires Storable(r)
    ensures Fields(Then(Body(r), tail))
            == [FormatUint(10, r.file), FormatInt(r.size), HexText(r.digest), Base64Text(r.path)] + Fields(tail)
  {
    UintIsWord(10, r.file);
    UintIsWord(10, if r.size < 0 then -r.size else r.size);
    HexIsWord(r.digest);
    Base64IsWord(r.path);
    JoinedFields(FormatUint(10, r.file), FormatInt(r.size), HexText(r.digest), Base64Text(r.path), tail);
  }

  lemma FieldsBack(r: Record, f: seq<seq<byte>>)
    requires Storable(r) && |f| == 5
    requires f[..4] == [FormatUint(10, r.file), FormatInt(r.size), HexText(r.digest), Base64Text(r.path)]
    ensures RecordOf(f) == Some(r)
  {
    assert f[0] == f[..4][0] && f[1] == f[..4][1] && f[2] == f[..4][2] && f[3] == f[..4][3];
    UintBack(10, U64, r.file);
    IntBack(r.size);
    HexBack(r.digest);
    Base64Back(r.path);
  }

  /** A whole line decodes to its record. */
  lemma LineBack(crc: seq<byte> -> nat, r: Record)
    requires Storable(r)
    ensures DecodeRecord(crc, Line(crc, r)) == Some(r)
  {
    var text := CrcText(crc, Body(r));
    LineFields(r, text);
    UintIsWord(16, crc(Body(r)) % U32);
    OneWord(text);
    UintBack(16, U32, crc(Body(r)) % U32);
    FieldsBack(r, Fields(Line(crc, r)));
  }

  /** A line cut anywhere decodes to nothing, however weak the checksum: before the
      checksum there are too few fields, inside it the number is another. */
  lemma TornLine(crc: seq<byte> -> nat, r: Record, k: nat)
    requires Storable(r) && k < |Line(crc, r)|
    ensures DecodeRecord(crc, Line(crc, r)[..k]) == None
  {
    var body, text := Body(r), CrcText(crc, Body(r));
    var head := Then(body, []);
    if k <= |head| {
      assert Line(crc, r)[..k] == head[..k];
      LineFields(r, []);
      PrefixHasFewerFields(head, k);
    } else {
      var cut := text[..k - |head|];
      assert Line(crc, r)[..k] == Then(body, cut);
      LineFields(r, cut);
      UintIsWord(16, crc(body) % U32);
      OneWord(cut);
      CutUintDiffers(16, U32, crc(body) % U32, k - |head|);
    }
  }
  /** What decodes has five fields, and its checksum is that of the first four. */
  lemma DecodedIsChecked(crc: seq<byte> -> nat, line: seq<byte>)
    requires DecodeRecord(crc, line).Some?
    ensures |Fields(line)| == 5
    ensures var f := Fields(line);
            && ParseUint(16, U32, f[4]) == Some(crc(Joined(f[0], f[1], f[2], f[3])) % U32)
            && ParseUint(10, U64, f[0]) == Some(DecodeRecord(crc, line).value.file)
            && ParseInt(f[1]) == Some(DecodeRecord(crc, line).value.size)
            && HexDecode(f[2]) == Some(DecodeRecord(crc, line).value.digest)
            && Base64Decode(f[3]) == Some(DecodeRecord(crc, line).value.path)
  {
  }
}
