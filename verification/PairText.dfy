/** The printed form of pairing codes (internal/paircode/paircode.go): Encode and Decode
    whole, with the Crockford alphabet, the grouping hyphens and the folding of case,
    separators and look-alike letters. */
module PairText {
  import opened Bytes
  import opened Fault
  import opened Choosing
  import opened Optional
  import opened Codec
  import opened Lists
  import opened Radix
  import opened PairCode

  const ALPHABET: string := "0123456789ABCDEFGHJKMNPQRSTVWXYZ"

  // ---- the alphabet --------------------------------------------------------

  /** The alphabet in closed form. */
  function Char(d: nat): (c: byte)
    requires d < 32
  {
    (d + (if d < 10 then 48 else if d < 18 then 55 else if d < 20 then 56 else if d < 22 then 57
          else if d < 27 then 58 else 59)) as byte
  }

  lemma CharIsAlphabet(d: nat)
    requires d < 32
    ensures ALPHABET[d] as int == Char(d) as int
  {
  }

  function Index(c: byte): (d: Option<nat>)
    ensures d.Some? ==> d.value < 32 && Char(d.value) == c
  {
    var x := c as nat;
    if 48 <= x < 58 then Some(x - 48)
    else if 65 <= x < 73 then Some(x - 55)
    else if 74 <= x < 76 then Some(x - 56)
    else if 77 <= x < 79 then Some(x - 57)
    else if 80 <= x < 85 then Some(x - 58)
    else if 86 <= x < 91 then Some(x - 59)
    else None
  }

  lemma IndexOfChar(d: nat)
    requires d < 32
    ensures Index(Char(d)) == Some(d)
  {
  }

  predicate IsText(s: seq<byte>) { forall i :: 0 <= i < |s| ==> Index(s[i]).Some? }

  predicate AreDigits(ds: seq<nat>) { forall i :: 0 <= i < |ds| ==> ds[i] < 32 }

  function Text(ds: seq<nat>): (s: seq<byte>)
    requires AreDigits(ds)
    ensures |s| == |ds|
  {
    seq(|ds|, i requires 0 <= i < |ds| => Char(ds[i]))
  }

  function Indices(s: seq<byte>): (ds: seq<nat>)
    requires IsText(s)
    ensures |ds| == |s| && AreDigits(ds)
  {
    seq(|s|, i requires 0 <= i < |s| => Index(s[i]).value)
  }

  lemma IndicesOfText(ds: seq<nat>)
    requires AreDigits(ds)
    ensures IsText(Text(ds)) && Indices(Text(ds)) == ds
  {
    forall i | 0 <= i < |ds|
      ensures Index(Text(ds)[i]) == Some(ds[i])
    {
      IndexOfChar(ds[i]);
    }
  }

  function Base32Text(raw: seq<byte>): seq<byte> {
    PackedDigits(BASE32, raw);
    Text(Pack(BASE32, raw))
  }

  // ---- grouping and cleaning -----------------------------------------------

  const HYPHEN: byte := 45

  /** A hyphen every five characters. */
  function Grouped(s: seq<byte>, n: nat): seq<byte>
    requires n <= |s|
  {
    if n == 0 then []
    else Grouped(s, n - 1) + (if n > 1 && (n - 1) % 5 == 0 then [HYPHEN] else []) + [s[n - 1]]
  }

  function Group(s: seq<byte>): seq<byte> { Grouped(s, |s|) }

  /** Separators go, lower case folds to upper, I and L to 1, O to 0. */
  function Folded(c: byte): Option<byte> {
    if c in [45, 32, 9, 10, 13] then None
    else
      var u: byte := if 97 <= c <= 122 then c - 32 else c;
      Some(if u == 73 || u == 76 then 49 else if u == 79 then 48 else u)
  }

  function Folder(): byte -> Option<byte> { (c: byte) => Folded(c) }

  function Clean(s: seq<byte>): seq<byte> { Collect(Folder(), s) }

  lemma CleanAppend(a: seq<byte>, c: byte)
    ensures Clean(a + [c]) == Clean(a) + match Folded(c) case None => [] case Some(d) => [d]
  {
    CollectAppend(Folder(), a, [c]);
    CollectOne(Folder(), c);
  }

  lemma FoldedChar(c: byte)
    requires Index(c).Some?
    ensures Folded(c) == Some(c)
  {
  }

  /** Cleaning a grouped text gives the text back. */
  lemma {:induction false} CleanGrouped(s: seq<byte>, n: nat)
    requires IsText(s) && n <= |s|
    ensures Clean(Grouped(s, n)) == s[..n]
  {
    if n > 0 {
      CleanGrouped(s, n - 1);
      FoldedChar(s[n - 1]);
      var before := Grouped(s, n - 1);
      if n > 1 && (n - 1) % 5 == 0 {
        CleanAppend(before, HYPHEN);
        CleanAppend(before + [HYPHEN], s[n - 1]);
      } else {
        assert before + [] == before;
        CleanAppend(before, s[n - 1]);
      }
      assert s[..n] == s[..n - 1] + [s[n - 1]];
    }
  }

  lemma CleanGroup(s: seq<byte>)
    requires IsText(s)
    ensures Clean(Group(s)) == s
  {
    CleanGrouped(s, |s|);
    assert s[..|s|] == s;
  }

  // ---- codes ---------------------------------------------------------------

  function Encode(crc: seq<byte> -> nat, p: Payload): seq<byte>
    requires Encodable(p)
  {
    Group(Base32Text(Sealed(crc, Body(Carried(p)))))
  }

  function Decode(crc: seq<byte> -> nat, code: seq<byte>): Result {
    var cleaned := Clean(code);
    if |cleaned| < MIN_CODE || |cleaned| > MAX_CODE || !IsText(cleaned) then Err(E2001)
    else
      var raw := Unpack(BASE32, Indices(cleaned));
      if |raw| < MIN_PAYLOAD || |raw| > MAX_PAYLOAD then Err(E2001)
      else if Base32Text(raw) != cleaned then Err(E2001)
      else Parse(crc, raw)
  }

  lemma {:induction false} Base32Length(b: seq<byte>)
    ensures |Pack(BASE32, b)| == (8 * |b| + 4) / 5
  {
    if |b| > 5 {
      Base32Length(b[5..]);
    }
  }

  lemma TextBack(raw: seq<byte>)
    ensures IsText(Base32Text(raw)) && Unpack(BASE32, Indices(Base32Text(raw))) == raw
    ensures |Base32Text(raw)| == (8 * |raw| + 4) / 5
  {
    PackedDigits(BASE32, raw);
    IndicesOfText(Pack(BASE32, raw));
    Base32Sound();
    PackBack(BASE32, raw);
    Base32Length(raw);
  }

  lemma CarriedIsCanonical(p: Payload)
    requires Encodable(p)
    ensures Canonical(Carried(p)) && (Canonical(p) ==> Carried(p) == p)
  {
  }

  /** Decoding an encoded payload gives what the code carries of it, or E2004 when no
      endpoint is usable: the payload itself for up to four endpoints and a 16-byte
      secret. */
  lemma DecodeEncode(crc: seq<byte> -> nat, p: Payload)
    requires Encodable(p)
    ensures Decode(crc, Encode(crc, p)) == if AnyUsable(Carried(p)) then Ok(Carried(p)) else Err(E2004)
    ensures Canonical(p) ==> Carried(p) == p
  {
    var q := Carried(p);
    CarriedIsCanonical(p);
    var raw := Sealed(crc, Body(q));
    SealedLength(crc, q);
    TextBack(raw);
    CleanGroup(Base32Text(raw));
    ParseBack(crc, q);
  }

  /** A code that decodes is, once cleaned and grouped, the code of what it decodes to:
      separators, case and the look-alike letters are the only freedom. */
  lemma EncodeDecode(crc: seq<byte> -> nat, code: seq<byte>)
    requires Decode(crc, code).Ok?
    ensures var p := Decode(crc, code).payload; Canonical(p) && Encode(crc, p) == Group(Clean(code))
  {
    var raw := Unpack(BASE32, Indices(Clean(code)));
    ParseRead(crc, raw);
    CarriedIsCanonical(Decode(crc, code).payload);
  }

  /** Two codes carry the same payload exactly when they clean to the same text. */
  lemma SamePayloadSameText(crc: seq<byte> -> nat, c: seq<byte>, d: seq<byte>)
    requires Decode(crc, c).Ok? && Decode(crc, d).Ok?
    ensures Decode(crc, c) == Decode(crc, d) <==> Clean(c) == Clean(d)
  {
    EncodeDecode(crc, c);
    EncodeDecode(crc, d);
    CleanGroup(Clean(c));
    CleanGroup(Clean(d));
  }

  // ---- how a code may be written -------------------------------------------

  predicate Separator(c: byte) { c in [45, 32, 9, 10, 13] }

  /** One symbol: the same character in either case, any of 0 and O, or any of 1, I and L. */
  predicate SameSymbol(c: byte, d: byte) {
    || c == d
    || (65 <= c <= 90 && d == c + 32) || (65 <= d <= 90 && c == d + 32)
    || (c in [48, 79, 111] && d in [48, 79, 111])
    || (c in [49, 73, 105, 76, 108] && d in [49, 73, 105, 76, 108])
  }

  function Significant(): byte -> bool { (c: byte) => !Separator(c) }

  function Symbols(s: seq<byte>): seq<byte> { Keep(Significant(), s) }

  lemma SameFold(c: byte, d: byte)
    requires !Separator(c) && !Separator(d)
    ensures Folded(c) == Folded(d) <==> SameSymbol(c, d)
  {
  }

  function FoldOf(): byte -> byte { (c: byte) => if Folded(c).Some? then Folded(c).value else 0 }

  lemma CleanIsFolded(s: seq<byte>)
    ensures Clean(s) == Mapped(FoldOf(), Symbols(s))
  {
    CollectIsMapped(Folder(), Significant(), FoldOf(), s);
  }

  lemma {:induction false} MappedAt(xs: seq<byte>)
    ensures |Mapped(FoldOf(), xs)| == |xs|
    ensures forall i :: 0 <= i < |xs| ==> Mapped(FoldOf(), xs)[i] == FoldOf()(xs[i])
  {
    if xs != [] {
      MappedAt(xs[1..]);
    }
  }

  lemma SymbolsSignificant(s: seq<byte>)
    ensures forall i :: 0 <= i < |Symbols(s)| ==> !Separator(Symbols(s)[i])
  {
    forall i | 0 <= i < |Symbols(s)|
      ensures !Separator(Symbols(s)[i])
    {
      Kept(Significant(), s, Symbols(s)[i]);
    }
  }

  /** Two texts clean to the same one exactly when, separators aside, they are the same
      symbols one by one; so upper and lower case, O for 0, I or L for 1, and hyphens and
      white space anywhere make no difference to what a code carries. */
  lemma WrittenAlike(crc: seq<byte> -> nat, a: seq<byte>, b: seq<byte>)
    ensures Clean(a) == Clean(b)
            <==> |Symbols(a)| == |Symbols(b)| && forall i :: 0 <= i < |Symbols(a)| ==> SameSymbol(Symbols(a)[i], Symbols(b)[i])
    ensures Clean(a) == Clean(b) ==> Decode(crc, a) == Decode(crc, b)
  {
    var xs, ys := Symbols(a), Symbols(b);
    CleanIsFolded(a);
    CleanIsFolded(b);
    MappedAt(xs);
    MappedAt(ys);
    SymbolsSignificant(a);
    SymbolsSignificant(b);
    if |xs| == |ys| {
      forall i | 0 <= i < |xs|
        ensures Clean(a)[i] == Clean(b)[i] <==> SameSymbol(xs[i], ys[i])
      {
        SameFold(xs[i], ys[i]);
      }
    }
  }

  // ---- the code ------------------------------------------------------------

  method GroupText(s: seq<byte>) returns (out: seq<byte>)
    ensures out == Group(s)
  {
    out := [];
    for i := 0 to |s|
      invariant out == Grouped(s, i)
    {
      if i > 0 && i % 5 == 0 {
        out := out + [HYPHEN];
      }
      out := out + [s[i]];
    }
  }

  method CleanText(s: seq<byte>) returns (out: seq<byte>)
    ensures out == Clean(s)
  {
    out := [];
    for i := 0 to |s|
      invariant out == Clean(s[..i])
    {
      assert s[..i + 1] == s[..i] + [s[i]];
      CleanAppend(s[..i], s[i]);
      var c := s[i];
      if c in [45, 32, 9, 10, 13] {
        continue;
      }
      if 97 <= c <= 122 {
        c := c - 32;
      }
      if c == 73 || c == 76 {
        c := 49;
      } else if c == 79 {
        c := 48;
      }
      out := out + [c];
    }
    assert s[..|s|] == s;
  }

  method AlphabetIndex(c: byte) returns (d: int)
    ensures d == match Index(c) case None => -1 case Some(i) => i
  {
    for i := 0 to 32
      invariant forall j: nat :: j < i ==> Char(j) != c
    {
      CharIsAlphabet(i);
      IndexOfChar(i);
      if ALPHABET[i] as int == c as int {
        return i;
      }
    }
    d := -1;
  }

  method PutEndpoints(eps: seq<Endpoint>) returns (b: seq<byte>)
    ensures b == PutEach(EndpointWriter(), eps)
  {
    b := [];
    for i := 0 to |eps|
      invariant b == PutEach(EndpointWriter(), eps[..i])
    {
      assert eps[..i + 1] == eps[..i] + [eps[i]];
      PutEachAppend(EndpointWriter(), eps[..i], eps[i]);
      b := b + PutEndpoint(eps[i]);
    }
    assert eps[..|eps|] == eps;
  }

  method BuildBody(p: Payload) returns (body: seq<byte>)
    requires Encodable(p)
    ensures body == Body(Carried(p))
  {
    var n := if |p.endpoints| > MAX_ENDPOINTS then MAX_ENDPOINTS else |p.endpoints|;
    var header: byte := ((n - 1) * 64) as byte;
    if p.restricted {
      header := header + 8;
    }
    assert p.endpoints[..n] == Carried(p).endpoints;
    var endpoints := PutEndpoints(p.endpoints[..n]);
    var secret := if |p.secret| >= SECRET_LEN then p.secret[..SECRET_LEN]
                  else p.secret + seq(SECRET_LEN - |p.secret|, i => 0 as byte);
    assert secret == Carried(p).secret;
    body := [1, header] + (endpoints + secret);
  }

  method EncodeCode(crc: seq<byte> -> nat, p: Payload) returns (code: seq<byte>)
    requires Encodable(p)
    ensures code == Encode(crc, p)
  {
    var body := BuildBody(p);
    code := GroupText(Base32Text(body + BigEndian(crc(body) % U32, 4)));
  }

  method GetEndpoints(raw: seq<byte>, count: nat) returns (eps: seq<Endpoint>, c: Cursor)
    ensures (eps, c) == GetEach(EndpointReader(raw), Cursor(2, true), count)
  {
    ghost var get := EndpointReader(raw);
    ghost var goal := GetEach(get, Cursor(2, true), count);
    eps, c := [], Cursor(2, true);
    var k := 0;
    while k < count && c.ok
      invariant k <= count && ReadOn(get, c, count - k, eps, goal)
    {
      var (e, c1) := GetEndpoint(raw, c);
      ReadOnStep(get, c, count - k, eps, goal, e, c1);
      eps, c, k := eps + [e], c1, k + 1;
    }
    assert eps + [] == eps;
  }

  method DecodeCode(crc: seq<byte> -> nat, code: seq<byte>) returns (r: Result)
    ensures r == Decode(crc, code)
  {
    var cleaned := CleanText(code);
    if |cleaned| < MIN_CODE || |cleaned| > MAX_CODE {
      return Err(E2001);
    }
    for i := 0 to |cleaned|
      invariant forall j :: 0 <= j < i ==> Index(cleaned[j]).Some?
    {
      var d := AlphabetIndex(cleaned[i]);
      if d < 0 {
        return Err(E2001);
      }
    }
    var raw := Unpack(BASE32, Indices(cleaned));
    if |raw| < MIN_PAYLOAD || |raw| > MAX_PAYLOAD || Base32Text(raw) != cleaned {
      return Err(E2001);
    }
    r := ParsePayload(crc, raw);
  }

  method ParsePayload(crc: seq<byte> -> nat, raw: seq<byte>) returns (r: Result)
    requires MIN_PAYLOAD <= |raw| <= MAX_PAYLOAD
    ensures r == Parse(crc, raw)
  {
    if raw[0] != 1 {
      return Err(E2002);
    }
    var h := raw[1] as nat;
    if h % 8 != 0 || (h / 16) % 4 != 0 {
      return Err(E2001);
    }
    var eps, c := GetEndpoints(raw, h / 64 + 1);
    if !c.ok || c.i + SECRET_LEN + 4 != |raw| {
      return Err(E2001);
    }
    if FromBigEndian(raw[|raw| - 4..]) != crc(raw[..|raw| - 4]) % U32 {
      return Err(E2001);
    }
    for i := 0 to |eps|
      invariant forall j :: 0 <= j < i ==> !Usable(eps[j])
    {
      if Usable(eps[i]) {
        return Ok(Payload(eps, raw[c.i..c.i + SECRET_LEN], (h / 8) % 2 == 1));
      }
    }
    r := Err(E2004);
  }
}
