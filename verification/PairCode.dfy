/** Pairing codes (internal/paircode/paircode.go): the payload format, Crockford Base32
    over it, grouping for print and the cleaning of what the user pastes.  CRC-32C is
    an uninterpreted function.  Addresses are zone-free IPv4 or IPv6. */
module PairCode {
  import opened Bytes
  import opened Fault
  import opened Codec
  import opened Lists

  datatype Addr = V4(b: seq<byte>) | V6(b: seq<byte>)

  datatype Endpoint = Endpoint(addr: Addr, port: nat)

  datatype Payload = Payload(endpoints: seq<Endpoint>, secret: seq<byte>, restricted: bool)

  datatype Result = Ok(payload: Payload) | Err(code: nat)

  const SECRET_LEN: nat := 16
  const MAX_ENDPOINTS: nat := 4
  const MIN_PAYLOAD: nat := 29
  const MAX_PAYLOAD: nat := 98
  const MIN_CODE: nat := 47
  const MAX_CODE: nat := 260

  predicate IsAddr(a: Addr) { |a.b| == if a.V4? then 4 else 16 }

  predicate IsEndpoint(e: Endpoint) { IsAddr(e.addr) && e.port < U16 }

  predicate Usable(e: Endpoint) { e.port != 0 && exists i :: 0 <= i < |e.addr.b| && e.addr.b[i] != 0 }

  /** At least one endpoint, all of them addresses that exist. */
  predicate Encodable(p: Payload) {
    1 <= |p.endpoints| && forall i :: 0 <= i < |p.endpoints| ==> IsEndpoint(p.endpoints[i])
  }

  /** What a code can carry of a payload: four endpoints, and a secret of 16 bytes. */
  function Carried(p: Payload): Payload {
    p.(endpoints := if |p.endpoints| > MAX_ENDPOINTS then p.endpoints[..MAX_ENDPOINTS] else p.endpoints,
       secret := if |p.secret| >= SECRET_LEN then p.secret[..SECRET_LEN]
                 else p.secret + seq(SECRET_LEN - |p.secret|, i => 0 as byte))
  }

  // ---- the payload ---------------------------------------------------------

  function PutEndpoint(e: Endpoint): seq<byte> {
    [if e.addr.V4? then 4 else 6] + (e.addr.b + BigEndian(e.port, 2))
  }

  function EndpointWriter(): Endpoint -> seq<byte> { (e: Endpoint) => PutEndpoint(e) }

  /** One turn of Decode's endpoint loop. */
  function GetEndpoint(raw: seq<byte>, c: Cursor): (Endpoint, Cursor) {
    var bad := (Endpoint(V4([]), 0), c.(ok := false));
    if !c.ok || c.i + 1 > |raw| || (raw[c.i] != 4 && raw[c.i] != 6) then bad
    else
      var n := if raw[c.i] == 4 then 4 else 16;
      var pos := c.i + 1;
      if pos + n + 2 > |raw| then bad
      else
        var b := raw[pos..pos + n];
        (Endpoint(if n == 4 then V4(b) else V6(b), FromBigEndian(raw[pos + n..pos + n + 2])), Cursor(pos + n + 2, true))
  }

  function EndpointReader(raw: seq<byte>): Cursor -> (Endpoint, Cursor) { (c: Cursor) => GetEndpoint(raw, c) }

  /** Bits 7-6: endpoint count less one; bit 3: restricted; the rest reserved. */
  function Header(p: Payload): byte
    requires 1 <= |p.endpoints| <= MAX_ENDPOINTS
  {
    ((|p.endpoints| - 1) * 64 + (if p.restricted then 8 else 0)) as byte
  }

  function Body(p: Payload): seq<byte>
    requires 1 <= |p.endpoints| <= MAX_ENDPOINTS
  {
    [1, Header(p)] + (PutEach(EndpointWriter(), p.endpoints) + p.secret)
  }

  function Sealed(crc: seq<byte> -> nat, body: seq<byte>): seq<byte> { body + BigEndian(crc(body) % U32, 4) }

  /** Decode, from the version byte on. */
  function Parse(crc: seq<byte> -> nat, raw: seq<byte>): Result
    requires MIN_PAYLOAD <= |raw| <= MAX_PAYLOAD
  {
    var h := raw[1] as nat;
    if raw[0] != 1 then Err(E2002)
    else if h % 8 != 0 || (h / 16) % 4 != 0 then Err(E2001)
    else
      var (eps, c) := GetEach(EndpointReader(raw), Cursor(2, true), h / 64 + 1);
      if !c.ok || c.i + SECRET_LEN + 4 != |raw| then Err(E2001)
      else if FromBigEndian(raw[|raw| - 4..]) != crc(raw[..|raw| - 4]) % U32 then Err(E2001)
      else if !(exists i :: 0 <= i < |eps| && Usable(eps[i])) then Err(E2004)
      else Ok(Payload(eps, raw[c.i..c.i + SECRET_LEN], (h / 8) % 2 == 1))
  }

  lemma EndpointBack(raw: seq<byte>, e: Endpoint, i: nat)
    requires IsEndpoint(e) && At(raw, i, PutEndpoint(e))
    ensures GetEndpoint(raw, Cursor(i, true)) == (e, Cursor(i + |PutEndpoint(e)|, true))
  {
    var family := [if e.addr.V4? then 4 else 6];
    AtSplit3(raw, i, family, e.addr.b, BigEndian(e.port, 2));
    assert raw[i] == raw[i..i + 1][0];
    Pow256Values();
    BigEndianBack(e.port, 2);
  }

  lemma PortRead(port: seq<byte>)
    requires |port| == 2
    ensures FromBigEndian(port) < U16 && BigEndian(FromBigEndian(port), 2) == port
  {
    FromBigEndianRoundTrip(port);
    Pow256Values();
  }

  lemma SliceInThree(raw: seq<byte>, i: nat, n: nat)
    requires i + 1 + n + 2 <= |raw|
    ensures raw[i..i + 1 + n + 2] == [raw[i]] + (raw[i + 1..i + 1 + n] + raw[i + 1 + n..i + 1 + n + 2])
  {
  }

  lemma EndpointRead(raw: seq<byte>, c: Cursor)
    requires GetEndpoint(raw, c).1.ok
    ensures var (e, end) := GetEndpoint(raw, c); IsEndpoint(e) && Covers(raw, c, end, PutEndpoint(e))
  {
    var n := if raw[c.i] == 4 then 4 else 16;
    PortRead(raw[c.i + 1 + n..c.i + 1 + n + 2]);
    SliceInThree(raw, c.i, n);
  }

  lemma EndpointsBack(raw: seq<byte>, eps: seq<Endpoint>, i: nat, end: nat)
    requires forall k :: 0 <= k < |eps| ==> IsEndpoint(eps[k])
    requires At(raw, i, PutEach(EndpointWriter(), eps)) && end == i + |PutEach(EndpointWriter(), eps)|
    ensures GetEach(EndpointReader(raw), Cursor(i, true), |eps|) == (eps, Cursor(end, true))
  {
    forall k | 0 <= k < |eps|
      ensures ReadsBack(raw, EndpointWriter(), EndpointReader(raw), eps[k])
    {
      forall j: nat | At(raw, j, EndpointWriter()(eps[k]))
        ensures EndpointReader(raw)(Cursor(j, true)) == (eps[k], Cursor(j + |EndpointWriter()(eps[k])|, true))
      {
        EndpointBack(raw, eps[k], j);
      }
    }
    EachBack(raw, EndpointWriter(), EndpointReader(raw), eps, i, end);
  }

  lemma EndpointsRead(raw: seq<byte>, i: nat, n: nat)
    requires i <= |raw| && GetEach(EndpointReader(raw), Cursor(i, true), n).1.ok
    ensures var (eps, end) := GetEach(EndpointReader(raw), Cursor(i, true), n);
            Covers(raw, Cursor(i, true), end, PutEach(EndpointWriter(), eps))
            && forall k :: 0 <= k < |eps| ==> IsEndpoint(eps[k])
  {
    var put, get := EndpointWriter(), EndpointReader(raw);
    forall c: Cursor
      ensures ReadsCover(raw, put, get, c) && (get(c).1.ok ==> IsEndpoint(get(c).0))
    {
      if get(c).1.ok {
        EndpointRead(raw, c);
      }
    }
    EachRead(raw, put, get, Cursor(i, true), n);
    forall c: Cursor | c.i <= |raw|
      ensures get(c).1.i <= |raw|
    {
    }
    EachHolds(get, Cursor(i, true), n, |raw|, e => IsEndpoint(e));
  }

  predicate AnyUsable(p: Payload) { exists i :: 0 <= i < |p.endpoints| && Usable(p.endpoints[i]) }

  /** A payload in the form a code carries. */
  predicate Canonical(p: Payload) { Encodable(p) && |p.endpoints| <= MAX_ENDPOINTS && |p.secret| == SECRET_LEN }

  lemma {:induction false} EndpointsLength(eps: seq<Endpoint>)
    requires forall k :: 0 <= k < |eps| ==> IsEndpoint(eps[k])
    ensures 7 * |eps| <= |PutEach(EndpointWriter(), eps)| <= 19 * |eps|
  {
    if eps != [] {
      EndpointsLength(eps[1..]);
    }
  }

  lemma HeaderBits(p: Payload)
    requires 1 <= |p.endpoints| <= MAX_ENDPOINTS
    ensures var h := Header(p) as nat;
            h % 8 == 0 && (h / 16) % 4 == 0 && h / 64 + 1 == |p.endpoints| && ((h / 8) % 2 == 1 <==> p.restricted)
  {
  }

  lemma HeaderOf(h: nat, n: nat, restricted: bool)
    requires h < 256 && h % 8 == 0 && (h / 16) % 4 == 0 && n == h / 64 + 1 && (restricted <==> (h / 8) % 2 == 1)
    ensures h == (n - 1) * 64 + (if restricted then 8 else 0) && 1 <= n <= MAX_ENDPOINTS
  {
  }

  lemma SealedLength(crc: seq<byte> -> nat, p: Payload)
    requires Canonical(p)
    ensures MIN_PAYLOAD <= |Sealed(crc, Body(p))| <= MAX_PAYLOAD
  {
    EndpointsLength(p.endpoints);
  }

  lemma ParseBack(crc: seq<byte> -> nat, p: Payload)
    requires Canonical(p) && MIN_PAYLOAD <= |Sealed(crc, Body(p))| <= MAX_PAYLOAD
    ensures Parse(crc, Sealed(crc, Body(p))) == if AnyUsable(p) then Ok(p) else Err(E2004)
  {
    var body := Body(p);
    var raw := Sealed(crc, body);
    var eps := PutEach(EndpointWriter(), p.endpoints);
    HeaderBits(p);
    assert raw[..|raw| - 4] == body && raw[|raw| - 4..] == BigEndian(crc(body) % U32, 4);
    Pow256Values();
    BigEndianBack(crc(body) % U32, 4);
    assert raw[2..2 + |eps|] == eps;
    EndpointsBack(raw, p.endpoints, 2, 2 + |eps|);
    assert raw[2 + |eps|..2 + |eps| + SECRET_LEN] == p.secret;
  }

  lemma ParseRead(crc: seq<byte> -> nat, raw: seq<byte>)
    requires MIN_PAYLOAD <= |raw| <= MAX_PAYLOAD && Parse(crc, raw).Ok?
    ensures var p := Parse(crc, raw).payload; Canonical(p) && AnyUsable(p) && Sealed(crc, Body(p)) == raw
  {
    var p := Parse(crc, raw).payload;
    var h := raw[1] as nat;
    var c := GetEach(EndpointReader(raw), Cursor(2, true), h / 64 + 1).1;
    EndpointsRead(raw, 2, h / 64 + 1);
    BodyRead(raw, p, h, c);
    SealedRead(crc, raw);
  }

  lemma BodyRead(raw: seq<byte>, p: Payload, h: nat, c: Cursor)
    requires |raw| >= 6 && raw[0] == 1 && raw[1] as nat == h && h % 8 == 0 && (h / 16) % 4 == 0
    requires |p.endpoints| == h / 64 + 1 && (p.restricted <==> (h / 8) % 2 == 1)
    requires Covers(raw, Cursor(2, true), c, PutEach(EndpointWriter(), p.endpoints))
    requires c.i + SECRET_LEN + 4 == |raw| && p.secret == raw[c.i..c.i + SECRET_LEN]
    ensures |p.endpoints| <= MAX_ENDPOINTS && Body(p) == raw[..|raw| - 4]
  {
    HeaderOf(h, |p.endpoints|, p.restricted);
    assert raw[..|raw| - 4] == [raw[0], raw[1]] + (raw[2..c.i] + raw[c.i..c.i + SECRET_LEN]);
  }

  lemma SealedRead(crc: seq<byte> -> nat, raw: seq<byte>)
    requires |raw| >= 4 && FromBigEndian(raw[|raw| - 4..]) == crc(raw[..|raw| - 4]) % U32
    ensures Sealed(crc, raw[..|raw| - 4]) == raw
  {
    FromBigEndianRoundTrip(raw[|raw| - 4..]);
    assert raw == raw[..|raw| - 4] + raw[|raw| - 4..];
  }

  /** Bytes parse to a payload exactly when they are its bytes and it can be used, and a
      version other than 1 is told apart from all other damage. */
  lemma ParseIff(crc: seq<byte> -> nat, raw: seq<byte>, p: Payload)
    requires MIN_PAYLOAD <= |raw| <= MAX_PAYLOAD
    ensures Parse(crc, raw) == Ok(p) <==> Canonical(p) && AnyUsable(p) && raw == Sealed(crc, Body(p))
    ensures Parse(crc, raw) == Err(E2002) <==> raw[0] != 1
    ensures Canonical(p) && !AnyUsable(p) && raw == Sealed(crc, Body(p)) ==> Parse(crc, raw) == Err(E2004)
  {
    if Parse(crc, raw) == Ok(p) {
      ParseRead(crc, raw);
    }
    if Canonical(p) && raw == Sealed(crc, Body(p)) {
      ParseBack(crc, p);
    }
  }
}
