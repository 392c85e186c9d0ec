/** The record layer (internal/crypto/record/record.go).  AES-CBC is an uninterpreted
    function that keeps the length of whole blocks and has an inverse, HMAC an
    uninterpreted function of 32 bytes. */
module Record {
  import opened Bytes
  import opened Fault
  import opened Padding

  datatype Keys = Keys(
    enc: (seq<byte>, seq<byte>) -> seq<byte>,
    dec: (seq<byte>, seq<byte>) -> seq<byte>,
    mac: seq<byte> -> seq<byte>)

  ghost predicate Proper(k: Keys) {
    && (forall iv, p :: |p| % BLOCK_SIZE == 0 ==> |k.enc(iv, p)| == |p| && k.dec(iv, k.enc(iv, p)) == p)
    && (forall x :: |k.mac(x)| == MAC_LEN)
  }

  const VERSION: byte := 1
  const HEADER_LEN: nat := 14
  const IV_LEN: nat := 16
  const MAC_LEN: nat := 32
  const PREFIX_LEN: nat := 30
  const MAX_CT_DATA: nat := 0x10_0000 + BLOCK_SIZE
  const MAX_CT_CONTROL: nat := 0x8_0000 + BLOCK_SIZE

  function MaxCt(ch: byte): nat { if ch == 0 then MAX_CT_CONTROL else MAX_CT_DATA }

  // ---- one record ----------------------------------------------------------

  function Header(ch: byte, num: nat, ctLen: nat): (r: seq<byte>)
    ensures |r| == HEADER_LEN
  {
    [VERSION, ch] + BigEndian(num, 8) + BigEndian(ctLen, 4)
  }

  /** The authenticated part: header, IV and ciphertext. */
  function Sealed(k: Keys, ch: byte, num: nat, iv: seq<byte>, p: seq<byte>): seq<byte> {
    Header(ch, num, |Pad(p)|) + iv + k.enc(iv, Pad(p))
  }

  function RecordOf(k: Keys, ch: byte, num: nat, iv: seq<byte>, p: seq<byte>): seq<byte> {
    var s := Sealed(k, ch, num, iv, p);
    s + k.mac(s)
  }

  /** What one ReadFrame makes of the bytes still to come. */
  datatype Read = Got(frame: seq<byte>, rest: seq<byte>) | Fault(code: nat)

  function ReadOne(k: Keys, ch: byte, expected: nat, input: seq<byte>): (r: Read)
    ensures r.Got? ==> |r.rest| < |input|
  {
    if |input| < HEADER_LEN then Fault(E4005)
    else
      var n := FromBigEndian(input[10..14]);
      if input[0] != VERSION then Fault(E5002)
      else if input[1] != ch then Fault(E4003)
      else if n < BLOCK_SIZE || n > MaxCt(ch) || n % BLOCK_SIZE != 0 then Fault(E5003)
      else if |input| < PREFIX_LEN + n + MAC_LEN then Fault(E4005)
      else Verify(k, FromBigEndian(input[2..10]), expected, n, input)
  }

  /** The checks on a whole record, in order: MAC, sequence number, padding. */
  function Verify(k: Keys, num: nat, expected: nat, n: nat, input: seq<byte>): (r: Read)
    requires PREFIX_LEN + n + MAC_LEN <= |input|
    ensures r.Got? ==> |r.rest| < |input|
  {
    if k.mac(input[..PREFIX_LEN + n]) != input[PREFIX_LEN + n..PREFIX_LEN + n + MAC_LEN] then Fault(E4003)
    else if num != expected then Fault(E4004)
    else
      match Unpad(k.dec(input[HEADER_LEN..PREFIX_LEN], input[PREFIX_LEN..PREFIX_LEN + n]))
      case BadPadding => Fault(E5004)
      case Plain(frame) => Got(frame, input[PREFIX_LEN + n + MAC_LEN..])
  }

  /** A plaintext the writer accepts on this channel. */
  predicate InRange(ch: byte, p: seq<byte>) { |Pad(p)| <= MaxCt(ch) }

  lemma HeaderFields(ch: byte, num: nat, n: nat)
    requires num < U64 && n < U32
    ensures var h := Header(ch, num, n);
            h[0] == VERSION && h[1] == ch && FromBigEndian(h[2..10]) == num && FromBigEndian(h[10..14]) == n
  {
    var h := Header(ch, num, n);
    Pow256Values();
    BigEndianBack(num, 8);
    BigEndianBack(n, 4);
    assert h[2..10] == BigEndian(num, 8);
    assert h[10..14] == BigEndian(n, 4);
  }

  /** The header of any bytes that begin with a record's sealed part. */
  lemma BeginsWith(h: seq<byte>, iv: seq<byte>, ct: seq<byte>, mac: seq<byte>, rest: seq<byte>)
    requires |h| == HEADER_LEN && |iv| == IV_LEN && |mac| == MAC_LEN
    ensures var input := (h + iv + ct) + mac + rest;
            var n := |ct|;
            && |input| == PREFIX_LEN + n + MAC_LEN + |rest|
            && input[..HEADER_LEN] == h && input[HEADER_LEN..PREFIX_LEN] == iv && input[PREFIX_LEN..PREFIX_LEN + n] == ct
            && input[..PREFIX_LEN + n] == h + iv + ct
            && input[PREFIX_LEN + n..PREFIX_LEN + n + MAC_LEN] == mac && input[PREFIX_LEN + n + MAC_LEN..] == rest
  {
  }

  lemma HeaderInside(h: seq<byte>, input: seq<byte>)
    requires |h| == HEADER_LEN && |input| >= HEADER_LEN && input[..HEADER_LEN] == h
    ensures input[0] == h[0] && input[1] == h[1] && input[2..10] == h[2..10] && input[10..14] == h[10..14]
  {
    assert input[2..10] == input[..HEADER_LEN][2..10];
    assert input[10..14] == input[..HEADER_LEN][10..14];
    assert input[0] == input[..HEADER_LEN][0] && input[1] == input[..HEADER_LEN][1];
  }

  /** A whole record is read back exactly when its number is the expected one. */
  lemma OneBack(k: Keys, ch: byte, num: nat, expected: nat, iv: seq<byte>, p: seq<byte>, rest: seq<byte>)
    requires Proper(k) && num < U64 && |iv| == IV_LEN && InRange(ch, p)
    ensures ReadOne(k, ch, expected, RecordOf(k, ch, num, iv, p) + rest)
            == if num == expected then Got(p, rest) else Fault(E4004)
  {
    var padded := Pad(p);
    var h, ct := Header(ch, num, |padded|), k.enc(iv, padded);
    var mac := k.mac(h + iv + ct);
    var input := RecordOf(k, ch, num, iv, p) + rest;
    BeginsWith(h, iv, ct, mac, rest);
    HeaderFields(ch, num, |padded|);
    HeaderInside(h, input);
    UnpadInvertsPad(padded, p);
  }

  // ---- what is accepted ----------------------------------------------------

  /** The input begins with a header for this channel and an acceptable length, and holds
      the whole record. */
  predicate Framed(ch: byte, input: seq<byte>) {
    && |input| >= HEADER_LEN && input[0] == VERSION && input[1] == ch
    && BLOCK_SIZE <= FromBigEndian(input[10..14]) <= MaxCt(ch) && FromBigEndian(input[10..14]) % BLOCK_SIZE == 0
    && |input| >= PREFIX_LEN + FromBigEndian(input[10..14]) + MAC_LEN
  }

  /** The record's tag is the tag of its header, IV and ciphertext. */
  predicate Authentic(k: Keys, ch: byte, input: seq<byte>) {
    && Framed(ch, input)
    && var n := FromBigEndian(input[10..14]);
       k.mac(input[..PREFIX_LEN + n]) == input[PREFIX_LEN + n..PREFIX_LEN + n + MAC_LEN]
  }

  /** The frame is what the ciphertext decrypts to, without its padding, and `rest` is
      what follows the record. */
  predicate Carries(k: Keys, input: seq<byte>, frame: seq<byte>, rest: seq<byte>)
    requires |input| >= HEADER_LEN && |input| >= PREFIX_LEN + FromBigEndian(input[10..14]) + MAC_LEN
  {
    var n := FromBigEndian(input[10..14]);
    && k.dec(input[HEADER_LEN..PREFIX_LEN], input[PREFIX_LEN..PREFIX_LEN + n]) == Pad(frame)
    && rest == input[PREFIX_LEN + n + MAC_LEN..]
  }

  /** A frame is yielded exactly for an authentic record of this channel with the expected
      number, and it is what the record carries. */
  lemma GotIff(k: Keys, ch: byte, expected: nat, input: seq<byte>, frame: seq<byte>, rest: seq<byte>)
    ensures ReadOne(k, ch, expected, input) == Got(frame, rest)
            <==> Authentic(k, ch, input) && FromBigEndian(input[2..10]) == expected && Carries(k, input, frame, rest)
  {
    if Framed(ch, input) {
      var n := FromBigEndian(input[10..14]);
      UnpadInvertsPad(k.dec(input[HEADER_LEN..PREFIX_LEN], input[PREFIX_LEN..PREFIX_LEN + n]), frame);
    }
  }

  /** What each error says of the input: nothing is reported before the checks in front
      of it have passed. */
  lemma FaultIff(k: Keys, ch: byte, expected: nat, input: seq<byte>)
    ensures var r := ReadOne(k, ch, expected, input);
            var n := if |input| >= HEADER_LEN then FromBigEndian(input[10..14]) else 0;
            var sized := BLOCK_SIZE <= n <= MaxCt(ch) && n % BLOCK_SIZE == 0;
            && (r == Fault(E5002) <==> |input| >= HEADER_LEN && input[0] != VERSION)
            && (r == Fault(E5003) <==> |input| >= HEADER_LEN && input[0] == VERSION && input[1] == ch && !sized)
            && (r == Fault(E4005) <==>
                  || |input| < HEADER_LEN
                  || (input[0] == VERSION && input[1] == ch && sized && |input| < PREFIX_LEN + n + MAC_LEN))
            && (r == Fault(E4003) <==>
                  |input| >= HEADER_LEN && input[0] == VERSION
                  && (input[1] != ch || (Framed(ch, input) && !Authentic(k, ch, input))))
            && (r == Fault(E4004) <==> Authentic(k, ch, input) && FromBigEndian(input[2..10]) != expected)
            && (r == Fault(E5004) <==>
                  Authentic(k, ch, input) && FromBigEndian(input[2..10]) == expected
                  && Unpad(k.dec(input[HEADER_LEN..PREFIX_LEN], input[PREFIX_LEN..PREFIX_LEN + n])) == BadPadding)
  {
  }

  /** A written record whose number, IV or ciphertext was altered is E4003, unless the
      altered text has the same tag. */
  lemma AlteredIsRefused(k: Keys, ch: byte, num: nat, expected: nat, iv: seq<byte>, p: seq<byte>, altered: seq<byte>,
                         rest: seq<byte>)
    requires Proper(k) && num < U64 && |iv| == IV_LEN && InRange(ch, p)
    requires var s := Sealed(k, ch, num, iv, p);
             && |altered| == |s| && altered[..2] == s[..2] && altered[10..HEADER_LEN] == s[10..HEADER_LEN]
             && k.mac(altered) != k.mac(s)
    ensures ReadOne(k, ch, expected, altered + k.mac(Sealed(k, ch, num, iv, p)) + rest) == Fault(E4003)
  {
    var h, ct := Header(ch, num, |Pad(p)|), k.enc(iv, Pad(p));
    var s := Sealed(k, ch, num, iv, p);
    HeaderFields(ch, num, |Pad(p)|);
    assert s[..HEADER_LEN] == h;
    HeaderInside(h, s);
    assert altered[0] == altered[..2][0] && altered[1] == altered[..2][1];
    assert s[0] == s[..2][0] && s[1] == s[..2][1];
    TaggedParts(altered, k.mac(s), rest);
  }

  lemma TaggedParts(t: seq<byte>, mac: seq<byte>, rest: seq<byte>)
    requires |t| >= PREFIX_LEN && |mac| == MAC_LEN
    ensures var input := t + mac + rest;
            && input[0] == t[0] && input[1] == t[1] && input[10..14] == t[10..14]
            && input[..|t|] == t && input[|t|..|t| + MAC_LEN] == mac
  {
  }
}
