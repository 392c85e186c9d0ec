/** The text of journal fields: numbers, hex and standard base64 (section 4 of
    RFC 4648), and the splitting of a line into fields at ASCII white space
    (internal/fsx/journal.go). */
module FieldText {
  import opened Bytes
  import opened Optional
  import opened Radix

  // ---- digits as characters ------------------------------------------------

  function LowerDigit(d: nat): byte
    requires d < 16
  {
    (if d < 10 then 48 + d else 87 + d) as byte
  }

  function DigitOf(c: byte): Option<nat> {
    var x := c as nat;
    if 48 <= x < 58 then Some(x - 48)
    else if 97 <= x < 103 then Some(x - 87)
    else if 65 <= x < 71 then Some(x - 55)
    else None
  }

  function Symbol64(d: nat): byte
    requires d < 64
  {
    (if d < 26 then 65 + d else if d < 52 then 71 + d else if d < 62 then d - 4 else if d == 62 then 43 else 47) as byte
  }

  function Value64(c: byte): Option<nat> {
    var x := c as nat;
    if 65 <= x < 91 then Some(x - 65)
    else if 97 <= x < 123 then Some(x - 71)
    else if 48 <= x < 58 then Some(x + 4)
    else if x == 43 then Some(62)
    else if x == 47 then Some(63)
    else None
  }

  predicate Below(ds: seq<nat>, base: nat) { forall i :: 0 <= i < |ds| ==> ds[i] < base }

  function Lower(ds: seq<nat>): (s: seq<byte>)
    requires Below(ds, 16)
    ensures |s| == |ds|
  {
    seq(|ds|, i requires 0 <= i < |ds| => LowerDigit(ds[i]))
  }

  function Text64(ds: seq<nat>): (s: seq<byte>)
    requires Below(ds, 64)
    ensures |s| == |ds|
  {
    seq(|ds|, i requires 0 <= i < |ds| => Symbol64(ds[i]))
  }

  predicate Readable(value: byte -> Option<nat>, base: nat, s: seq<byte>) {
    forall i :: 0 <= i < |s| ==> value(s[i]).Some? && value(s[i]).value < base
  }

  function ValuesOf(value: byte -> Option<nat>, base: nat, s: seq<byte>): (r: seq<nat>)
    requires Readable(value, base, s)
    ensures |r| == |s| && forall i :: 0 <= i < |s| ==> r[i] == value(s[i]).value
  {
    seq(|s|, i requires 0 <= i < |s| => value(s[i]).value)
  }

  /** Every character a digit below the base, or nothing. */
  function Read(value: byte -> Option<nat>, base: nat, s: seq<byte>): (r: Option<seq<nat>>) {
    if Readable(value, base, s) then Some(ValuesOf(value, base, s)) else None
  }

  function DigitReader(): byte -> Option<nat> { (c: byte) => DigitOf(c) }

  function Reader64(): byte -> Option<nat> { (c: byte) => Value64(c) }

  lemma ReadIs(value: byte -> Option<nat>, base: nat, s: seq<byte>, ds: seq<nat>)
    requires |s| == |ds| && forall i :: 0 <= i < |s| ==> ds[i] < base && value(s[i]) == Some(ds[i])
    ensures Read(value, base, s) == Some(ds)
  {
    assert Readable(value, base, s) && ds == ValuesOf(value, base, s);
  }

  lemma LowerBack(ds: seq<nat>, base: nat)
    requires base <= 16 && Below(ds, base)
    ensures Read(DigitReader(), base, Lower(ds)) == Some(ds)
  {
    forall i | 0 <= i < |ds|
      ensures DigitReader()(Lower(ds)[i]) == Some(ds[i])
    {
    }
    ReadIs(DigitReader(), base, Lower(ds), ds);
  }

  lemma Text64Back(ds: seq<nat>)
    requires Below(ds, 64)
    ensures Read(Reader64(), 64, Text64(ds)) == Some(ds)
  {
    forall i | 0 <= i < |ds|
      ensures Reader64()(Text64(ds)[i]) == Some(ds[i])
    {
    }
    ReadIs(Reader64(), 64, Text64(ds), ds);
  }

  // ---- numbers -------------------------------------------------------------

  /** FormatUint. */
  function FormatUint(base: nat, v: nat): (s: seq<byte>)
    requires 2 <= base <= 16
    ensures s != []
  {
    Lower(Numeral(base, v))
  }

  /** ParseUint, for values below `limit`. */
  function ParseUint(base: nat, limit: nat, s: seq<byte>): Option<nat> {
    match Read(DigitReader(), base, s)
    case None => None
    case Some(ds) => if s == [] || Value(base, ds) >= limit then None else Some(Value(base, ds))
  }

  function FormatInt(v: int): (s: seq<byte>)
    ensures s != []
  {
    if v < 0 then [45] + FormatUint(10, -v) else FormatUint(10, v)
  }

  /** ParseInt in 64 bits: an optional sign and a magnitude in range. */
  function ParseInt(s: seq<byte>): Option<int> {
    var signed := s != [] && (s[0] == 45 || s[0] == 43);
    match ParseUint(10, U64, if signed then s[1..] else s)
    case None => None
    case Some(n) =>
      if signed && s[0] == 45 then (if n > U64 / 2 then None else var m: int := 0 - (n as int); Some(m))
      else if n >= U64 / 2 then None
      else Some(n)
  }

  lemma UintBack(base: nat, limit: nat, v: nat)
    requires 2 <= base <= 16 && v < limit
    ensures ParseUint(base, limit, FormatUint(base, v)) == Some(v)
  {
    LowerBack(Numeral(base, v), base);
    ValueOfNumeral(base, v);
  }

  lemma IntBack(v: int)
    requires -(U64 / 2) <= v < U64 / 2
    ensures ParseInt(FormatInt(v)) == Some(v)
  {
    var digits := FormatUint(10, if v < 0 then -v else v);
    UintBack(10, U64, if v < 0 then -v else v);
    assert digits[0] != 45 && digits[0] != 43;
    if v < 0 {
      assert FormatInt(v)[1..] == digits;
    }
  }

  /** A number's text cut short reads as something else. */
  lemma CutUintDiffers(base: nat, limit: nat, v: nat, k: nat)
    requires 2 <= base <= 16 && 0 < k < |FormatUint(base, v)|
    ensures ParseUint(base, limit, FormatUint(base, v)[..k]) != Some(v)
  {
    var ds := Numeral(base, v);
    assert FormatUint(base, v)[..k] == Lower(ds[..k]);
    LowerBack(ds[..k], base);
    CutNumeralIsSmaller(base, v, k);
  }

  // ---- hex and base64 ------------------------------------------------------

  function HexText(b: seq<byte>): seq<byte> {
    PackedDigits(HEX, b);
    Lower(Pack(HEX, b))
  }

  function HexDecode(s: seq<byte>): Option<seq<byte>> {
    match Read(DigitReader(), 16, s)
    case None => None
    case Some(ds) => if |s| % 2 != 0 then None else Some(Unpack(HEX, ds))
  }

  const EQUALS: byte := 61

  function Padded64(s: seq<byte>): (r: seq<byte>) {
    s + seq((4 - |s| % 4) % 4, i => EQUALS)
  }

  function Base64Text(b: seq<byte>): seq<byte> {
    PackedDigits(BASE64, b);
    Padded64(Text64(Pack(BASE64, b)))
  }

  /** Up to two closing '='. */
  function Unpadded64(s: seq<byte>): seq<byte> {
    var n := |s|;
    if n >= 2 && s[n - 1] == EQUALS && s[n - 2] == EQUALS then s[..n - 2]
    else if n >= 1 && s[n - 1] == EQUALS then s[..n - 1]
    else s
  }

  function Base64Decode(s: seq<byte>): Option<seq<byte>> {
    match Read(Reader64(), 64, Unpadded64(s))
    case None => None
    case Some(ds) => if |s| % 4 != 0 then None else Some(Unpack(BASE64, ds))
  }

  lemma {:induction false} HexLength(b: seq<byte>)
    ensures |Pack(HEX, b)| == 2 * |b|
  {
    if |b| > 1 {
      HexLength(b[1..]);
    }
  }

  lemma HexDigits(b: seq<byte>)
    ensures var ds := Pack(HEX, b); Below(ds, 16) && Unpack(HEX, ds) == b && |ds| == 2 * |b|
  {
    PackedDigits(HEX, b);
    HexSound();
    PackBack(HEX, b);
    HexLength(b);
  }

  /** Decoding the text of digits is unpacking them. */
  lemma HexOfDigits(ds: seq<nat>)
    requires Below(ds, 16) && |ds| % 2 == 0
    ensures HexDecode(Lower(ds)) == Some(Unpack(HEX, ds))
  {
    LowerBack(ds, 16);
  }

  lemma HexBack(b: seq<byte>)
    ensures HexDecode(HexText(b)) == Some(b) && (b != [] ==> HexText(b) != [])
  {
    HexDigits(b);
    HexOfDigits(Pack(HEX, b));
  }

  lemma {:induction false} Base64Length(b: seq<byte>)
    ensures |Pack(BASE64, b)| == (4 * |b| + 2) / 3
  {
    if |b| > 3 {
      Base64Length(b[3..]);
    }
  }

  lemma UnpaddedBack(s: seq<byte>)
    requires |s| % 4 != 1 && forall i :: 0 <= i < |s| ==> s[i] != EQUALS
    ensures Unpadded64(Padded64(s)) == s && |Padded64(s)| % 4 == 0
  {
  }

  lemma Base64Digits(b: seq<byte>)
    ensures var ds := Pack(BASE64, b); Below(ds, 64) && Unpack(BASE64, ds) == b && |ds| % 4 != 1 && (b != [] ==> ds != [])
  {
    PackedDigits(BASE64, b);
    Base64Sound();
    PackBack(BASE64, b);
    Base64Length(b);
  }

  lemma Base64OfDigits(ds: seq<nat>)
    requires Below(ds, 64) && |ds| % 4 != 1
    ensures Base64Decode(Padded64(Text64(ds))) == Some(Unpack(BASE64, ds))
  {
    Text64Back(ds);
    UnpaddedBack(Text64(ds));
  }

  lemma Base64Back(b: seq<byte>)
    ensures Base64Decode(Base64Text(b)) == Some(b) && (b != [] ==> Base64Text(b) != [])
  {
    Base64Digits(b);
    Base64OfDigits(Pack(BASE64, b));
  }
}
