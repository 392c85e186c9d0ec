/** PKCS#7 padding to a 16-byte block (section 6.3 of RFC 5652), as
    internal/crypto/record/record.go pads and unpads a record's plaintext. */
module Padding {
  import opened Bytes

  const BLOCK_SIZE: nat := 16

  datatype Unpadded = Plain(data: seq<byte>) | BadPadding

  function PadLength(n: nat): (r: nat)
    ensures 1 <= r <= BLOCK_SIZE && (n + r) % BLOCK_SIZE == 0
  {
    BLOCK_SIZE - n % BLOCK_SIZE
  }

  function Filler(pad: nat): (r: seq<byte>)
    requires pad <= BLOCK_SIZE
    ensures |r| == pad
  {
    seq(pad, i => pad as byte)
  }

  function Pad(b: seq<byte>): (r: seq<byte>)
    ensures |r| == |b| + PadLength(|b|) && |r| % BLOCK_SIZE == 0 && |r| >= BLOCK_SIZE
  {
    b + Filler(PadLength(|b|))
  }

  function Unpad(b: seq<byte>): Unpadded {
    var n := |b|;
    if n == 0 || n % BLOCK_SIZE != 0 then BadPadding
    else
      var pad := b[n - 1] as nat;
      if pad == 0 || pad > BLOCK_SIZE || pad > n then BadPadding
      else if forall i :: n - pad <= i < n ==> b[i] as nat == pad then Plain(b[..n - pad])
      else BadPadding
  }

  /** Unpad accepts exactly the images of Pad, and undoes it. */
  lemma UnpadInvertsPad(b: seq<byte>, x: seq<byte>)
    ensures Unpad(b) == Plain(x) <==> b == Pad(x)
  {
    if b == Pad(x) {
      assert b[..|x|] == x;
    }
    if Unpad(b) == Plain(x) {
      var n := |b|;
      var pad := b[n - 1] as nat;
      assert n == |x| + pad;
      assert PadLength(|x|) == pad;
      assert b[n - pad..] == Filler(pad);
      assert b == x + b[n - pad..];
    }
  }

  method Pkcs7Pad(b: seq<byte>) returns (out: seq<byte>)
    ensures out == Pad(b)
  {
    var pad := BLOCK_SIZE - |b| % BLOCK_SIZE;
    out := b;
    for i := |b| to |b| + pad
      invariant |out| == i && out[..|b|] == b
      invariant forall j :: |b| <= j < i ==> out[j] == pad as byte
    {
      out := out + [pad as byte];
    }
  }

  method Pkcs7Unpad(b: seq<byte>) returns (r: Unpadded)
    ensures r == Unpad(b)
  {
    var n := |b|;
    if n == 0 || n % BLOCK_SIZE != 0 {
      return BadPadding;
    }
    var pad := b[n - 1] as nat;
    if pad == 0 || pad > BLOCK_SIZE || pad > n {
      return BadPadding;
    }
    for i := n - pad to n
      invariant forall j :: n - pad <= j < i ==> b[j] as nat == pad
    {
      if b[i] as nat != pad {
        return BadPadding;
      }
    }
    r := Plain(b[..n - pad]);
  }
}
