/** Bytes, big-endian counts, and the UTF-8 encoding of text. */
module Utf8 {
  import opened Prelude

  type Byte = b: nat | b < 256

  /** A Unicode scalar value. */
  type Scalar = c: nat | c < 0xD800 || 0xE000 <= c < 0x11_0000

  type Text = seq<Scalar>

  function EncodeScalar(c: Scalar): (r: seq<Byte>)
    ensures 1 <= |r| <= 4
  {
    if c < 0x80 then [c]
    else if c < 0x800 then [0xC0 + c / 64, 0x80 + c % 64]
    else if c < 0x1_0000 then [0xE0 + c / 4096, 0x80 + c / 64 % 64, 0x80 + c % 64]
    else [0xF0 + c / 262_144, 0x80 + c / 4096 % 64, 0x80 + c / 64 % 64, 0x80 + c % 64]
  }

  function EncodeText(t: Text): seq<Byte> {
    if t == [] then [] else EncodeScalar(t[0]) + EncodeText(t[1..])
  }

  predicate Continues(b: Byte) {
    0x80 <= b < 0xC0
  }

  /** The payload bits of a byte above its marker. */
  function Bits(b: Byte, marker: Byte): nat
    requires marker <= b
  {
    b - marker
  }

  /** The first scalar and its width; overlong forms, surrogates and stray bytes are refused. */
  function DecodeScalar(b: seq<Byte>): (r: Option<(Scalar, nat)>)
    ensures r.Some? ==> 0 < r.value.1 <= |b|
  {
    if |b| == 0 then None
    else if b[0] < 0x80 then Some((b[0], 1))
    else if 0xC0 <= b[0] < 0xE0 then
      if |b| < 2 || !Continues(b[1]) then None
      else
        var c := Bits(b[0], 0xC0) * 64 + Bits(b[1], 0x80);
        if c < 0x80 then None else Some((c, 2))
    else if 0xE0 <= b[0] < 0xF0 then
      if |b| < 3 || !Continues(b[1]) || !Continues(b[2]) then None
      else
        var c := Bits(b[0], 0xE0) * 4096 + Bits(b[1], 0x80) * 64 + Bits(b[2], 0x80);
        if c < 0x800 || 0xD800 <= c < 0xE000 then None else Some((c, 3))
    else if 0xF0 <= b[0] < 0xF8 then
      if |b| < 4 || !Continues(b[1]) || !Continues(b[2]) || !Continues(b[3]) then None
      else
        var c := Bits(b[0], 0xF0) * 262_144 + Bits(b[1], 0x80) * 4096 + Bits(b[2], 0x80) * 64 + Bits(b[3], 0x80);
        if c < 0x1_0000 || c >= 0x11_0000 then None else Some((c, 4))
    else None
  }

  function DecodeText(b: seq<Byte>): Option<Text>
    decreases |b|
  {
    if b == [] then Some([])
    else
      var first := DecodeScalar(b);
      if first.None? then None
      else
        var rest := DecodeText(b[first.value.1..]);
        if rest.None? then None else Some([first.value.0] + rest.value)
  }

  lemma DecodeEncodedScalar(c: Scalar, rest: seq<Byte>)
    ensures DecodeScalar(EncodeScalar(c) + rest) == Some((c, |EncodeScalar(c)|))
  {
    var b := EncodeScalar(c) + rest;
    if 0x80 <= c < 0x800 {
      assert b[0] == 0xC0 + c / 64 && b[1] == 0x80 + c % 64;
    } else if 0x800 <= c < 0x1_0000 {
      assert c / 4096 == c / 64 / 64;
      assert b[0] == 0xE0 + c / 4096 && b[1] == 0x80 + c / 64 % 64 && b[2] == 0x80 + c % 64;
    } else if 0x1_0000 <= c {
      assert c / 4096 == c / 64 / 64 && c / 262_144 == c / 4096 / 64;
      assert b[0] == 0xF0 + c / 262_144 && b[1] == 0x80 + c / 4096 % 64 && b[2] == 0x80 + c / 64 % 64
             && b[3] == 0x80 + c % 64;
    }
  }

  /** Decoding undoes encoding. */
  lemma {:induction false} DecodeEncodedText(t: Text)
    ensures DecodeText(EncodeText(t)) == Some(t)
  {
    if t != [] {
      var rest := EncodeText(t[1..]);
      DecodeEncodedScalar(t[0], rest);
      var all := EncodeScalar(t[0]) + rest;
      assert EncodeText(t) == all && all[|EncodeScalar(t[0])|..] == rest;
      DecodeEncodedText(t[1..]);
      assert [t[0]] + t[1..] == t;
    }
  }

  // ----- Big-endian counts -----

  function BigEndian16(n: nat): (r: seq<Byte>)
    requires n < 0x1_0000
    ensures |r| == 2
  {
    [n / 256, n % 256]
  }

  function FromBigEndian16(b: seq<Byte>): (n: nat)
    requires |b| >= 2
    ensures n < 0x1_0000
  {
    var high: nat, low: nat := b[0], b[1];
    high * 256 + low
  }

  function BigEndian32(n: nat): (r: seq<Byte>)
    requires n < 0x1_0000_0000
    ensures |r| == 4
  {
    BigEndian16(n / 0x1_0000) + BigEndian16(n % 0x1_0000)
  }

  function FromBigEndian32(b: seq<Byte>): (n: nat)
    requires |b| >= 4
    ensures n < 0x1_0000_0000
  {
    FromBigEndian16(b) * 0x1_0000 + FromBigEndian16(b[2..])
  }

  lemma BigEndianRoundTrip(n: nat, rest: seq<Byte>)
    requires n < 0x1_0000_0000
    ensures FromBigEndian32(BigEndian32(n) + rest) == n
    ensures n < 0x1_0000 ==> FromBigEndian16(BigEndian16(n) + rest) == n
  {
    var high, low := n / 0x1_0000, n % 0x1_0000;
    var b := BigEndian32(n) + rest;
    assert b[0] == high / 256 && b[1] == high % 256 && b[2] == low / 256 && b[3] == low % 256;
  }
}
