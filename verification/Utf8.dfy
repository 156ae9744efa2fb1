/** UTF-8 as RFC 3629 defines it: the bytes a string is hashed from, and those a Secret
    value is decoded from. */
module Utf8 {
  import opened Wrappers

  type byte = n: nat | n < 0x100

  /** The low six bits as a continuation byte. */
  function Tail(n: nat): byte {
    0x80 + n % 0x40
  }

  function EncodeChar(c: char): seq<byte> {
    var n := c as int;
    if n < 0x80 then [n]
    else if n < 0x800 then [0xC0 + n / 0x40, Tail(n)]
    else if n < 0x1_0000 then [0xE0 + n / 0x40 / 0x40, Tail(n / 0x40), Tail(n)]
    else [0xF0 + n / 0x40 / 0x40 / 0x40, Tail(n / 0x40 / 0x40), Tail(n / 0x40), Tail(n)]
  }

  function Encode(s: string): seq<byte> {
    if s == "" then [] else EncodeChar(s[0]) + Encode(s[1..])
  }

  predicate Continues(bytes: seq<byte>, count: nat) {
    count < |bytes| && forall i :: 1 <= i <= count ==> 0x80 <= bytes[i] < 0xC0
  }

  predicate IsScalar(n: int) {
    0 <= n < 0xD800 || 0xE000 <= n < 0x11_0000
  }

  function Append(n: nat, tail: byte): (r: nat)
    requires 0x80 <= tail < 0xC0
    ensures r / 0x40 == n && Tail(r) == tail
  {
    n * 0x40 + (tail as int - 0x80)
  }

  /** The first character and the number of bytes it takes; none if no well-formed
      sequence starts here. */
  function DecodeChar(bytes: seq<byte>): Option<(char, nat)>
    requires bytes != []
  {
    var b: int := bytes[0] as int;
    if b < 0x80 then
      Some((b as char, 1))
    else if 0xC2 <= b < 0xE0 && Continues(bytes, 1) then
      Some((Append(b - 0xC0, bytes[1]) as char, 2))
    else if 0xE0 <= b < 0xF0 && Continues(bytes, 2) then
      var n := Append(Append(b - 0xE0, bytes[1]), bytes[2]);
      if n >= 0x800 && IsScalar(n) then Some((n as char, 3)) else None
    else if 0xF0 <= b < 0xF5 && Continues(bytes, 3) then
      var n := Append(Append(Append(b - 0xF0, bytes[1]), bytes[2]), bytes[3]);
      if n >= 0x1_0000 && IsScalar(n) then Some((n as char, 4)) else None
    else None
  }

  lemma LongCharRoundTrip(c: char, bytes: seq<byte>)
    requires c as int >= 0x1_0000 && |bytes| >= 4 && bytes[..4] == EncodeChar(c)
    ensures DecodeChar(bytes) == Some((c, 4))
  {
  }

  lemma ShortCharRoundTrip(c: char, bytes: seq<byte>)
    requires c as int < 0x1_0000 && |bytes| >= |EncodeChar(c)| && bytes[..|EncodeChar(c)|] == EncodeChar(c)
    ensures DecodeChar(bytes) == Some((c, |EncodeChar(c)|))
  {
  }

  lemma CharRoundTrip(c: char, rest: seq<byte>)
    ensures DecodeChar(EncodeChar(c) + rest) == Some((c, |EncodeChar(c)|))
  {
    var bytes := EncodeChar(c) + rest;
    assert bytes[..|EncodeChar(c)|] == EncodeChar(c);
    if c as int < 0x1_0000 {
      ShortCharRoundTrip(c, bytes);
    } else {
      LongCharRoundTrip(c, bytes);
    }
  }

  lemma CharDecodesExactly(bytes: seq<byte>)
    requires bytes != [] && DecodeChar(bytes).Some?
    ensures var (c, k) := DecodeChar(bytes).value;
      1 <= k <= |bytes| && bytes[..k] == EncodeChar(c)
  {
  }

  /** The string the bytes encode, if they are well-formed. */
  function Decode(bytes: seq<byte>): Option<string>
    decreases |bytes|
  {
    if bytes == [] then Some("")
    else
      var first := DecodeChar(bytes);
      if first.None? then None
      else
        CharDecodesExactly(bytes);
        var rest := Decode(bytes[first.value.1..]);
        if rest.None? then None else Some([first.value.0] + rest.value)
  }

  lemma {:induction false} RoundTrip(s: string)
    ensures Decode(Encode(s)) == Some(s)
  {
    if s != "" {
      var code := EncodeChar(s[0]);
      CharRoundTrip(s[0], Encode(s[1..]));
      assert Encode(s)[|code|..] == Encode(s[1..]);
      RoundTrip(s[1..]);
      assert s == [s[0]] + s[1..];
    }
  }

  /** What decodes is one encoded character and more that decodes. */
  lemma FirstDecoded(bytes: seq<byte>) returns (c: char, tail: seq<byte>)
    requires bytes != [] && Decode(bytes).Some?
    ensures bytes == EncodeChar(c) + tail && |tail| < |bytes|
    ensures Decode(tail).Some? && Decode(bytes).value == [c] + Decode(tail).value
  {
    CharDecodesExactly(bytes);
    c, tail := DecodeChar(bytes).value.0, bytes[DecodeChar(bytes).value.1..];
  }

  lemma EncodePrepend(c: char, s: string)
    ensures Encode([c] + s) == EncodeChar(c) + Encode(s)
  {
    assert ([c] + s)[1..] == s;
  }

  lemma {:induction false} DecodedIsEncoding(bytes: seq<byte>)
    requires Decode(bytes).Some?
    ensures bytes == Encode(Decode(bytes).value)
    decreases |bytes|
  {
    if bytes != [] {
      var c, tail := FirstDecoded(bytes);
      DecodedIsEncoding(tail);
      EncodePrepend(c, Decode(tail).value);
    }
  }

  /** Decoding inverts encoding, and accepts nothing else. */
  lemma DecodeExact(bytes: seq<byte>, s: string)
    ensures Decode(bytes) == Some(s) <==> bytes == Encode(s)
  {
    RoundTrip(s);
    if Decode(bytes) == Some(s) {
      DecodedIsEncoding(bytes);
    }
  }

  /** The byte 0xFF never occurs. */
  lemma {:induction false} NeverFF(s: string)
    ensures 0xFF !in Encode(s)
  {
    if s != "" {
      NeverFF(s[1..]);
    }
  }
}
