/** Percent-encoding of anchor names, byte by byte (sections 2.1 and 2.3 of RFC 3986). */
module AnchorEncode {
  import opened Basics

  newtype byte = x: int | 0 <= x < 256

  const PERCENT: byte := 0x25

  /** ALPHA / DIGIT / "-" / "." / "_" / "~" */
  predicate IsUnreserved(c: byte) {
    || 0x61 <= c <= 0x7A || 0x41 <= c <= 0x5A || 0x30 <= c <= 0x39
    || c == 0x2D || c == 0x5F || c == 0x2E || c == 0x7E
  }

  /** An upper-case hexadecimal digit. */
  function HexDigit(d: byte): byte
    requires d < 16
  {
    if d < 10 then 0x30 + d else 0x41 + (d - 10)
  }

  /** What a hexadecimal digit of either case stands for. */
  function HexValue(c: byte): Option<byte> {
    if 0x30 <= c <= 0x39 then Some(c - 0x30)
    else if 0x41 <= c <= 0x46 then Some(c - 0x41 + 10)
    else if 0x61 <= c <= 0x66 then Some(c - 0x61 + 10)
    else None
  }

  function EncodedByte(c: byte): seq<byte> {
    if IsUnreserved(c) then [c] else [PERCENT, HexDigit(c / 16), HexDigit(c % 16)]
  }

  function Encoded(value: seq<byte>): seq<byte> {
    if value == [] then [] else EncodedByte(value[0]) + Encoded(value[1..])
  }

  lemma NothingEncoded()
    ensures Encoded([]) == []
  {
  }

  lemma EncodedFrom(value: seq<byte>, i: nat)
    requires i < |value|
    ensures Encoded(value[i..]) == EncodedByte(value[i]) + Encoded(value[i + 1..])
  {
    hide EncodedByte;
    assert value[i..][1..] == value[i + 1..];
  }

  lemma Associative(a: seq<byte>, b: seq<byte>, c: seq<byte>)
    ensures (a + b) + c == a + (b + c)
  {
  }

  method AnchorEncode(value: seq<byte>) returns (result: seq<byte>)
    ensures result == Encoded(value)
  {
    hide Encoded;
    result := [];
    var i := 0;
    assert value[0..] == value;
    NothingEncoded();
    while i < |value|
      invariant 0 <= i <= |value|
      invariant result + Encoded(value[i..]) == Encoded(value)
    {
      var c := value[i];
      EncodedFrom(value, i);
      Associative(result, EncodedByte(c), Encoded(value[i + 1..]));
      if (0x61 <= c <= 0x7A) || (0x41 <= c <= 0x5A) || (0x30 <= c <= 0x39) || c in [0x2D, 0x5F, 0x2E, 0x7E] {
        result := result + [c];
      } else {
        result := result + [PERCENT, HexDigit(c / 16), HexDigit(c % 16)];
      }
      i := i + 1;
    }
    assert value[i..] == [] && result + [] == result;
  }

  /** Percent-decoding: nothing but a percent sign is special, and two hexadecimal digits follow it. */
  function Decoded(s: seq<byte>): Option<seq<byte>> {
    if s == [] then Some([])
    else if s[0] != PERCENT then Prefixed(s[0], Decoded(s[1..]))
    else if |s| < 3 || HexValue(s[1]).None? || HexValue(s[2]).None? then None
    else Prefixed(16 * HexValue(s[1]).value + HexValue(s[2]).value, Decoded(s[3..]))
  }

  function Prefixed(c: byte, rest: Option<seq<byte>>): Option<seq<byte>> {
    if rest.None? then None else Some([c] + rest.value)
  }

  /** Unreserved characters, and upper-case percent triples of the others. */
  predicate IsNormal(s: seq<byte>) {
    s == [] ||
    if s[0] == PERCENT then
      && |s| >= 3 && HexValue(s[1]).Some? && HexValue(s[2]).Some?
      && s[1] < 0x61 && s[2] < 0x61
      && !IsUnreserved(16 * HexValue(s[1]).value + HexValue(s[2]).value)
      && IsNormal(s[3..])
    else IsUnreserved(s[0]) && IsNormal(s[1..])
  }

  lemma HexRoundTrip(c: byte)
    ensures HexValue(HexDigit(c / 16)) == Some(c / 16) && HexValue(HexDigit(c % 16)) == Some(c % 16)
    ensures HexDigit(c / 16) < 0x61 && HexDigit(c % 16) < 0x61
    ensures 16 * (c / 16) + c % 16 == c
  {
  }

  /** Encoding emits only unreserved characters and %XX, and decoding inverts it, for every byte string. */
  lemma {:induction false} DecodedEncoded(value: seq<byte>)
    ensures IsNormal(Encoded(value))
    ensures Decoded(Encoded(value)) == Some(value)
  {
    if value != [] {
      var c, rest := value[0], Encoded(value[1..]);
      DecodedEncoded(value[1..]);
      HexRoundTrip(c);
      assert Encoded(value)[|EncodedByte(c)|..] == rest;
      assert value == [c] + value[1..];
    }
  }

  lemma DigitBack(c: byte)
    requires HexValue(c).Some? && c < 0x61
    ensures HexValue(c).value < 16 && HexDigit(HexValue(c).value) == c
  {
  }

  /** Every text of that form is the encoding of what it decodes to: names and texts correspond one to one. */
  lemma {:induction false} EncodedDecoded(s: seq<byte>)
    requires IsNormal(s)
    ensures Decoded(s).Some? && Encoded(Decoded(s).value) == s
  {
    if s != [] && s[0] != PERCENT {
      EncodedDecoded(s[1..]);
      assert s == [s[0]] + s[1..];
      assert ([s[0]] + Decoded(s[1..]).value)[1..] == Decoded(s[1..]).value;
    } else if s != [] {
      EncodedDecoded(s[3..]);
      DigitBack(s[1]);
      DigitBack(s[2]);
      var c := 16 * HexValue(s[1]).value + HexValue(s[2]).value;
      assert c / 16 == HexValue(s[1]).value && c % 16 == HexValue(s[2]).value;
      assert s == [s[0], s[1], s[2]] + s[3..];
      assert ([c] + Decoded(s[3..]).value)[1..] == Decoded(s[3..]).value;
    }
  }

  lemma EncodedInjective(a: seq<byte>, b: seq<byte>)
    requires Encoded(a) == Encoded(b)
    ensures a == b
  {
    DecodedEncoded(a);
    DecodedEncoded(b);
  }
}
