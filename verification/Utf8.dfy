/** Strict UTF-8 (section 3 of RFC 3629), as `str.encode()` and `bytes.decode()` apply it. */
module Utf8 {
  import opened BigEndian

  /** One element of a Python string: any code point, lone surrogates included. */
  type CodePoint = c: int | 0 <= c <= 0x10FFFF

  datatype Encoded = Bytes(bytes: seq<byte>) | Unencodable
  datatype Decoded = Text(text: seq<CodePoint>) | Malformed
  datatype First = First(point: CodePoint, length: nat) | NoFirst

  predicate IsScalar(c: CodePoint) {
    !(0xD800 <= c <= 0xDFFF)
  }

  function EncodePoint(c: CodePoint): (s: seq<byte>)
    ensures 1 <= |s| <= 4
  {
    if c < 0x80 then [c]
    else if c < 0x800 then [0xC0 + c / 64, 0x80 + c % 64]
    else if c < 0x1_0000 then [0xE0 + c / 4096, 0x80 + c / 64 % 64, 0x80 + c % 64]
    else [0xF0 + c / 262144, 0x80 + c / 4096 % 64, 0x80 + c / 64 % 64, 0x80 + c % 64]
  }

  /** `str.encode()`: fails on a lone surrogate. */
  function Encode(text: seq<CodePoint>): (r: Encoded)
  {
    if text == [] then Bytes([])
    else if !IsScalar(text[0]) then Unencodable
    else
      match Encode(text[1..])
      case Unencodable => Unencodable
      case Bytes(rest) => Bytes(EncodePoint(text[0]) + rest)
  }

  predicate Continuation(b: byte) {
    0x80 <= b <= 0xBF
  }

  /** The payload bits of a byte whose marker bits are `base`. */
  function Payload(b: byte, base: int): (bits: int)
  {
    b - base
  }

  /** The well-formed byte sequence at the front of `s`, by the table of RFC 3629 section 4. */
  function DecodeFirst(s: seq<byte>): (r: First)
    ensures r.First? ==> 1 <= r.length <= |s|
  {
    if s == [] then NoFirst
    else if s[0] < 0x80 then First(s[0], 1)
    else if 0xC2 <= s[0] <= 0xDF then
      if |s| >= 2 && Continuation(s[1]) then First(Payload(s[0], 0xC0) * 64 + Payload(s[1], 0x80), 2) else NoFirst
    else if 0xE0 <= s[0] <= 0xEF then
      if |s| >= 3 && Continuation(s[1]) && Continuation(s[2])
         && (s[0] == 0xE0 ==> s[1] >= 0xA0) && (s[0] == 0xED ==> s[1] <= 0x9F)
      then First(Payload(s[0], 0xE0) * 4096 + Payload(s[1], 0x80) * 64 + Payload(s[2], 0x80), 3)
      else NoFirst
    else if 0xF0 <= s[0] <= 0xF4 then
      if |s| >= 4 && Continuation(s[1]) && Continuation(s[2]) && Continuation(s[3])
         && (s[0] == 0xF0 ==> s[1] >= 0x90) && (s[0] == 0xF4 ==> s[1] <= 0x8F)
      then First(Payload(s[0], 0xF0) * 262144 + Payload(s[1], 0x80) * 4096 + Payload(s[2], 0x80) * 64
           + Payload(s[3], 0x80), 4)
      else NoFirst
    else NoFirst
  }

  /** `bytes.decode()`. */
  function Decode(s: seq<byte>): (r: Decoded)
  {
    if s == [] then Text([])
    else
      match DecodeFirst(s)
      case NoFirst => Malformed
      case First(point, length) =>
        match Decode(s[length..])
        case Malformed => Malformed
        case Text(rest) => Text([point] + rest)
  }

  lemma TwoByteFirst(c: CodePoint, s: seq<byte>)
    requires 0x80 <= c < 0x800 && |s| >= 2 && s[0] == 0xC0 + c / 64 && s[1] == 0x80 + c % 64
    ensures DecodeFirst(s) == First(c, 2)
  {
  }

  lemma ThreeByteFirst(c: CodePoint, s: seq<byte>)
    requires 0x800 <= c < 0x1_0000 && IsScalar(c) && |s| >= 3
    requires s[0] == 0xE0 + c / 4096 && s[1] == 0x80 + c / 64 % 64 && s[2] == 0x80 + c % 64
    ensures DecodeFirst(s) == First(c, 3)
  {
    assert c / 64 / 64 == c / 4096;
  }

  lemma FourByteFirst(c: CodePoint, s: seq<byte>)
    requires 0x1_0000 <= c && |s| >= 4 && s[0] == 0xF0 + c / 262144 && s[1] == 0x80 + c / 4096 % 64
    requires s[2] == 0x80 + c / 64 % 64 && s[3] == 0x80 + c % 64
    ensures DecodeFirst(s) == First(c, 4)
  {
    assert c / 64 / 64 == c / 4096 && c / 4096 / 64 == c / 262144;
  }

  lemma DecodeFirstOfPoint(c: CodePoint, rest: seq<byte>)
    requires IsScalar(c)
    ensures DecodeFirst(EncodePoint(c) + rest) == First(c, |EncodePoint(c)|)
  {
    var s := EncodePoint(c) + rest;
    if c < 0x80 {
      assert s[0] == c;
    } else if c < 0x800 {
      TwoByteFirst(c, s);
    } else if c < 0x1_0000 {
      ThreeByteFirst(c, s);
    } else {
      FourByteFirst(c, s);
    }
  }

  /** A number in base 64 has its last digit and the rest. */
  lemma Base64(rest: nat, digit: nat)
    requires digit < 64
    ensures (rest * 64 + digit) / 64 == rest && (rest * 64 + digit) % 64 == digit
  {
  }

  lemma TwoBytes(s: seq<byte>)
    requires |s| >= 2 && 0xC2 <= s[0] <= 0xDF && Continuation(s[1])
    ensures var f := DecodeFirst(s); f.First? && IsScalar(f.point) && s[..f.length] == EncodePoint(f.point)
  {
    Base64(Payload(s[0], 0xC0), Payload(s[1], 0x80));
    assert EncodePoint(DecodeFirst(s).point) == [s[0], s[1]];
  }

  lemma ThreeBytes(s: seq<byte>)
    requires DecodeFirst(s).First? && 0xE0 <= s[0] <= 0xEF
    ensures var f := DecodeFirst(s); IsScalar(f.point) && s[..f.length] == EncodePoint(f.point)
  {
    var hi := Payload(s[0], 0xE0) * 64 + Payload(s[1], 0x80);
    var c := DecodeFirst(s).point;
    assert c == hi * 64 + Payload(s[2], 0x80);
    Base64(Payload(s[0], 0xE0), Payload(s[1], 0x80));
    Base64(hi, Payload(s[2], 0x80));
    assert c / 4096 == c / 64 / 64;
    assert EncodePoint(c) == [s[0], s[1], s[2]];
  }

  lemma FourBytes(s: seq<byte>)
    requires DecodeFirst(s).First? && 0xF0 <= s[0]
    ensures var f := DecodeFirst(s); IsScalar(f.point) && s[..f.length] == EncodePoint(f.point)
  {
    var top := Payload(s[0], 0xF0) * 64 + Payload(s[1], 0x80);
    var hi := top * 64 + Payload(s[2], 0x80);
    var c := DecodeFirst(s).point;
    assert c == hi * 64 + Payload(s[3], 0x80);
    Base64(Payload(s[0], 0xF0), Payload(s[1], 0x80));
    Base64(top, Payload(s[2], 0x80));
    Base64(hi, Payload(s[3], 0x80));
    assert c / 4096 == c / 64 / 64 && c / 262144 == c / 4096 / 64;
    assert EncodePoint(c) == [s[0], s[1], s[2], s[3]];
  }

  lemma PointOfDecodeFirst(s: seq<byte>)
    requires DecodeFirst(s).First?
    ensures var f := DecodeFirst(s); IsScalar(f.point) && s[..f.length] == EncodePoint(f.point)
  {
    if s[0] < 0x80 {
    } else if s[0] <= 0xDF {
      TwoBytes(s);
    } else if s[0] <= 0xEF {
      ThreeBytes(s);
    } else {
      FourBytes(s);
    }
  }

  /** Every encodable text decodes to itself. */
  lemma {:induction false} EncodeThenDecode(text: seq<CodePoint>)
    requires Encode(text).Bytes?
    ensures Decode(Encode(text).bytes) == Text(text)
  {
    if text != [] {
      var head := EncodePoint(text[0]);
      var rest := Encode(text[1..]).bytes;
      EncodeThenDecode(text[1..]);
      DecodeFirstOfPoint(text[0], rest);
      assert (head + rest)[|head|..] == rest;
      assert text == [text[0]] + text[1..];
    }
  }

  lemma EncodeCons(c: CodePoint, rest: seq<CodePoint>, bytes: seq<byte>)
    requires IsScalar(c) && Encode(rest) == Bytes(bytes)
    ensures Encode([c] + rest) == Bytes(EncodePoint(c) + bytes)
  {
    assert ([c] + rest)[1..] == rest;
  }

  lemma SplitFirst(s: seq<byte>) returns (point: CodePoint, text: seq<CodePoint>, rest: seq<byte>)
    requires Decode(s).Text? && s != []
    ensures s == EncodePoint(point) + rest && IsScalar(point)
    ensures Decode(rest) == Text(text) && Decode(s).text == [point] + text && |rest| < |s|
  {
    var f := DecodeFirst(s);
    PointOfDecodeFirst(s);
    point, rest := f.point, s[f.length..];
    text := Decode(rest).text;
  }

  /** Every accepted byte string is the encoding of what it decodes to, so no text has two encodings. */
  lemma {:induction false} DecodeThenEncode(s: seq<byte>)
    requires Decode(s).Text?
    ensures Encode(Decode(s).text) == Bytes(s)
    decreases |s|
  {
    if s != [] {
      var point, text, rest := SplitFirst(s);
      DecodeThenEncode(rest);
      EncodeCons(point, text, rest);
    }
  }
}
