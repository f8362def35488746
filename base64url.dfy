/** The URL path segments the backend builds from identifiers: the UTF-8
    bytes of the identifier, written in the URL- and filename-safe base64
    alphabet of section 5 of RFC 4648, without the `=` padding (section 3.2
    of RFC 4648 allows a specification to omit it). This is what the
    `base64` crate's `encode_config(id, URL_SAFE_NO_PAD)` produces. */
module Base64Url {
  import opened Json

  type Byte = b: int | 0 <= b < 256

  // -----------------------------------------------------------------------
  // UTF-8
  // -----------------------------------------------------------------------

  /** The UTF-8 encoding of one Unicode scalar value. */
  function Utf8Char(c: char): (bs: seq<Byte>)
    ensures 1 <= |bs| <= 4
  {
    var n := c as int;
    if n < 0x80 then [n]
    else if n < 0x800 then [0xC0 + n / 64, 0x80 + n % 64]
    else if n < 0x10000 then [0xE0 + n / 4096, 0x80 + (n / 64) % 64, 0x80 + n % 64]
    else [0xF0 + n / 0x40000, 0x80 + (n / 4096) % 64, 0x80 + (n / 64) % 64, 0x80 + n % 64]
  }

  function Utf8(s: string): seq<Byte>
  {
    if s == [] then [] else Utf8Char(s[0]) + Utf8(s[1..])
  }

  /** Is `b` a continuation byte (10xxxxxx)? */
  predicate Continuation(b: Byte)
  {
    0x80 <= b < 0xC0
  }

  /** The payload bits of a continuation byte. */
  function Low6(b: Byte): int
  {
    b as int - 0x80
  }

  /** A scalar value that `char` can hold. */
  predicate Scalar(n: int)
  {
    0 <= n < 0xD800 || 0xE000 <= n < 0x110000
  }

  /** Reads one character off the front of `bs`: the character and the
      number of bytes it used. */
  function DecodeCharAt(bs: seq<Byte>): Option<(char, nat)>
    requires |bs| > 0
  {
    var b0: int := bs[0];
    var width := if b0 < 0x80 then 1 else if 0xC0 <= b0 < 0xE0 then 2
                 else if 0xE0 <= b0 < 0xF0 then 3 else if 0xF0 <= b0 < 0xF8 then 4 else 0;
    if width == 0 || |bs| < width then None
    else if exists k :: 1 <= k < width && !Continuation(bs[k]) then None
    else
      var n :=
        if width == 1 then b0
        else if width == 2 then (b0 - 0xC0) * 64 + Low6(bs[1])
        else if width == 3 then (b0 - 0xE0) * 4096 + Low6(bs[1]) * 64 + Low6(bs[2])
        else (b0 - 0xF0) * 0x40000 + Low6(bs[1]) * 4096 + Low6(bs[2]) * 64 + Low6(bs[3]);
      if Scalar(n) then Some((n as char, width)) else None
  }

  /** Reads a byte string back as UTF-8 text, if it is. */
  function Utf8Decode(bs: seq<Byte>): Option<string>
    decreases |bs|
  {
    if bs == [] then Some([])
    else
      match DecodeCharAt(bs)
      case None => None
      case Some((c, w)) =>
        if w == 0 then None
        else
          match Utf8Decode(bs[w..])
          case None => None
          case Some(rest) => Some([c] + rest)
  }

  lemma DecodeUtf8Char(c: char, rest: seq<Byte>)
    ensures DecodeCharAt(Utf8Char(c) + rest) == Some((c, |Utf8Char(c)|))
  {
    var n := c as int;
    if n < 0x80 {
    } else if n < 0x800 {
      DecodeTwo(c, rest);
    } else if n < 0x10000 {
      DecodeThree(c, rest);
    } else {
      DecodeFour(c, rest);
    }
  }

  lemma DecodeTwo(c: char, rest: seq<Byte>)
    requires 0x80 <= c as int < 0x800
    ensures DecodeCharAt(Utf8Char(c) + rest) == Some((c, 2))
  {
    var n := c as int;
    assert n == (n / 64) * 64 + n % 64;
  }

  lemma DecodeThree(c: char, rest: seq<Byte>)
    requires 0x800 <= c as int < 0x10000
    ensures DecodeCharAt(Utf8Char(c) + rest) == Some((c, 3))
  {
    var n := c as int;
    assert Scalar(n);
    assert n / 64 == (n / 4096) * 64 + (n / 64) % 64;
    assert n == (n / 64) * 64 + n % 64;
  }

  lemma DecodeFour(c: char, rest: seq<Byte>)
    requires 0x10000 <= c as int
    ensures DecodeCharAt(Utf8Char(c) + rest) == Some((c, 4))
  {
    var n := c as int;
    assert Scalar(n);
    assert n / 4096 == (n / 0x40000) * 64 + (n / 4096) % 64;
    assert n / 64 == (n / 4096) * 64 + (n / 64) % 64;
    assert n == (n / 64) * 64 + n % 64;
  }

  /** Decoding the UTF-8 of a string gives the string back, so two different
      identifiers never share their bytes. */
  lemma {:induction false} Utf8RoundTrip(s: string)
    ensures Utf8Decode(Utf8(s)) == Some(s)
  {
    if s != [] {
      var head := Utf8Char(s[0]);
      var bs := Utf8(s);
      assert bs == head + Utf8(s[1..]);
      DecodeUtf8Char(s[0], Utf8(s[1..]));
      Utf8RoundTrip(s[1..]);
      assert bs[|head|..] == Utf8(s[1..]);
      assert DecodeCharAt(bs) == Some((s[0], |head| as nat));
      assert [s[0]] + s[1..] == s;
    }
  }

  // -----------------------------------------------------------------------
  // base64url without padding
  // -----------------------------------------------------------------------

  /** The characters of the alphabet of section 5 of RFC 4648. */
  predicate UrlSafe(c: char)
  {
    'A' <= c <= 'Z' || 'a' <= c <= 'z' || '0' <= c <= '9' || c == '-' || c == '_'
  }

  /** Digit `d` of the alphabet "A-Z a-z 0-9 - _". */
  function Sextet(d: nat): (c: char)
    requires d < 64
    ensures UrlSafe(c)
  {
    if d < 26 then ('A' as int + d) as char
    else if d < 52 then ('a' as int + d - 26) as char
    else if d < 62 then ('0' as int + d - 52) as char
    else if d == 62 then '-'
    else '_'
  }

  /** The position of a character in the alphabet, if it is in it. */
  function SextetValue(c: char): (r: Option<nat>)
    ensures r.Some? ==> r.value < 64 && Sextet(r.value) == c
  {
    if 'A' <= c <= 'Z' then Some(c as int - 'A' as int)
    else if 'a' <= c <= 'z' then Some(c as int - 'a' as int + 26)
    else if '0' <= c <= '9' then Some(c as int - '0' as int + 52)
    else if c == '-' then Some(62)
    else if c == '_' then Some(63)
    else None
  }

  lemma SextetValueOf(d: nat)
    requires d < 64
    ensures SextetValue(Sextet(d)) == Some(d)
  {
  }

  /** Three bytes as four characters; a final group of one or two bytes as
      two or three characters, with no padding. */
  function Encode(bs: seq<Byte>): (s: string)
    ensures |s| == (4 * |bs| + 2) / 3
  {
    if |bs| == 0 then ""
    else if |bs| == 1 then [Sextet(bs[0] / 4), Sextet((bs[0] % 4) * 16)]
    else if |bs| == 2 then
      [Sextet(bs[0] / 4), Sextet((bs[0] % 4) * 16 + bs[1] / 16), Sextet((bs[1] % 16) * 4)]
    else
      [Sextet(bs[0] / 4), Sextet((bs[0] % 4) * 16 + bs[1] / 16),
       Sextet((bs[1] % 16) * 4 + bs[2] / 64), Sextet(bs[2] % 64)] + Encode(bs[3..])
  }

  /** Reads four (or, at the end, two or three) characters back into bytes. */
  function Decode(s: string): Option<seq<Byte>>
  {
    if |s| == 0 then Some([])
    else if |s| == 1 then None
    else
      var n := if |s| < 4 then |s| else 4;
      if exists k :: 0 <= k < n && SextetValue(s[k]).None? then None
      else
        var d0 := SextetValue(s[0]).value;
        var d1 := SextetValue(s[1]).value;
        var b0 := d0 * 4 + d1 / 16;
        if n == 2 then Some([b0])
        else
          var d2 := SextetValue(s[2]).value;
          var b1 := (d1 % 16) * 16 + d2 / 4;
          if n == 3 then Some([b0, b1])
          else
            var d3 := SextetValue(s[3]).value;
            var b2 := (d2 % 4) * 64 + d3;
            match Decode(s[4..])
            case None => None
            case Some(rest) => Some([b0, b1, b2] + rest)
  }

  /** The sextets of a group give back its bytes. */
  lemma SextetArithmetic(b0: Byte, b1: Byte, b2: Byte)
    ensures (b0 / 4) * 4 + ((b0 % 4) * 16 + b1 / 16) / 16 == b0
    ensures (((b0 % 4) * 16 + b1 / 16) % 16) * 16 + ((b1 % 16) * 4 + b2 / 64) / 4 == b1
    ensures (((b1 % 16) * 4 + b2 / 64) % 4) * 64 + b2 % 64 == b2
  {
  }

  lemma RoundTripOne(b0: Byte)
    ensures Decode(Encode([b0])) == Some([b0])
  {
    SextetValueOf(b0 / 4);
    SextetValueOf((b0 % 4) * 16);
  }

  lemma RoundTripTwo(b0: Byte, b1: Byte)
    ensures Decode(Encode([b0, b1])) == Some([b0, b1])
  {
    var d1 := (b0 % 4) * 16 + b1 / 16;
    var d2 := (b1 % 16) * 4;
    SextetValueOf(b0 / 4);
    SextetValueOf(d1);
    SextetValueOf(d2);
    SextetArithmetic(b0, b1, 0);
  }

  lemma RoundTripGroup(b0: Byte, b1: Byte, b2: Byte, rest: seq<Byte>)
    requires Decode(Encode(rest)) == Some(rest)
    ensures Decode(Encode([b0, b1, b2] + rest)) == Some([b0, b1, b2] + rest)
  {
    EncodeGroup(b0, b1, b2, rest);
    GroupDecodes(b0, b1, b2, Encode(rest));
  }

  lemma EncodeGroup(b0: Byte, b1: Byte, b2: Byte, rest: seq<Byte>)
    ensures Encode([b0, b1, b2] + rest)
         == [Sextet(b0 / 4), Sextet((b0 % 4) * 16 + b1 / 16), Sextet((b1 % 16) * 4 + b2 / 64), Sextet(b2 % 64)]
            + Encode(rest)
  {
    var bs := [b0, b1, b2] + rest;
    assert bs[3..] == rest;
    assert bs[0] == b0 && bs[1] == b1 && bs[2] == b2;
  }

  /** The four characters of a group decode to its three bytes. */
  lemma GroupDecodes(b0: Byte, b1: Byte, b2: Byte, t: string)
    ensures var s := [Sextet(b0 / 4), Sextet((b0 % 4) * 16 + b1 / 16), Sextet((b1 % 16) * 4 + b2 / 64), Sextet(b2 % 64)] + t;
      Decode(s) == match Decode(t)
        case None => None
        case Some(rest) => Some([b0, b1, b2] + rest)
  {
    var d0, d1, d2, d3 := b0 / 4, (b0 % 4) * 16 + b1 / 16, (b1 % 16) * 4 + b2 / 64, b2 % 64;
    var s := [Sextet(d0), Sextet(d1), Sextet(d2), Sextet(d3)] + t;
    SextetValueOf(d0);
    SextetValueOf(d1);
    SextetValueOf(d2);
    SextetValueOf(d3);
    DecodeGroup(s, d0, d1, d2, d3);
    assert s[4..] == t;
    SextetArithmetic(b0, b1, b2);
  }

  /** Four characters of the alphabet and what follows them decode to three
      bytes followed by the decoding of the rest. */
  lemma DecodeGroup(s: string, d0: nat, d1: nat, d2: nat, d3: nat)
    requires |s| >= 4
    requires SextetValue(s[0]) == Some(d0) && SextetValue(s[1]) == Some(d1)
    requires SextetValue(s[2]) == Some(d2) && SextetValue(s[3]) == Some(d3)
    ensures Decode(s) == match Decode(s[4..])
      case None => None
      case Some(rest) => Some([d0 * 4 + d1 / 16, (d1 % 16) * 16 + d2 / 4, (d2 % 4) * 64 + d3] + rest)
  {
    assert !exists k :: 0 <= k < 4 && SextetValue(s[k]).None?;
  }

  /** Decoding an encoding gives the bytes back. */
  lemma {:induction false} EncodeRoundTrip(bs: seq<Byte>)
    ensures Decode(Encode(bs)) == Some(bs)
  {
    if |bs| == 1 {
      assert bs == [bs[0]];
      RoundTripOne(bs[0]);
    } else if |bs| == 2 {
      assert bs == [bs[0], bs[1]];
      RoundTripTwo(bs[0], bs[1]);
    } else if |bs| >= 3 {
      EncodeRoundTrip(bs[3..]);
      assert bs == [bs[0], bs[1], bs[2]] + bs[3..];
      RoundTripGroup(bs[0], bs[1], bs[2], bs[3..]);
    }
  }

  /** The characters of an encoding are letters, digits, `-` and `_` only, so
      the segment needs no percent-encoding and never contains `/`, `+` or `=`. */
  lemma {:induction false} EncodeUrlSafe(bs: seq<Byte>)
    ensures forall i :: 0 <= i < |Encode(bs)| ==> UrlSafe(Encode(bs)[i])
  {
    if |bs| >= 3 {
      EncodeUrlSafe(bs[3..]);
      var s := Encode(bs);
      assert s[4..] == Encode(bs[3..]);
    }
  }

  /** The path segment for an identifier. */
  function Segment(id: string): string
  {
    Encode(Utf8(id))
  }

  /** Different identifiers give different segments. */
  lemma SegmentInjective(a: string, b: string)
    requires Segment(a) == Segment(b)
    ensures a == b
  {
    EncodeRoundTrip(Utf8(a));
    EncodeRoundTrip(Utf8(b));
    Utf8RoundTrip(a);
    Utf8RoundTrip(b);
  }

  /** An identifier in ASCII is its own UTF-8, one byte per character. */
  lemma {:induction false} Utf8Ascii(s: string)
    requires forall i :: 0 <= i < |s| ==> s[i] as int < 0x80
    ensures |Utf8(s)| == |s| && forall i :: 0 <= i < |s| ==> Utf8(s)[i] == s[i] as int
  {
    if s != [] {
      Utf8Ascii(s[1..]);
      assert Utf8(s) == [s[0] as int] + Utf8(s[1..]);
    }
  }
}
