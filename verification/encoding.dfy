/**
 * The byte encodings the extract-service clients put into URLs: UTF-8 (how a
 * Go string becomes `[]byte`), lowercase hexadecimal (`hex.EncodeToString`,
 * `fmt.Sprintf("%x", ...)`) and the URL-safe base64 alphabet of section 5 of
 * RFC 4648, with padding (`base64.URLEncoding`) and without
 * (`base64.RawURLEncoding`, `URLEncoding.WithPadding(NoPadding)`).
 */
module Encoding {
  import opened GoText

  type byte = b: int | 0 <= b < 256
  type sextet = s: int | 0 <= s < 64

  /** An SHA-1 digest is 20 bytes long. */
  type Sha1Digest = d: seq<byte> | |d| == 20 witness seq(20, _ => 0)

  /**
   * HMAC (RFC 2104) over SHA-1, keyed by the first argument: the digest
   * computation itself is not modelled, only the length of what it yields.
   */
  type HmacSha1 = (seq<byte>, seq<byte>) -> Sha1Digest

  // ---------------------------------------------------------------------------
  // UTF-8 (RFC 3629)
  // ---------------------------------------------------------------------------

  /** The UTF-8 encoding of one Unicode scalar value. */
  function Utf8Char(c: char): (r: seq<byte>)
    ensures 1 <= |r| <= 4
    ensures (c as int) < 0x80 <==> |r| == 1
    ensures (c as int) < 0x80 ==> r[0] == c as int
  {
    var n := c as int;
    if n < 0x80 then [n]
    else if n < 0x800 then [0xC0 + n / 64, 0x80 + n % 64]
    else if n < 0x1_0000 then [0xE0 + n / 4096, 0x80 + (n / 64) % 64, 0x80 + n % 64]
    else [0xF0 + n / 262144, 0x80 + (n / 4096) % 64, 0x80 + (n / 64) % 64, 0x80 + n % 64]
  }

  /** `[]byte(s)`: the UTF-8 bytes of a string, character by character. */
  function Utf8(s: string): (r: seq<byte>)
    ensures |r| >= |s|
  {
    if |s| == 0 then [] else Utf8Char(s[0]) + Utf8(s[1..])
  }

  // ---------------------------------------------------------------------------
  // Lowercase hexadecimal
  // ---------------------------------------------------------------------------

  const HexDigits: string := "0123456789abcdef"

  predicate IsLowerHex(c: char)
  {
    ('0' <= c <= '9') || ('a' <= c <= 'f')
  }

  /** The value of a lowercase hexadecimal digit. */
  function HexValue(c: char): Option<nat>
  {
    if '0' <= c <= '9' then Some((c as int) - ('0' as int))
    else if 'a' <= c <= 'f' then Some((c as int) - ('a' as int) + 10)
    else None
  }

  /** `hex.EncodeToString`: two lowercase digits per byte, high nibble first. */
  function Hex(bs: seq<byte>): (r: string)
    ensures |r| == 2 * |bs|
    ensures forall i :: 0 <= i < |r| ==> IsLowerHex(r[i])
  {
    if |bs| == 0 then ""
    else [HexDigits[bs[0] / 16], HexDigits[bs[0] % 16]] + Hex(bs[1..])
  }

  /** `hex.DecodeString` restricted to lowercase digits. */
  function HexDecode(s: string): Option<seq<byte>>
  {
    if |s| == 0 then Some([])
    else if |s| == 1 then None
    else match (HexValue(s[0]), HexValue(s[1]), HexDecode(s[2..]))
      case (Some(hi), Some(lo), Some(rest)) =>
        if hi < 16 && lo < 16 then Some([hi * 16 + lo] + rest) else None
      case _ => None
  }

  lemma HexDigitValue(d: nat)
    requires d < 16
    ensures HexValue(HexDigits[d]) == Some(d)
  {
  }

  /** Hexadecimal rendering loses nothing: decoding it gives the bytes back. */
  lemma {:induction false} HexRoundTrip(bs: seq<byte>)
    ensures HexDecode(Hex(bs)) == Some(bs)
  {
    if |bs| > 0 {
      HexRoundTrip(bs[1..]);
      var s := Hex(bs);
      HexDigitValue(bs[0] / 16);
      HexDigitValue(bs[0] % 16);
      assert s[2..] == Hex(bs[1..]);
      assert bs == [bs[0] / 16 * 16 + bs[0] % 16] + bs[1..];
    }
  }

  // ---------------------------------------------------------------------------
  // URL-safe base64 (section 5 of RFC 4648)
  // ---------------------------------------------------------------------------

  /** The URL-safe alphabet: A-Z, a-z, 0-9, then '-' and '_' in place of '+' and '/'. */
  function UrlAlphabet(i: sextet): (c: char)
    ensures IsUrlSafe(c)
  {
    if i < 26 then (('A' as int) + i) as char
    else if i < 52 then (('a' as int) + i - 26) as char
    else if i < 62 then (('0' as int) + i - 52) as char
    else if i == 62 then '-'
    else '_'
  }

  predicate IsUrlSafe(c: char)
  {
    ('A' <= c <= 'Z') || ('a' <= c <= 'z') || ('0' <= c <= '9') || c == '-' || c == '_'
  }

  /** The alphabet position of a character, if it belongs to the URL-safe alphabet. */
  function UrlIndex(c: char): Option<sextet>
  {
    if 'A' <= c <= 'Z' then Some((c as int) - ('A' as int))
    else if 'a' <= c <= 'z' then Some((c as int) - ('a' as int) + 26)
    else if '0' <= c <= '9' then Some((c as int) - ('0' as int) + 52)
    else if c == '-' then Some(62)
    else if c == '_' then Some(63)
    else None
  }

  lemma UrlIndexOfAlphabet(i: sextet)
    ensures UrlIndex(UrlAlphabet(i)) == Some(i)
  {
  }

  /** Three bytes become four characters. */
  function Quad(b0: byte, b1: byte, b2: byte): string
  {
    [UrlAlphabet(b0 / 4), UrlAlphabet((b0 % 4) * 16 + b1 / 16),
     UrlAlphabet((b1 % 16) * 4 + b2 / 64), UrlAlphabet(b2 % 64)]
  }

  /** The last group of two bytes becomes three characters (before padding). */
  function Triple(b0: byte, b1: byte): string
  {
    [UrlAlphabet(b0 / 4), UrlAlphabet((b0 % 4) * 16 + b1 / 16), UrlAlphabet((b1 % 16) * 4)]
  }

  /** The last single byte becomes two characters (before padding). */
  function Pair(b0: byte): string
  {
    [UrlAlphabet(b0 / 4), UrlAlphabet((b0 % 4) * 16)]
  }

  /**
   * `base64.RawURLEncoding.EncodeToString`: the URL-safe alphabet without
   * padding, so every character is a letter, a digit, '-' or '_', and none is '='.
   */
  function EncodeRaw(bs: seq<byte>): (r: string)
    ensures |r| == (4 * |bs| + 2) / 3
    ensures forall i :: 0 <= i < |r| ==> IsUrlSafe(r[i])
  {
    if |bs| == 0 then ""
    else if |bs| == 1 then Pair(bs[0])
    else if |bs| == 2 then Triple(bs[0], bs[1])
    else Quad(bs[0], bs[1], bs[2]) + EncodeRaw(bs[3..])
  }

  /** The `=` characters that pad the final group to four characters. */
  function Padding(n: nat): string
  {
    if n % 3 == 1 then "==" else if n % 3 == 2 then "=" else ""
  }

  /** `base64.URLEncoding.EncodeToString`: the same characters, padded to a multiple of four. */
  function EncodePadded(bs: seq<byte>): (r: string)
    ensures |r| % 4 == 0 && |r| == 4 * ((|bs| + 2) / 3)
    ensures EncodeRaw(bs) <= r
  {
    PaddedLength(|bs|);
    var raw := EncodeRaw(bs);
    var r := raw + Padding(|bs|);
    assert r[..|raw|] == raw;
    r
  }

  lemma PaddedLength(n: nat)
    ensures (4 * n + 2) / 3 + |Padding(n)| == 4 * ((n + 2) / 3)
  {
    var q := n / 3;
    assert n == 3 * q + n % 3;
    if n % 3 == 0 {
      assert (4 * n + 2) / 3 == 4 * q;
      assert (n + 2) / 3 == q;
    } else if n % 3 == 1 {
      assert (4 * n + 2) / 3 == 4 * q + 2;
      assert (n + 2) / 3 == q + 1;
    } else {
      assert (4 * n + 2) / 3 == 4 * q + 3;
      assert (n + 2) / 3 == q + 1;
    }
  }

  /** The three bytes a four-character group stands for. */
  function UnQuad(i0: sextet, i1: sextet, i2: sextet, i3: sextet): seq<byte>
  {
    [i0 * 4 + i1 / 16, (i1 % 16) * 16 + i2 / 4, (i2 % 4) * 64 + i3]
  }

  /** `base64.RawURLEncoding.DecodeString` (without its check that unused low bits are zero). */
  function DecodeRaw(s: string): Option<seq<byte>>
  {
    if |s| == 0 then Some([])
    else if |s| == 1 then None
    else
      var i0 := UrlIndex(s[0]);
      var i1 := UrlIndex(s[1]);
      var i2 := if |s| >= 3 then UrlIndex(s[2]) else Some(0);
      var i3 := if |s| >= 4 then UrlIndex(s[3]) else Some(0);
      if i0.None? || i1.None? || i2.None? || i3.None? then None
      else
        var group := UnQuad(i0.value, i1.value, i2.value, i3.value);
        if |s| == 2 then Some(group[..1])
        else if |s| == 3 then Some(group[..2])
        else match DecodeRaw(s[4..])
          case None => None
          case Some(rest) => Some(group + rest)
  }

  lemma QuadDecodes(b0: byte, b1: byte, b2: byte)
    ensures UnQuad(b0 / 4, (b0 % 4) * 16 + b1 / 16, (b1 % 16) * 4 + b2 / 64, b2 % 64) == [b0, b1, b2]
  {
  }

  lemma DecodePair(b0: byte)
    ensures DecodeRaw(Pair(b0)) == Some([b0])
  {
    UrlIndexOfAlphabet(b0 / 4);
    UrlIndexOfAlphabet((b0 % 4) * 16);
    QuadDecodes(b0, 0, 0);
    assert UnQuad(b0 / 4, (b0 % 4) * 16, 0, 0)[..1] == [b0];
  }

  lemma DecodeTriple(b0: byte, b1: byte)
    ensures DecodeRaw(Triple(b0, b1)) == Some([b0, b1])
  {
    var s := Triple(b0, b1);
    UrlIndexOfAlphabet(b0 / 4);
    UrlIndexOfAlphabet((b0 % 4) * 16 + b1 / 16);
    UrlIndexOfAlphabet((b1 % 16) * 4);
    QuadDecodes(b0, b1, 0);
    assert UnQuad(b0 / 4, (b0 % 4) * 16 + b1 / 16, (b1 % 16) * 4, 0)[..2] == [b0, b1];
  }

  lemma DecodeQuadThen(b0: byte, b1: byte, b2: byte, rest: string, tail: seq<byte>)
    requires DecodeRaw(rest) == Some(tail)
    ensures DecodeRaw(Quad(b0, b1, b2) + rest) == Some([b0, b1, b2] + tail)
  {
    var s := Quad(b0, b1, b2) + rest;
    UrlIndexOfAlphabet(b0 / 4);
    UrlIndexOfAlphabet((b0 % 4) * 16 + b1 / 16);
    UrlIndexOfAlphabet((b1 % 16) * 4 + b2 / 64);
    UrlIndexOfAlphabet(b2 % 64);
    QuadDecodes(b0, b1, b2);
    assert s[4..] == rest;
  }

  /** Unpadded URL-safe base64 loses nothing: decoding it gives the bytes back. */
  lemma {:induction false} DecodeRawEncodeRaw(bs: seq<byte>)
    ensures DecodeRaw(EncodeRaw(bs)) == Some(bs)
  {
    if |bs| == 1 {
      RoundTripOne(bs);
    } else if |bs| == 2 {
      RoundTripTwo(bs);
    } else if |bs| >= 3 {
      DecodeRawEncodeRaw(bs[3..]);
      RoundTripGroup(bs, bs[3..]);
    }
  }

  lemma RoundTripOne(bs: seq<byte>)
    requires |bs| == 1
    ensures DecodeRaw(EncodeRaw(bs)) == Some(bs)
  {
    DecodePair(bs[0]);
    assert bs == [bs[0]];
  }

  lemma RoundTripTwo(bs: seq<byte>)
    requires |bs| == 2
    ensures DecodeRaw(EncodeRaw(bs)) == Some(bs)
  {
    DecodeTriple(bs[0], bs[1]);
    assert bs == [bs[0], bs[1]];
  }

  lemma RoundTripGroup(bs: seq<byte>, tail: seq<byte>)
    requires |bs| >= 3 && tail == bs[3..] && DecodeRaw(EncodeRaw(tail)) == Some(tail)
    ensures DecodeRaw(EncodeRaw(bs)) == Some(bs)
  {
    assert [bs[0], bs[1], bs[2]] + tail == bs;
    DecodeQuadThen(bs[0], bs[1], bs[2], EncodeRaw(tail), tail);
  }

  /** Padding is the only difference between the two encodings, and it is all '='. */
  lemma PaddedIsRawPlusEquals(bs: seq<byte>)
    ensures var p := EncodePadded(bs)[|EncodeRaw(bs)|..]; |p| <= 2 && forall i :: 0 <= i < |p| ==> p[i] == '='
  {
  }
}
