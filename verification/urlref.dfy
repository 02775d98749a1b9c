/**
 * How Go's `net/url` turns a base URL and a reference into the text of a
 * request URL: reference resolution (section 5.2 of RFC 3986, as
 * `ResolveReference` and `Parse` on a base do it) and `String`, which
 * writes the path through `escape(path, encodePath)`.
 */
module UrlRef {
  import opened GoText
  import opened Encoding

  /** A parsed absolute URL: scheme and host (`https://host`), and its unescaped path. */
  datatype AbsUrl = AbsUrl(origin: string, path: string)

  /** The base every Feedbin client starts from: `https://api.feedbin.com/v2/`. */
  const FeedbinBase: AbsUrl := AbsUrl("https://api.feedbin.com", "/v2/")

  /** `String()` of a base whose path needs no escaping. */
  function Text(u: AbsUrl): string
  {
    u.origin + u.path
  }

  lemma FeedbinBaseText()
    ensures Text(FeedbinBase) == "https://api.feedbin.com/v2/"
    ensures IsDirPath(FeedbinBase.path) && Plain(FeedbinBase.path)
  {
  }

  /** A path that starts and ends with '/', as the path of a base URL for relative references does. */
  predicate IsDirPath(p: string)
  {
    |p| > 0 && p[0] == '/' && p[|p| - 1] == '/'
  }

  /** A reference whose path is relative: empty, or not starting with '/'. */
  predicate IsRelative(ref: string)
  {
    ref == "" || ref[0] != '/'
  }

  // ---------------------------------------------------------------------------
  // resolvePath
  // ---------------------------------------------------------------------------

  /** Everything of a path up to and including its last '/'. */
  function Dir(p: string): (d: string)
    ensures d <= p
    ensures d == "" || d[|d| - 1] == '/'
    ensures forall i :: |d| <= i < |p| ==> p[i] != '/'
  {
    if |p| == 0 then ""
    else if p[|p| - 1] == '/' then p
    else Dir(p[..|p| - 1])
  }

  /**
   * `resolvePath` for paths without "." or ".." segments: a reference
   * starting with '/' replaces the base path, an empty one keeps it, and any
   * other is appended to the base path's directory; a result that does not
   * start with '/' gets one.
   */
  function MergePath(base: string, ref: string): string
  {
    var full := if ref == "" then base else if ref[0] == '/' then ref else Dir(base) + ref;
    if full == "" || full[0] == '/' then full else "/" + full
  }

  /** A rooted reference path replaces the base path whole. */
  lemma MergeRooted(base: string, ref: string)
    requires |ref| > 0 && ref[0] == '/'
    ensures MergePath(base, ref) == ref
  {
  }

  /** A relative reference path is appended to a directory base path. */
  lemma MergeRelative(base: string, ref: string)
    requires IsDirPath(base) && IsRelative(ref)
    ensures MergePath(base, ref) == base + ref
  {
    assert Dir(base) == base;
    assert ref == "" ==> base + ref == base;
  }

  // ---------------------------------------------------------------------------
  // url.Parse of a reference, then ResolveReference and String
  // ---------------------------------------------------------------------------

  /** The index of the first '?' of a reference, or its length when it has none. */
  function QueryStart(ref: string): (k: nat)
    ensures k <= |ref|
    ensures forall i :: 0 <= i < k ==> ref[i] != '?'
    ensures k < |ref| ==> ref[k] == '?'
  {
    if |ref| == 0 || ref[0] == '?' then 0 else 1 + QueryStart(ref[1..])
  }

  /**
   * The URL text of `base.ResolveReference(ref)` for a reference read by
   * `url.Parse` (also what `base.Parse(ref)` gives): the text before the
   * first '?' is the path and is resolved against the base path; the '?' and
   * the query after it are kept as they are.
   */
  function ResolveParsed(base: AbsUrl, ref: string): string
  {
    var k := QueryStart(ref);
    base.origin + MergePath(base.path, ref[..k]) + ref[k..]
  }

  /** A relative reference lands under a directory base: the base text followed by the reference, query and all. */
  lemma ResolveParsedRelative(base: AbsUrl, ref: string)
    requires IsDirPath(base.path) && IsRelative(ref)
    ensures ResolveParsed(base, ref) == Text(base) + ref
  {
    var k := QueryStart(ref);
    MergeRelative(base.path, ref[..k]);
    assert ref[..k] + ref[k..] == ref;
  }

  /** A rooted reference keeps only the base's scheme and host: the base path is lost. */
  lemma ResolveParsedRooted(base: AbsUrl, ref: string)
    requires |ref| > 0 && ref[0] == '/'
    ensures ResolveParsed(base, ref) == base.origin + ref
  {
    var k := QueryStart(ref);
    MergeRooted(base.path, ref[..k]);
    assert ref[..k] + ref[k..] == ref;
  }

  // ---------------------------------------------------------------------------
  // escape(s, encodePath) and unescape(s, encodePath)
  // ---------------------------------------------------------------------------

  /** `shouldEscape(b, encodePath)`: every byte but letters, digits, `-_.~` and `$&+,/:;=@`. */
  predicate ShouldEscape(b: byte)
  {
    !(('a' as int <= b <= 'z' as int) || ('A' as int <= b <= 'Z' as int) || ('0' as int <= b <= '9' as int)
      || b == '-' as int || b == '_' as int || b == '.' as int || b == '~' as int
      || b == '$' as int || b == '&' as int || b == '+' as int || b == ',' as int
      || b == '/' as int || b == ':' as int || b == ';' as int || b == '=' as int || b == '@' as int)
  }

  /** A character a path keeps as it is. */
  predicate PathSafe(c: char)
  {
    (c as int) < 0x80 && !ShouldEscape(c as int)
  }

  /** A string every character of which a path keeps as it is. */
  predicate Plain(s: string)
  {
    forall i :: 0 <= i < |s| ==> PathSafe(s[i])
  }

  lemma PlainConcat(a: string, b: string)
    requires Plain(a) && Plain(b)
    ensures Plain(a + b)
  {
    assert forall i :: 0 <= i < |a + b| ==> (a + b)[i] == if i < |a| then a[i] else b[i - |a|];
  }

  /** An uppercase hexadecimal digit, as `escape` writes them. */
  function UpperHexDigit(d: nat): (c: char)
    requires d < 16
    ensures c != '?' && c != '%'
  {
    if d < 10 then ('0' as int + d) as char else ('A' as int + d - 10) as char
  }

  /** One byte of a path as `escape` writes it: itself, or '%' and two uppercase hex digits. */
  function EscapeByte(b: byte): (r: string)
    ensures '?' !in r
  {
    if ShouldEscape(b) then ['%', UpperHexDigit(b / 16), UpperHexDigit(b % 16)] else [b as char]
  }

  function EscapeBytes(bs: seq<byte>): (r: string)
    ensures '?' !in r
  {
    if |bs| == 0 then "" else EscapeByte(bs[0]) + EscapeBytes(bs[1..])
  }

  /**
   * `escape(p, encodePath)`: the UTF-8 bytes of the path, character by
   * character, each byte escaped when it must be. A '?' never survives, so
   * nothing in an escaped path can start a query.
   */
  function EscapePath(p: string): (r: string)
    ensures '?' !in r
  {
    if |p| == 0 then "" else EscapeBytes(Utf8Char(p[0])) + EscapePath(p[1..])
  }

  lemma {:induction false} EscapePathConcat(a: string, b: string)
    ensures EscapePath(a + b) == EscapePath(a) + EscapePath(b)
  {
    if |a| > 0 {
      assert (a + b)[1..] == a[1..] + b;
      EscapePathConcat(a[1..], b);
    } else {
      assert a + b == b;
    }
  }

  /** A path made of characters that need no escaping is written as it is. */
  lemma {:induction false} EscapePathPlain(p: string)
    requires Plain(p)
    ensures EscapePath(p) == p
  {
    if |p| > 0 {
      EscapePathPlain(p[1..]);
      var b: byte := p[0] as int;
      assert Utf8Char(p[0]) == [b];
      assert EscapeBytes([b]) == EscapeByte(b) + EscapeBytes([]);
      assert EscapeByte(b) == [p[0]];
      assert [p[0]] + p[1..] == p;
    }
  }

  /** The query mark is written as "%3F". */
  lemma QueryMarkEscaped()
    ensures EscapePath("?") == "%3F"
  {
    assert Utf8Char('?') == [63];
    assert EscapeBytes([63]) == EscapeByte(63) + EscapeBytes([]);
  }

  /** The value of a hexadecimal digit of either case, as `unhex` reads it. */
  function Unhex(c: char): (r: Option<nat>)
    ensures r.Some? ==> r.value < 16
  {
    if '0' <= c <= '9' then Some(c as int - '0' as int)
    else if 'a' <= c <= 'f' then Some(c as int - 'a' as int + 10)
    else if 'A' <= c <= 'F' then Some(c as int - 'A' as int + 10)
    else None
  }

  /**
   * `unescape(s, encodePath)`: "%XX" is the byte XX, a '%' without two hex
   * digits after it is an error, and any other character stands for its own byte.
   */
  function Unescape(s: string): Option<seq<byte>>
  {
    if |s| == 0 then Some([])
    else if s[0] == '%' then
      if |s| < 3 || Unhex(s[1]).None? || Unhex(s[2]).None? then None
      else
        match Unescape(s[3..])
        case None => None
        case Some(rest) => Some([Unhex(s[1]).value * 16 + Unhex(s[2]).value] + rest)
    else if (s[0] as int) < 256 then
      match Unescape(s[1..])
      case None => None
      case Some(rest) => Some([s[0] as int] + rest)
    else None
  }

  lemma UnhexUpper(d: nat)
    requires d < 16
    ensures Unhex(UpperHexDigit(d)) == Some(d)
  {
  }

  lemma UnescapeByte(b: byte, rest: string, tail: seq<byte>)
    requires Unescape(rest) == Some(tail)
    ensures Unescape(EscapeByte(b) + rest) == Some([b] + tail)
  {
    var s := EscapeByte(b) + rest;
    if ShouldEscape(b) {
      UnhexUpper(b / 16);
      UnhexUpper(b % 16);
      assert s[3..] == rest;
    } else {
      assert s[1..] == rest;
    }
  }

  lemma {:induction false} UnescapeEscapeBytes(bs: seq<byte>, rest: string, tail: seq<byte>)
    requires Unescape(rest) == Some(tail)
    ensures Unescape(EscapeBytes(bs) + rest) == Some(bs + tail)
  {
    if |bs| > 0 {
      UnescapeEscapeBytes(bs[1..], rest, tail);
      UnescapeByte(bs[0], EscapeBytes(bs[1..]) + rest, bs[1..] + tail);
      EscapeBytesCons(bs, rest);
      ConsAppend(bs, tail);
    } else {
      assert EscapeBytes(bs) + rest == rest;
      assert bs + tail == tail;
    }
  }

  lemma EscapeBytesCons(bs: seq<byte>, rest: string)
    requires |bs| > 0
    ensures EscapeBytes(bs) + rest == EscapeByte(bs[0]) + (EscapeBytes(bs[1..]) + rest)
  {
    AppendAssoc(EscapeByte(bs[0]), EscapeBytes(bs[1..]), rest);
  }

  lemma AppendAssoc(a: string, b: string, c: string)
    ensures (a + b) + c == a + (b + c)
  {
  }

  lemma ConsAppend(bs: seq<byte>, tail: seq<byte>)
    requires |bs| > 0
    ensures [bs[0]] + (bs[1..] + tail) == bs + tail
  {
    assert [bs[0]] + bs[1..] == bs;
  }

  /** Unescaping an escaped path gives back exactly the path's UTF-8 bytes. */
  lemma {:induction false} UnescapeEscapePath(p: string)
    ensures Unescape(EscapePath(p)) == Some(Utf8(p))
  {
    if |p| > 0 {
      UnescapeEscapePath(p[1..]);
      UnescapeEscapeBytes(Utf8Char(p[0]), EscapePath(p[1..]), Utf8(p[1..]));
    }
  }

  // ---------------------------------------------------------------------------
  // ResolveReference(&url.URL{Path: p}) and String
  // ---------------------------------------------------------------------------

  /**
   * The URL text of `base.ResolveReference(&url.URL{Path: p})`: the whole
   * string is a path, resolved against the base path and then escaped, so a
   * '?' in it is written "%3F" and never starts a query.
   */
  function ResolvePathOnly(base: AbsUrl, p: string): (r: string)
    ensures base.origin <= r
    ensures '?' !in r[|base.origin|..]
  {
    var r := base.origin + EscapePath(MergePath(base.path, p));
    assert r[|base.origin|..] == EscapePath(MergePath(base.path, p));
    r
  }

  /** A relative path under a plain directory base: the base text followed by the escaped path. */
  lemma ResolvePathOnlyRelative(base: AbsUrl, p: string)
    requires IsDirPath(base.path) && IsRelative(p)
    requires Plain(base.path)
    ensures ResolvePathOnly(base, p) == Text(base) + EscapePath(p)
  {
    MergeRelative(base.path, p);
    EscapePathConcat(base.path, p);
    EscapePathPlain(base.path);
  }
}
