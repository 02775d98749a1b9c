/**
 * The regular expressions the clients run over `Link` header values and
 * pagination URLs, written as deterministic matchers.
 *
 * `<([^>]+)>;\s*rel="([^"]+)"` can match from a given start position in one
 * way only: each repeated class stops at the one character that must follow
 * it, so greedy matching never has to back off. `FindAll` is Go's
 * `FindAllStringSubmatch(s, -1)`: leftmost matches, non-overlapping, each
 * search resuming where the previous match ended.
 */
module LinkPattern {
  import opened GoText

  /** The two capture groups of one match: the target URL and the rel value. */
  datatype LinkMatch = LinkMatch(url: string, rel: string)

  /** A match at the start of a string and the length it consumed. */
  datatype Hit = Hit(link: LinkMatch, len: nat)

  /** `\s` in Go's regular-expression syntax: `[\t\n\f\r ]`. */
  predicate IsRegexSpace(c: char)
  {
    c == '\t' || c == '\n' || c == '\U{000C}' || c == '\r' || c == ' '
  }

  /** Length of the longest prefix of `t` without the character `c`. */
  function CountNot(t: string, c: char): (n: nat)
    ensures n <= |t|
    ensures c !in t[..n]
    ensures n < |t| ==> t[n] == c
  {
    if |t| == 0 || t[0] == c then 0
    else
      var n := 1 + CountNot(t[1..], c);
      assert t[..n] == [t[0]] + t[1..][..n - 1];
      n
  }

  /** Length of the longest prefix of `t` made of `\s` characters. */
  function CountSpace(t: string): (n: nat)
    ensures n <= |t|
    ensures n < |t| ==> !IsRegexSpace(t[n])
  {
    if |t| == 0 || !IsRegexSpace(t[0]) then 0 else 1 + CountSpace(t[1..])
  }

  const RelOpen: string := "rel=\""

  /**
   * The tail `rel="([^"]+)"` of the pattern at the start of `c`: the rel value
   * and the length consumed.
   */
  function RelPart(c: string): (r: Option<(string, nat)>)
    ensures r.Some? ==> 0 < r.value.1 <= |c|
  {
    if !(RelOpen <= c) then None
    else
      var d := c[|RelOpen|..];
      var n := CountNot(d, '"');
      if n == 0 || n >= |d| then None else Some((d[..n], |RelOpen| + n + 1))
  }

  /** The match of the link pattern anchored at the start of `t`, if there is one. */
  function MatchPrefix(t: string): (h: Option<Hit>)
    ensures h.Some? ==> 0 < h.value.len <= |t|
  {
    if |t| == 0 || t[0] != '<' then None
    else
      var a := t[1..];
      var u := CountNot(a, '>');
      if u == 0 || u + 1 >= |a| || a[u + 1] != ';' then None
      else
        var b := a[u + 2..];
        var w := CountSpace(b);
        var r := RelPart(b[w..]);
        if r.None? then None else Some(Hit(LinkMatch(a[..u], r.value.0), 1 + u + 2 + w + r.value.1))
  }

  /** `FindAllStringSubmatch(s, -1)` for the link pattern. */
  function FindAll(s: string): seq<LinkMatch>
  {
    if |s| == 0 then []
    else match MatchPrefix(s)
      case Some(h) => [h.link] + FindAll(s[h.len..])
      case None => FindAll(s[1..])
  }

  /** What the pattern's capture groups can hold: non-empty, without their closing character. */
  predicate WellFormed(m: LinkMatch)
  {
    |m.url| > 0 && '>' !in m.url && |m.rel| > 0 && '"' !in m.rel
  }

  /** The textual form of one link as a server writes it, `<url>; rel="rel"`, followed by `rest`. */
  function RenderThen(m: LinkMatch, rest: string): string
  {
    LinkText(m.url, RelText(m.rel, rest))
  }

  /** `<url>; ` followed by `tail`. */
  function LinkText(url: string, tail: string): string
  {
    "<" + (url + (">; " + tail))
  }

  /** `rel="rel"` followed by `rest`. */
  function RelText(rel: string, rest: string): string
  {
    RelOpen + (rel + ("\"" + rest))
  }

  /** Several links separated by `, `, as in a `Link` header with more than one value. */
  function RenderAll(ms: seq<LinkMatch>): string
  {
    if |ms| == 0 then ""
    else if |ms| == 1 then RenderThen(ms[0], "")
    else RenderThen(ms[0], ", " + RenderAll(ms[1..]))
  }

  /** Every match carries a non-empty URL without '>' and a non-empty rel without '"'. */
  lemma {:induction false} FindAllWellFormed(s: string)
    ensures forall i :: 0 <= i < |FindAll(s)| ==> WellFormed(FindAll(s)[i])
  {
    if |s| > 0 {
      match MatchPrefix(s)
      case Some(h) => FindAllWellFormed(s[h.len..]);
      case None => FindAllWellFormed(s[1..]);
    }
  }

  /** Text without '<' cannot start a match, so it contributes nothing. */
  lemma {:induction false} FindAllSkipsText(p: string, q: string)
    requires '<' !in p
    ensures FindAll(p + q) == FindAll(q)
  {
    if |p| > 0 {
      assert (p + q)[1..] == p[1..] + q;
      FindAllSkipsText(p[1..], q);
    } else {
      assert p + q == q;
    }
  }

  lemma {:induction false} CountNotStopsAt(x: string, y: string, c: char)
    requires c !in x && |y| > 0 && y[0] == c
    ensures CountNot(x + y, c) == |x|
  {
    if |x| > 0 {
      assert (x + y)[0] == x[0];
      assert (x + y)[1..] == x[1..] + y;
      CountNotStopsAt(x[1..], y, c);
    }
  }

  lemma RelPartRendered(rel: string, rest: string)
    requires |rel| > 0 && '"' !in rel
    ensures RelPart(RelText(rel, rest)) == Some((rel, |RelOpen| + |rel| + 1))
  {
    var c := RelText(rel, rest);
    assert RelOpen <= c;
    var d := c[|RelOpen|..];
    assert d == rel + ("\"" + rest);
    CountNotStopsAt(rel, "\"" + rest, '"');
    assert d[..|rel|] == rel;
  }

  /** A well-formed rendered link is matched whole, with its own URL and rel. */
  lemma MatchRendered(m: LinkMatch, rest: string)
    requires WellFormed(m)
    ensures MatchPrefix(RenderThen(m, rest)) == Some(Hit(m, |RenderThen(m, rest)| - |rest|))
  {
    RenderedMatch(m, rest, RenderThen(m, rest));
  }

  lemma RenderedMatch(m: LinkMatch, rest: string, t: string)
    requires WellFormed(m) && t == RenderThen(m, rest)
    ensures MatchPrefix(t) == Some(Hit(m, |t| - |rest|))
  {
    RenderedPieces(m, rest, t);
    PiecesMatch(m, rest, t);
  }

  lemma PiecesMatch(m: LinkMatch, rest: string, t: string)
    requires |t| > 0 && t[0] == '<'
    requires CountNot(t[1..], '>') == |m.url| && t[1..][..|m.url|] == m.url
    requires |m.url| > 0 && |m.url| + 1 < |t[1..]| && t[1..][|m.url| + 1] == ';'
    requires CountSpace(t[1..][|m.url| + 2..]) == 1
    requires RelPart(t[1..][|m.url| + 2..][1..]) == Some((m.rel, |RelOpen| + |m.rel| + 1))
    requires |t| - |rest| == |m.url| + 3 + 1 + (|RelOpen| + |m.rel| + 1)
    ensures MatchPrefix(t) == Some(Hit(m, |t| - |rest|))
  {
    MatchPrefixParts(t, t[1..], t[1..][|m.url| + 2..], m.url, m.rel, |RelOpen| + |m.rel| + 1);
  }

  /** The pieces `MatchPrefix` finds in a rendered link: the URL, `;`, one space and the rel part. */
  lemma RenderedPieces(m: LinkMatch, rest: string, t: string)
    requires WellFormed(m) && t == RenderThen(m, rest)
    ensures |t| > 0 && t[0] == '<'
    ensures CountNot(t[1..], '>') == |m.url| && t[1..][..|m.url|] == m.url
    ensures |m.url| + 1 < |t[1..]| && t[1..][|m.url| + 1] == ';'
    ensures CountSpace(t[1..][|m.url| + 2..]) == 1
    ensures RelPart(t[1..][|m.url| + 2..][1..]) == Some((m.rel, |RelOpen| + |m.rel| + 1))
    ensures |t| - |rest| == |m.url| + 3 + 1 + (|RelOpen| + |m.rel| + 1)
  {
    var tail := RelText(m.rel, rest);
    var a := m.url + (">; " + tail);
    assert t[1..] == a;
    CountNotStopsAt(m.url, ">; " + tail, '>');
    var u := |m.url|;
    assert a[..u] == m.url;
    assert a[u + 1] == ';';
    var b := a[u + 2..];
    assert b == " " + tail;
    assert tail[0] == RelOpen[0];
    assert CountSpace(b) == 1;
    assert b[1..] == tail;
    RelPartRendered(m.rel, rest);
  }

  /** `MatchPrefix` spelled out: the pieces the matcher finds determine its hit. */
  lemma MatchPrefixParts(t: string, a: string, b: string, url: string, rel: string, n: int)
    requires |t| > 0 && t[0] == '<' && a == t[1..]
    requires |url| > 0 && CountNot(a, '>') == |url| && a[..|url|] == url
    requires |url| + 1 < |a| && a[|url| + 1] == ';' && b == a[|url| + 2..]
    requires CountSpace(b) == 1 && RelPart(b[1..]) == Some((rel, n))
    ensures MatchPrefix(t) == Some(Hit(LinkMatch(url, rel), |url| + 4 + n))
  {
  }

  lemma FindAllStep(s: string, m: LinkMatch, rest: string)
    requires |rest| <= |s| && MatchPrefix(s) == Some(Hit(m, |s| - |rest|)) && s[|s| - |rest|..] == rest
    ensures FindAll(s) == [m] + FindAll(rest)
  {
  }

  /** A header written as well-formed links separated by `, ` parses back to exactly those links, in order. */
  lemma {:induction false} FindAllRenderAll(ms: seq<LinkMatch>)
    requires forall i :: 0 <= i < |ms| ==> WellFormed(ms[i])
    ensures FindAll(RenderAll(ms)) == ms
  {
    if |ms| == 1 {
      FindAllRenderedThen(ms[0], "");
    } else if |ms| > 1 {
      FindAllRenderCons(ms);
      FindAllRenderAll(ms[1..]);
      assert ms == [ms[0]] + ms[1..];
    }
  }

  lemma FindAllRenderCons(ms: seq<LinkMatch>)
    requires |ms| > 1 && WellFormed(ms[0])
    ensures FindAll(RenderAll(ms)) == [ms[0]] + FindAll(RenderAll(ms[1..]))
  {
    FindAllRenderedThen(ms[0], ", " + RenderAll(ms[1..]));
    FindAllSkipsText(", ", RenderAll(ms[1..]));
  }

  lemma FindAllRenderedThen(m: LinkMatch, rest: string)
    requires WellFormed(m)
    ensures FindAll(RenderThen(m, rest)) == [m] + FindAll(rest)
  {
    var s := RenderThen(m, rest);
    RenderedMatch(m, rest, s);
    RenderThenEndsWith(m, rest, s);
    FindAllStep(s, m, rest);
  }

  lemma RenderThenEndsWith(m: LinkMatch, rest: string, s: string)
    requires s == RenderThen(m, rest)
    ensures |rest| <= |s| && s[|s| - |rest|..] == rest
  {
  }

  // ---------------------------------------------------------------------------
  // `page=(\d+)` and `[&?]page=(\d+)`
  // ---------------------------------------------------------------------------

  const PageKey: string := "page="

  /** The longest run of decimal digits at the start of `t`. */
  function DigitRun(t: string): (d: string)
    ensures d <= t && AllDigits(d)
    ensures |d| < |t| ==> !IsDigit(t[|d|])
  {
    t[..LeadingCount(t, IsDigit)]
  }

  /** The capture group of the leftmost match of `page=(\d+)` in `s`. */
  function FindPageDigits(s: string): (d: Option<string>)
    ensures d.Some? ==> |d.value| > 0 && AllDigits(d.value)
  {
    if |s| <= |PageKey| then None
    else if PageKey <= s && IsDigit(s[|PageKey|]) then Some(DigitRun(s[|PageKey|..]))
    else FindPageDigits(s[1..])
  }

  /** The capture group of the leftmost match of `[&?]page=(\d+)` in `s`. */
  function FindQueryPageDigits(s: string): (d: Option<string>)
    ensures d.Some? ==> |d.value| > 0 && AllDigits(d.value)
  {
    if |s| <= 1 + |PageKey| then None
    else if (s[0] == '&' || s[0] == '?') && PageKey <= s[1..] && IsDigit(s[1 + |PageKey|])
    then Some(DigitRun(s[1 + |PageKey|..]))
    else FindQueryPageDigits(s[1..])
  }

  /**
   * Text without a 'g', followed by text that starts with neither 'a' nor
   * 'g', cannot hold the start of a `page=` match: the 'g' of such a match
   * would have to lie in the first text or be the first character of the
   * second. A URL's scheme, host and path followed by '?' are such text.
   */
  lemma {:induction false} FindPageDigitsSkips(p: string, r: string)
    requires 'g' !in p
    requires |r| > 0 && r[0] != 'a' && r[0] != 'g'
    ensures FindPageDigits(p + r) == FindPageDigits(r)
  {
    if |p| > 0 {
      var s := p + r;
      assert s[1..] == p[1..] + r;
      if |p| >= 3 {
        assert s[2] == p[2];
      } else if |p| == 2 {
        assert s[2] == r[0];
      } else {
        assert s[1] == r[0];
      }
      FindPageDigitsSkips(p[1..], r);
    } else {
      assert p + r == r;
    }
  }

  /** A match of `[&?]page=(\d+)` is also a match of the unanchored `page=(\d+)` one character later. */
  lemma QueryPageAnchored(s: string)
    requires |s| > 1 + |PageKey| && (s[0] == '&' || s[0] == '?')
    requires PageKey <= s[1..] && IsDigit(s[1 + |PageKey|])
    ensures FindQueryPageDigits(s) == FindPageDigits(s[1..])
  {
  }
}
