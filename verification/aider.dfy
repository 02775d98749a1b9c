/**
 * The `aider-claude-3.7` client (client.go): the status handling of `Do`,
 * the `Link` header read into a map from rel to URL, and the record count.
 */
module Aider {
  import opened GoText
  import opened HttpModel
  import opened LinkPattern
  import opened LinkSegments
  import opened Pagination
  import RooCode
  import CursorClaude

  // ---------------------------------------------------------------------------
  // Do
  // ---------------------------------------------------------------------------

  /** What `Do` returns besides the response: a decoded value (or none), or an error text. */
  datatype DoResult<T> = Done(value: Option<T>) | Failed(message: string)

  const ApiErrorPrefix: string := "API error: "
  const ResponseInfix: string := " - Response: "
  const DecodeErrorPrefix: string := "JSON decode error: "

  /** The text of a decoding error. */
  function DecodeErrorText<T>(d: Decoded<T>): string
  {
    match d
    case Decoded(_) => ""
    case DecodeEOF => "EOF"
    case DecodeFailed(reason) => reason
  }

  /**
   * `Do` once the response is in: a status outside 200-299 is an error
   * naming the status line, followed by the body when one could be read;
   * 204 and a missing target return without decoding; otherwise a decoding
   * failure is a "JSON decode error".
   */
  function Do<T>(resp: Response, decode: Option<string -> Decoded<T>>): (r: DoResult<T>)
    ensures r.Failed? <==>
      (!Is2xx(resp.statusCode) || (resp.statusCode != 204 && decode.Some? && !decode.value(resp.body).Decoded?))
    ensures !Is2xx(resp.statusCode) ==> ApiErrorPrefix + resp.status <= r.message
    ensures !Is2xx(resp.statusCode) && !resp.bodyReadFails && resp.body != "" ==>
      r.message == ApiErrorPrefix + resp.status + ResponseInfix + resp.body
    ensures !Is2xx(resp.statusCode) && (resp.bodyReadFails || resp.body == "") ==> r.message == ApiErrorPrefix + resp.status
    ensures Is2xx(resp.statusCode) && (resp.statusCode == 204 || decode.None?) ==> r == Done(None)
    ensures r.Done? && r.value.Some? ==> decode.Some? && decode.value(resp.body) == Decoded(r.value.value)
    ensures Is2xx(resp.statusCode) && resp.statusCode != 204 && decode.Some? && decode.value(resp.body).Decoded? ==>
      r == Done(Some(decode.value(resp.body).value))
    ensures Is2xx(resp.statusCode) && r.Failed? ==> DecodeErrorPrefix <= r.message
  {
    if !Is2xx(resp.statusCode) then
      var body := if resp.bodyReadFails then "" else resp.body;
      var msg := ApiErrorPrefix + resp.status;
      Failed(if |body| > 0 then msg + ResponseInfix + body else msg)
    else if decode.Some? && resp.statusCode != 204 then
      match decode.value(resp.body)
      case Decoded(v) => Done(Some(v))
      case _ => Failed(DecodeErrorPrefix + DecodeErrorText(decode.value(resp.body)))
    else Done(None)
  }

  // ---------------------------------------------------------------------------
  // GetPaginationLinks
  // ---------------------------------------------------------------------------

  /**
   * One comma-separated piece: trimmed of white space and split at ';'; with
   * fewer than two parts it is skipped. The URL is the first part with every
   * leading and trailing '<' and '>' cut; the rel is the second part trimmed
   * of white space, then of the characters 'r', 'e', 'l' and '=' at both
   * ends, then of '"'.
   */
  function AiderSegment(part: string): (r: Option<LinkMatch>)
    ensures r.None? <==> |Split(TrimSpace(part), ';')| < 2
  {
    var segments := Split(TrimSpace(part), ';');
    if |segments| < 2 then None
    else Some(LinkMatch(Trim(segments[0], "<>"), Trim(Trim(TrimSpace(segments[1]), "rel="), "\"")))
  }

  /** The map after storing every link in order: each rel maps to its last URL. */
  function LinkMap(ms: seq<LinkMatch>): map<string, string>
  {
    if |ms| == 0 then map[]
    else LinkMap(ms[..|ms| - 1])[ms[|ms| - 1].rel := ms[|ms| - 1].url]
  }

  /**
   * `GetPaginationLinks`: the header is split at ',' and every piece
   * `AiderSegment` reads stores its URL under its rel, whatever the rel is,
   * a later piece overwriting an earlier one.
   */
  method GetPaginationLinks(h: Header) returns (links: map<string, string>)
    ensures links == LinkMap(Segments(Split(Get(h, "Link"), ','), AiderSegment))
    ensures Get(h, "Link") == "" ==> links == map[]
  {
    links := map[];
    var linkHeader := Get(h, "Link");
    if linkHeader == "" {
      EmptyHeaderNoLinks();
      return;
    }
    var parts := Split(linkHeader, ',');
    var i := 0;
    while i < |parts|
      invariant 0 <= i <= |parts|
      invariant links == LinkMap(Segments(parts[..i], AiderSegment))
    {
      var link := AiderSegment(parts[i]);
      LinkMapStep(parts, i, link, links);
      links := StoreLink(links, link);
      i := i + 1;
    }
    assert parts[..i] == parts;
  }

  lemma EmptyHeaderNoLinks()
    ensures LinkMap(Segments(Split("", ','), AiderSegment)) == map[]
  {
    SegmentsOne("", AiderSegment);
  }

  /** The map after one piece: its link, if it has one, stored under its rel. */
  function StoreLink(links: map<string, string>, link: Option<LinkMatch>): map<string, string>
  {
    if link.Some? then links[link.value.rel := link.value.url] else links
  }

  /** One more piece of the header stores the link it reads, if any, and changes nothing else. */
  lemma LinkMapStep(parts: seq<string>, i: int, link: Option<LinkMatch>, links: map<string, string>)
    requires 0 <= i < |parts| && link == AiderSegment(parts[i])
    requires links == LinkMap(Segments(parts[..i], AiderSegment))
    ensures StoreLink(links, link) == LinkMap(Segments(parts[..i + 1], AiderSegment))
  {
    SegmentsSnoc(parts, i, AiderSegment);
    var done := Segments(parts[..i], AiderSegment);
    if link.Some? {
      StoreStep(done, link.value);
    } else {
      assert done + [] == done;
    }
  }

  lemma StoreStep(done: seq<LinkMatch>, m: LinkMatch)
    ensures LinkMap(done + Found(Some(m))) == LinkMap(done)[m.rel := m.url]
  {
    LinkMapSnoc(done, m);
  }

  /** Storing one more link sets its rel to its URL and leaves the other keys alone. */
  lemma LinkMapSnoc(ms: seq<LinkMatch>, m: LinkMatch)
    ensures LinkMap(ms + [m]) == LinkMap(ms)[m.rel := m.url]
  {
    assert (ms + [m])[..|ms|] == ms;
  }

  /** A rel is a key of the map exactly when some stored link carries it. */
  lemma {:induction false} LinkMapKeys(ms: seq<LinkMatch>, rel: string)
    ensures rel in LinkMap(ms) <==> exists i :: 0 <= i < |ms| && ms[i].rel == rel
  {
    if |ms| > 0 {
      var init := ms[..|ms| - 1];
      LinkMapKeys(init, rel);
      if exists i :: 0 <= i < |init| && init[i].rel == rel {
        var i :| 0 <= i < |init| && init[i].rel == rel;
        assert ms[i].rel == rel;
      }
      if exists i :: 0 <= i < |ms| && ms[i].rel == rel {
        var i :| 0 <= i < |ms| && ms[i].rel == rel;
        if i < |init| {
          assert init[i].rel == rel;
        }
      }
    }
  }

  /** The URL stored under `rel`, or "" when none is. */
  function UrlFor(links: map<string, string>, rel: string): string
  {
    if rel in links then links[rel] else ""
  }

  /**
   * For each of the four page relations the map holds what the record of
   * the regular-expression parsers holds for the same links.
   */
  lemma {:induction false} LinkMapAgreesWithRecorded(ms: seq<LinkMatch>)
    ensures UrlFor(LinkMap(ms), "first") == Recorded(ms, KeepAll).first
    ensures UrlFor(LinkMap(ms), "prev") == Recorded(ms, KeepAll).prev
    ensures UrlFor(LinkMap(ms), "next") == Recorded(ms, KeepAll).next
    ensures UrlFor(LinkMap(ms), "last") == Recorded(ms, KeepAll).last
  {
    if |ms| > 0 {
      LinkMapAgreesWithRecorded(ms[..|ms| - 1]);
    }
  }

  lemma TrimAfterCut(p: string, x: string, cutset: string)
    requires forall c :: c in p ==> c in cutset
    requires |x| > 0 && x[0] !in cutset && x[|x| - 1] !in cutset
    ensures Trim(p + x, cutset) == x
  {
    var cut := c => c in cutset;
    assert forall i :: 0 <= i < |p| ==> cut(p[i]);
    LeadingCountPrefix(p, x, cut);
    assert (p + x)[|p|..] == x;
    assert TrailingCount(x, cut) == 0;
    assert x[..|x|] == x;
  }

  /** The rel half of a rendered link loses `rel=` and the quotes and nothing else. */
  lemma AiderRelHalf(rel: string)
    requires |rel| > 0 && '"' !in rel
    ensures Trim(Trim(TrimSpace(" " + (RelOpen + rel + "\"")), "rel="), "\"") == rel
  {
    RelAttrUnspaced(rel);
    RelKeyCut(rel);
    QuotesTrimmed(rel);
  }

  lemma RelAttrUnspaced(rel: string)
    ensures TrimSpace(" " + (RelOpen + rel + "\"")) == "rel=" + ("\"" + rel + "\"")
  {
    RelAttrTrimmed(RelOpen + rel + "\"");
    RelOpenSplit(rel);
  }

  lemma RelAttrTrimmed(attr: string)
    requires |attr| > 0 && attr[0] == 'r' && attr[|attr| - 1] == '"'
    ensures TrimSpace(" " + attr) == attr
  {
    TrimSpaceAfterSpaces(" ", attr);
  }

  lemma RelOpenSplit(rel: string)
    ensures RelOpen + rel + "\"" == "rel=" + ("\"" + rel + "\"")
  {
  }

  lemma RelKeyCut(rel: string)
    ensures Trim("rel=" + ("\"" + rel + "\""), "rel=") == "\"" + rel + "\""
  {
    var quoted := "\"" + rel + "\"";
    assert quoted[0] == '"' && quoted[|quoted| - 1] == '"';
    TrimAfterCut("rel=", quoted, "rel=");
  }

  lemma QuotesTrimmed(rel: string)
    requires |rel| > 0 && '"' !in rel
    ensures Trim("\"" + rel + "\"", "\"") == rel
  {
    assert "\"" + rel + "\"" == ['"'] + rel + ['"'];
    assert rel[0] !in "\"" && rel[|rel| - 1] !in "\"";
    TrimEnclosed('"', rel, '"', "\"");
  }

  /** Each rendered link whose URL holds no '<', with or without the space after a comma, is read back whole. */
  lemma AiderSegmentOfPiece(m: LinkMatch, sp: string)
    requires Separable(m) && '<' !in m.url && (sp == "" || sp == " ")
    ensures AiderSegment(sp + Piece(m)) == Some(m)
  {
    var p := Piece(m);
    var a := "<" + (m.url + ">");
    var b := " " + (RelOpen + m.rel + "\"");
    PieceTrimmed(m, sp);
    PieceSplit(m);
    BracketsTrimmed(m.url);
    AiderRelHalf(m.rel);
    AiderSegmentOfHalves(sp + p, p, a, b);
  }

  /** A piece whose trimmed text splits at ';' into two halves is read from those halves. */
  lemma AiderSegmentOfHalves(part: string, x: string, a: string, b: string)
    requires TrimSpace(part) == x && Split(x, ';') == [a, b]
    ensures AiderSegment(part) == Some(LinkMatch(Trim(a, "<>"), Trim(Trim(TrimSpace(b), "rel="), "\"")))
  {
  }

  lemma PieceTrimmed(m: LinkMatch, sp: string)
    requires Separable(m) && (sp == "" || sp == " ")
    ensures TrimSpace(sp + Piece(m)) == Piece(m)
  {
    var p := Piece(m);
    assert p[0] == '<' && p[|p| - 1] == '"';
    TrimSpaceAfterSpaces(sp, p);
  }

  lemma PieceSplit(m: LinkMatch)
    requires Separable(m)
    ensures Split(Piece(m), ';') == ["<" + (m.url + ">"), " " + (RelOpen + m.rel + "\"")]
  {
    PieceHalves(m, "");
    assert "" + Piece(m) == Piece(m);
    assert "" + ("<" + (m.url + ">")) == "<" + (m.url + ">");
  }

  /**
   * The header of the client's test, a `next` link to page 2 and a `last`
   * link to page 5, maps "next" and "last" to those URLs and nothing else.
   */
  lemma TestHeaderLinks(ms: seq<LinkMatch>)
    requires ms == [LinkMatch(RooCode.EntriesPage + "2", "next"), LinkMatch(RooCode.EntriesPage + "5", "last")]
    ensures LinkMap(Segments(Split(RenderAll(ms), ','), AiderSegment))
      == map["next" := RooCode.EntriesPage + "2", "last" := RooCode.EntriesPage + "5"]
  {
    RooCode.EntriesPageClean('2');
    RooCode.EntriesPageClean('5');
    assert Separable(ms[0]) && Separable(ms[1]);
    RenderedLinksRead(ms);
    LinkMapSnoc([], ms[0]);
    LinkMapSnoc([ms[0]], ms[1]);
    assert [] + [ms[0]] == [ms[0]] && [ms[0]] + [ms[1]] == ms;
  }

  /** A rendered link is read back whole, with or without the space after a comma. */
  lemma PieceRead(m: LinkMatch)
    requires Separable(m) && '<' !in m.url
    ensures AiderSegment(Piece(m)) == Some(m) && AiderSegment(" " + Piece(m)) == Some(m)
  {
    AiderSegmentOfPiece(m, "");
    AiderSegmentOfPiece(m, " ");
    assert "" + Piece(m) == Piece(m);
  }

  /** A header rendered from links with plain URLs is read back link by link. */
  lemma RenderedLinksRead(ms: seq<LinkMatch>)
    requires |ms| > 0
    requires forall i :: 0 <= i < |ms| ==> Separable(ms[i]) && '<' !in ms[i].url
    ensures Segments(Split(RenderAll(ms), ','), AiderSegment) == ms
  {
    PiecesRead(ms);
    SplitRenderedAll(ms, AiderSegment);
  }

  lemma PiecesRead(ms: seq<LinkMatch>)
    requires forall i :: 0 <= i < |ms| ==> Separable(ms[i]) && '<' !in ms[i].url
    ensures forall i :: 0 <= i < |ms| ==> AiderSegment(Piece(ms[i])) == Some(ms[i]) && AiderSegment(" " + Piece(ms[i])) == Some(ms[i])
  {
    forall i | 0 <= i < |ms|
      ensures AiderSegment(Piece(ms[i])) == Some(ms[i]) && AiderSegment(" " + Piece(ms[i])) == Some(ms[i])
    {
      PieceRead(ms[i]);
    }
  }

  /**
   * An unquoted rel loses every leading 'r', 'e', 'l' and '=' after `rel=`:
   * `<url>; rel=` followed by `p` made of those characters and a word `x`
   * is stored under `x` alone, so `rel=last` is stored under "ast".
   */
  lemma UnquotedRelTrimmed(url: string, p: string, x: string)
    requires |url| > 0 && '<' !in url && '>' !in url && ';' !in url
    requires forall c :: c in p ==> c in "rel="
    requires |x| > 0 && ';' !in x && x[0] !in "rel=" && x[|x| - 1] !in "rel=" && x[0] != '"' && x[|x| - 1] != '"'
    requires !IsSpace(x[|x| - 1])
    ensures AiderSegment("<" + (url + (">; " + ("rel=" + (p + x))))) == Some(LinkMatch(url, x))
  {
    var r := "rel=" + (p + x);
    assert ';' !in r && r[|r| - 1] == x[|x| - 1];
    UnquotedSplit(url, r);
    BracketsTrimmed(url);
    RelTrimmed(p, x);
    AiderSegmentOfHalves("<" + (url + (">; " + r)), "<" + (url + (">; " + r)), "<" + (url + ">"), " " + r);
  }

  lemma UnquotedSplit(url: string, r: string)
    requires ';' !in url && ';' !in r && |r| > 0 && !IsSpace(r[|r| - 1])
    ensures TrimSpace("<" + (url + (">; " + r))) == "<" + (url + (">; " + r))
    ensures Split("<" + (url + (">; " + r)), ';') == ["<" + (url + ">"), " " + r]
  {
    UnquotedUntrimmed(url, r);
    UnquotedHalves(url, r);
  }

  lemma UnquotedHalves(url: string, r: string)
    requires ';' !in url && ';' !in r
    ensures Split("<" + (url + (">; " + r)), ';') == ["<" + (url + ">"), " " + r]
  {
    var a := "<" + (url + ">");
    var b := " " + r;
    assert "<" + (url + (">; " + r)) == a + [';'] + b;
    assert ';' !in a by {
      assert a == ['<'] + url + ['>'];
    }
    assert ';' !in b by {
      assert b == [' '] + r;
    }
    SplitHalves(a, b, ';');
  }

  lemma UnquotedUntrimmed(url: string, r: string)
    requires |r| > 0 && !IsSpace(r[|r| - 1])
    ensures TrimSpace("<" + (url + (">; " + r))) == "<" + (url + (">; " + r))
  {
    var s := "<" + (url + (">; " + r));
    assert s[0] == '<' && s[|s| - 1] == r[|r| - 1];
    TrimSpaceAfterSpaces("", s);
    assert "" + s == s;
  }

  /** A string with one separator splits into what is on either side of it. */
  lemma SplitHalves(a: string, b: string, sep: char)
    requires sep !in a && sep !in b
    ensures Split(a + [sep] + b, sep) == [a, b]
  {
    SplitFirst(a, b, sep);
    SplitWithoutSeparator(b, sep);
  }

  lemma RelTrimmed(p: string, x: string)
    requires forall c :: c in p ==> c in "rel="
    requires |x| > 0 && x[0] !in "rel=" && x[|x| - 1] !in "rel=" && x[0] != '"' && x[|x| - 1] != '"'
    requires !IsSpace(x[|x| - 1])
    ensures Trim(Trim(TrimSpace(" " + ("rel=" + (p + x))), "rel="), "\"") == x
  {
    RelUntrimmed(p, x);
    RelPrefixCut(p, x);
    TrimAfterCut("", x, "\"");
    assert "" + x == x;
  }

  lemma RelUntrimmed(p: string, x: string)
    requires |x| > 0 && !IsSpace(x[|x| - 1])
    ensures TrimSpace(" " + ("rel=" + (p + x))) == "rel=" + (p + x)
  {
    var c := "rel=" + (p + x);
    assert c[0] == 'r' && c[|c| - 1] == x[|x| - 1];
    TrimSpaceAfterSpaces(" ", c);
  }

  lemma RelPrefixCut(p: string, x: string)
    requires forall c :: c in p ==> c in "rel="
    requires |x| > 0 && x[0] !in "rel=" && x[|x| - 1] !in "rel="
    ensures Trim("rel=" + (p + x), "rel=") == x
  {
    CutTwice("rel=", p, x, "rel=");
  }

  /** Two runs of cut characters before `x` are both trimmed. */
  lemma CutTwice(k: string, p: string, x: string, cutset: string)
    requires forall c :: c in k ==> c in cutset
    requires forall c :: c in p ==> c in cutset
    requires |x| > 0 && x[0] !in cutset && x[|x| - 1] !in cutset
    ensures Trim(k + (p + x), cutset) == x
  {
    var q := k + p;
    assert forall c :: c in q ==> c in cutset by {
      forall c | c in q
        ensures c in cutset
      {
      }
    }
    assert q + x == k + (p + x);
    TrimAfterCut(q, x, cutset);
  }

  // ---------------------------------------------------------------------------
  // GetTotalCount
  // ---------------------------------------------------------------------------

  /** `GetTotalCount`: the header's `Atoi` value, 0 when it is missing or not a number. */
  function TotalCount(h: Header): (n: int)
    ensures Get(h, "X-Feedbin-Record-Count") == "" ==> n == 0
    ensures Atoi(Get(h, "X-Feedbin-Record-Count")).None? ==> n == 0
    ensures Atoi(Get(h, "X-Feedbin-Record-Count")).Some? ==> n == Atoi(Get(h, "X-Feedbin-Record-Count")).value
  {
    var countStr := Get(h, "X-Feedbin-Record-Count");
    if countStr == "" then 0
    else match Atoi(countStr)
      case None => 0
      case Some(count) => count
  }

  /** Any 64-bit count the server writes in decimal is read back, "42" as 42 among them. */
  lemma TotalCountRoundTrip(h: Header, n: int)
    requires InInt64(n) && Get(h, "X-Feedbin-Record-Count") == Itoa(n)
    ensures TotalCount(h) == n
  {
    AtoiItoa(n);
  }

  lemma FortyTwo(h: Header)
    requires Get(h, "X-Feedbin-Record-Count") == "42"
    ensures TotalCount(h) == 42
  {
    assert Itoa(42) == "42";
    TotalCountRoundTrip(h, 42);
  }

  /** The count reads exactly as the `cursor-claude-3.7` client reads it. */
  lemma TotalCountAgreesWithCursorClaude(h: Header)
    ensures TotalCount(h) == CursorClaude.RecordCount(h)
  {
  }
}
