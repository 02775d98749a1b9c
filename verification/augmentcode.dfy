/**
 * The client in `jetbrains-augmentcode-agent-auto`: its split-based `Link`
 * header parser, record count and status check (client.go), and the URL of
 * the content-extraction service (extract.go).
 */
module AugmentCode {
  import opened GoText
  import opened HttpModel
  import opened LinkPattern
  import opened LinkSegments
  import opened Pagination
  import opened Encoding
  import CascadeGemini

  const RecordCountHeader: string := "X-Feedbin-Record-Count"

  // ---------------------------------------------------------------------------
  // client.go: ParseLinkHeader
  // ---------------------------------------------------------------------------

  /**
   * One comma-separated piece: it must split at ';' into exactly two parts;
   * the URL is the first part trimmed of white space, then of one leading '<'
   * and one trailing '>'; the rel is the second part trimmed of white space,
   * then of a leading `rel="` and a trailing '"'.
   */
  function SegmentLink(part: string): (r: Option<LinkMatch>)
    ensures r.Some? <==> |Split(part, ';')| == 2
  {
    var p := Split(part, ';');
    if |p| != 2 then None
    else
      Some(LinkMatch(TrimSuffix(TrimPrefix(TrimSpace(p[0]), "<"), ">"),
                     TrimSuffix(TrimPrefix(TrimSpace(p[1]), RelOpen), "\"")))
  }

  /** What `ParseLinkHeader` stores for a header value. */
  function ParsedLinks(header: string): Links
  {
    Recorded(Segments(Split(header, ','), SegmentLink), KeepAll)
  }

  /**
   * `ParseLinkHeader`: an empty header gives empty links; otherwise each
   * comma-separated piece that has exactly two ';' parts is read, a
   * first/prev/next/last rel sets its field (a later one overwriting an
   * earlier one) and any other rel is ignored.
   */
  method ParseLinkHeader(header: string) returns (links: Links)
    ensures links == ParsedLinks(header)
  {
    links := NoLinks;
    if header == "" {
      assert Split(header, ',') == [""];
      assert Segments([""], SegmentLink) == [] by {
        SegmentsOne("", SegmentLink);
      }
      return;
    }
    var parts := Split(header, ',');
    var i := 0;
    while i < |parts|
      invariant 0 <= i <= |parts|
      invariant links == Recorded(Segments(parts[..i], SegmentLink), KeepAll)
    {
      assert parts[..i + 1][..i] == parts[..i];
      var done := Segments(parts[..i], SegmentLink);
      var urlAndRel := Split(parts[i], ';');
      if |urlAndRel| == 2 {
        var url := TrimSuffix(TrimPrefix(TrimSpace(urlAndRel[0]), "<"), ">");
        var rel := TrimSuffix(TrimPrefix(TrimSpace(urlAndRel[1]), RelOpen), "\"");
        var m := LinkMatch(url, rel);
        assert Segments(parts[..i + 1], SegmentLink) == done + [m];
        if IsKnownRel(rel) {
          LaterLinkOverwrites(done, m, KeepAll);
        } else {
          UnknownRelIgnored(done, m, KeepAll);
        }
        match rel {
          case "first" => links := links.(first := url);
          case "prev" => links := links.(prev := url);
          case "next" => links := links.(next := url);
          case "last" => links := links.(last := url);
          case _ =>
        }
      } else {
        assert Segments(parts[..i + 1], SegmentLink) == done;
      }
      i := i + 1;
    }
    assert parts[..i] == parts;
  }

  lemma BracketedUrl(url: string)
    ensures TrimSuffix(TrimPrefix("<" + (url + ">"), "<"), ">") == url
  {
    var y := url + ">";
    assert TrimPrefix("<" + y, "<") == y;
    assert y[..|y| - 1] == url;
  }

  lemma UrlHalf(url: string, sp: string)
    requires sp == "" || sp == " "
    ensures TrimSuffix(TrimPrefix(TrimSpace(sp + ("<" + (url + ">"))), "<"), ">") == url
  {
    SpacedUrl(url, sp);
    BracketedUrl(url);
  }

  lemma RelHalf(rel: string)
    ensures TrimSuffix(TrimPrefix(TrimSpace(" " + (RelOpen + rel + "\"")), RelOpen), "\"") == rel
  {
    TrimSpaceAfterSpaces(" ", RelOpen + rel + "\"");
    assert TrimPrefix(RelOpen + rel + "\"", RelOpen) == rel + "\"";
    assert IsSuffix("\"", rel + "\"");
  }

  /** Each rendered link, with or without the space after a comma, is read back whole. */
  lemma SegmentOfPiece(m: LinkMatch, sp: string)
    requires Separable(m) && (sp == "" || sp == " ")
    ensures SegmentLink(sp + Piece(m)) == Some(m)
  {
    PieceHalves(m, sp);
    UrlHalf(m.url, sp);
    RelHalf(m.rel);
  }

  /**
   * A header of links written `<url>; rel="rel"` and separated by `, ` is read
   * back link for link, as long as no URL or rel holds ',' or ';'; on such
   * headers this parser and the regular-expression parsers see the same links.
   */
  lemma ParsesRenderedHeader(ms: seq<LinkMatch>)
    requires |ms| > 0
    requires forall i :: 0 <= i < |ms| ==> Separable(ms[i])
    ensures Segments(Split(RenderAll(ms), ','), SegmentLink) == ms
    ensures Segments(Split(RenderAll(ms), ','), SegmentLink) == FindAll(RenderAll(ms))
  {
    forall i | 0 <= i < |ms|
      ensures SegmentLink(Piece(ms[i])) == Some(ms[i]) && SegmentLink(" " + Piece(ms[i])) == Some(ms[i])
    {
      SegmentOfPiece(ms[i], "");
      SegmentOfPiece(ms[i], " ");
      assert "" + Piece(ms[i]) == Piece(ms[i]);
    }
    SplitRenderedAll(ms, SegmentLink);
    FindAllRenderAll(ms);
  }

  /** `https://api.feedbin.com/v2/feeds/1/entries.json?page=`, the page links of the client's tests. */
  const FeedPath: string := "https://" + "api.feed" + "bin.com/" + "v2/feeds" + "/1/entri" + "es.json"
  const FeedEntries: string := FeedPath + "?" + PageKey
  const Page1: string := FeedEntries + "1"
  const Page2: string := FeedEntries + "2"
  const Page3: string := FeedEntries + "3"
  const Page5: string := FeedEntries + "5"

  /** The scheme, host and path of the page links hold none of the characters the parsers split or stop at. */
  lemma FeedPathClean()
    ensures forall c :: c in ",;>&?" ==> c !in FeedPath
  {
    var pieces := ["https://", "api.feed", "bin.com/", "v2/feeds", "/1/entri", "es.json"];
    assert FeedPath == pieces[0] + pieces[1] + pieces[2] + pieces[3] + pieces[4] + pieces[5];
    forall c | c in ",;>&?"
      ensures c !in FeedPath
    {
      assert forall i :: 0 <= i < 6 ==> c !in pieces[i];
    }
  }

  lemma FeedEntriesClean()
    ensures ',' !in FeedEntries && ';' !in FeedEntries && '>' !in FeedEntries
  {
    FeedPathClean();
    assert FeedEntries == FeedPath + ("?" + PageKey);
  }

  lemma PageLinkSeparable(d: char, rel: string)
    requires IsDigit(d) && IsKnownRel(rel)
    ensures Separable(LinkMatch(FeedEntries + [d], rel))
  {
    FeedEntriesClean();
  }

  /** The empty header leaves every field empty. */
  lemma EmptyHeaderNoLinks()
    ensures ParsedLinks("") == NoLinks
  {
    SegmentsOne("", SegmentLink);
  }

  /** A "next and last" header sets exactly those two fields. */
  lemma NextAndLastHeader()
    ensures ParsedLinks(RenderAll([LinkMatch(Page2, "next"), LinkMatch(Page5, "last")]))
      == Links("", "", Page2, Page5)
  {
    var ms := [LinkMatch(Page2, "next"), LinkMatch(Page5, "last")];
    PageLinkSeparable('2', "next");
    PageLinkSeparable('5', "last");
    ParsesRenderedHeader(ms);
    LaterLinkOverwrites([], ms[0], KeepAll);
    LaterLinkOverwrites([ms[0]], ms[1], KeepAll);
    assert [] + [ms[0]] == [ms[0]] && [ms[0]] + [ms[1]] == ms;
  }

  /** Four links with the four relations in order set each field to its link's URL. */
  lemma RecordedInOrder(ms: seq<LinkMatch>)
    requires |ms| == 4
    requires ms[0].rel == "first" && ms[1].rel == "prev" && ms[2].rel == "next" && ms[3].rel == "last"
    ensures Recorded(ms, KeepAll) == Links(ms[0].url, ms[1].url, ms[2].url, ms[3].url)
  {
    LaterLinkOverwrites([], ms[0], KeepAll);
    LaterLinkOverwrites(ms[..1], ms[1], KeepAll);
    LaterLinkOverwrites(ms[..2], ms[2], KeepAll);
    LaterLinkOverwrites(ms[..3], ms[3], KeepAll);
    assert [] + [ms[0]] == ms[..1] && ms[..1] + [ms[1]] == ms[..2];
    assert ms[..2] + [ms[2]] == ms[..3] && ms[..3] + [ms[3]] == ms;
  }

  /** A header with all four relations sets all four fields. */
  lemma AllLinksHeader()
    ensures ParsedLinks(RenderAll([LinkMatch(Page1, "first"), LinkMatch(Page1, "prev"),
                                   LinkMatch(Page3, "next"), LinkMatch(Page5, "last")]))
      == Links(Page1, Page1, Page3, Page5)
  {
    var ms := [LinkMatch(Page1, "first"), LinkMatch(Page1, "prev"),
               LinkMatch(Page3, "next"), LinkMatch(Page5, "last")];
    PageLinkSeparable('1', "first");
    PageLinkSeparable('1', "prev");
    PageLinkSeparable('3', "next");
    PageLinkSeparable('5', "last");
    ParsesRenderedHeader(ms);
    RecordedInOrder(ms);
  }

  // ---------------------------------------------------------------------------
  // client.go: GetTotalRecordCount and CheckResponse
  // ---------------------------------------------------------------------------

  /**
   * `GetTotalRecordCount`: 0 without the header; otherwise what
   * `Sscanf("%d")` reads, and 0 when it reads nothing.
   */
  function TotalRecordCount(h: Header): (n: int)
    ensures Get(h, RecordCountHeader) == "" ==> n == 0
    ensures ScanInt(Get(h, RecordCountHeader)).None? ==> n == 0
    ensures ScanInt(Get(h, RecordCountHeader)).Some? ==> n == ScanInt(Get(h, RecordCountHeader)).value
  {
    var s := Get(h, RecordCountHeader);
    if s == "" then 0
    else match ScanInt(s)
      case Some(v) => v
      case None => 0
  }

  /** A header of decimal digits alone is read exactly as `strconv.Atoi` would read it. */
  lemma TotalRecordCountOfDigits(h: Header)
    requires |Get(h, RecordCountHeader)| > 0 && AllDigits(Get(h, RecordCountHeader))
    requires Atoi(Get(h, RecordCountHeader)).Some?
    ensures TotalRecordCount(h) == Atoi(Get(h, RecordCountHeader)).value
  {
    ScanIntOfDigits(Get(h, RecordCountHeader));
  }

  /** `ErrorResponse` without its response back-pointer. */
  datatype ErrorResponse = ErrorResponse(statusCode: int, message: string)

  /**
   * `CheckResponse`: no error exactly for 2xx; otherwise the message is the
   * body, or the status line when the body cannot be read.
   */
  function CheckResponse(resp: Response): (r: Option<ErrorResponse>)
    ensures r.None? <==> Is2xx(resp.statusCode)
    ensures r.Some? ==> r.value.statusCode == resp.statusCode
    ensures r.Some? && !resp.bodyReadFails ==> r.value.message == resp.body
    ensures r.Some? && resp.bodyReadFails ==> r.value.message == resp.status
  {
    if Is2xx(resp.statusCode) then None
    else if resp.bodyReadFails then Some(ErrorResponse(resp.statusCode, resp.status))
    else Some(ErrorResponse(resp.statusCode, resp.body))
  }

  // ---------------------------------------------------------------------------
  // extract.go: Extract
  // ---------------------------------------------------------------------------

  /**
   * The URL `Extract` requests: the hexadecimal HMAC-SHA1 of the page URL
   * keyed by the secret, and the page URL in padded URL-safe base64.
   */
  function ExtractUrl(hmac: HmacSha1, username: string, secret: string, pageUrl: string): string
  {
    "https://extract.feedbin.com/parser/" + username + "/" + Hex(hmac(Utf8(secret), Utf8(pageUrl)))
      + "?base64_url=" + EncodePadded(Utf8(pageUrl))
  }

  /**
   * The two extract clients build the same URL except for base64 padding:
   * this one keeps the '=' characters the other strips.
   */
  lemma ExtractUrlKeepsPadding(hmac: HmacSha1, username: string, secret: string, pageUrl: string)
    ensures ExtractUrl(hmac, username, secret, pageUrl) ==
      CascadeGemini.ExtractUrl(hmac, username, secret, pageUrl) + Padding(|Utf8(pageUrl)|)
  {
    var bytes := Utf8(pageUrl);
    var sig := Hex(hmac(Utf8(secret), bytes));
    assert CascadeGemini.Signature(hmac, secret, pageUrl) == sig;
    assert CascadeGemini.EncodeBase64UrlSafe(pageUrl) == EncodeRaw(bytes);
    assert EncodePadded(bytes) == EncodeRaw(bytes) + Padding(|bytes|);
    PaddingSpliced(username, sig, EncodeRaw(bytes), Padding(|bytes|));
  }

  lemma PaddingSpliced(username: string, sig: string, raw: string, pad: string)
    ensures "https://extract.feedbin.com/parser/" + username + "/" + sig + "?base64_url=" + (raw + pad)
      == (CascadeGemini.ExtractBaseUrl + username + "/") + (sig + ("?base64_url=" + raw)) + pad
  {
  }

  /** What `Extract` returns once the request is sent. */
  datatype ExtractResult<T> = Article(value: T) | ExtractFailed(message: string)

  /**
   * `Extract` after the exchange: any status other than 200 is an error
   * naming the status, and so is any decoding failure, an empty body included.
   */
  function ExtractOutcome<T>(resp: Response, decode: string -> Decoded<T>): (r: ExtractResult<T>)
    ensures resp.statusCode != 200 ==> r == ExtractFailed("extract service returned status code " + Itoa(resp.statusCode))
    ensures r.Article? <==> resp.statusCode == 200 && decode(resp.body).Decoded?
    ensures r.Article? ==> r.value == decode(resp.body).value
  {
    if resp.statusCode != 200 then
      ExtractFailed("extract service returned status code " + Itoa(resp.statusCode))
    else match decode(resp.body)
      case Decoded(v) => Article(v)
      case DecodeEOF => ExtractFailed("EOF")
      case DecodeFailed(reason) => ExtractFailed(reason)
  }
}
