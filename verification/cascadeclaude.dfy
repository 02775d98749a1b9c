/**
 * The client in `jetbrains-cascade-claude3.7-thinking`: its typed error
 * taxonomy, its map-based `Link` header parser and record count (client.go),
 * and the query builder of the entries service (entries.go).
 */
module CascadeClaude {
  import opened GoText
  import opened HttpModel
  import opened LinkPattern
  import opened LinkSegments
  import opened Pagination
  import opened IdLists
  import CG = CursorGemini
  import AugmentCode

  const RecordCountHeader: string := "X-Feedbin-Record-Count"
  const MaxQueryIds: nat := 100

  // ---------------------------------------------------------------------------
  // client.go: CheckResponse
  // ---------------------------------------------------------------------------

  /** `ErrorResponse` without its response back-pointer: the status and the JSON "error" field. */
  datatype ErrorResponse = ErrorResponse(statusCode: int, message: string)

  /** The error types `CheckResponse` can return, each wrapping an `ErrorResponse`. */
  datatype Failure =
    | AuthError(response: ErrorResponse)
    | ForbiddenError(response: ErrorResponse)
    | NotFoundError(response: ErrorResponse)
    | RateLimitError(response: ErrorResponse)
    | PlainError(response: ErrorResponse)

  /**
   * `CheckResponse`: nil for 2xx; otherwise the body's JSON "error" field
   * (`jsonError`, "" when the body is not such JSON or cannot be read) wrapped
   * by status: 401, 403, 404 and 429 have their own types, any other status
   * gives the plain `ErrorResponse`.
   */
  function CheckResponse(resp: Response, jsonError: string -> string): (r: Option<Failure>)
    ensures r.None? <==> Is2xx(resp.statusCode)
    ensures r.Some? ==> r.value.response.statusCode == resp.statusCode
    ensures r.Some? ==> r.value.response.message == (if resp.bodyReadFails then "" else jsonError(resp.body))
    ensures r.Some? ==> (r.value.AuthError? <==> resp.statusCode == 401)
    ensures r.Some? ==> (r.value.ForbiddenError? <==> resp.statusCode == 403)
    ensures r.Some? ==> (r.value.NotFoundError? <==> resp.statusCode == 404)
    ensures r.Some? ==> (r.value.RateLimitError? <==> resp.statusCode == 429)
    ensures r.Some? ==> (r.value.PlainError? <==> resp.statusCode !in {401, 403, 404, 429})
  {
    if Is2xx(resp.statusCode) then None
    else
      var e := ErrorResponse(resp.statusCode, if resp.bodyReadFails then "" else jsonError(resp.body));
      match resp.statusCode
      case 401 => Some(AuthError(e))
      case 403 => Some(ForbiddenError(e))
      case 404 => Some(NotFoundError(e))
      case 429 => Some(RateLimitError(e))
      case _ => Some(PlainError(e))
  }

  /** This client and the augmentcode client fail on exactly the same responses. */
  lemma FailsLikeAugmentCode(resp: Response, jsonError: string -> string)
    ensures CheckResponse(resp, jsonError).Some? <==> AugmentCode.CheckResponse(resp).Some?
    ensures CheckResponse(resp, jsonError).Some? ==>
      CheckResponse(resp, jsonError).value.response.statusCode == AugmentCode.CheckResponse(resp).value.statusCode
  {
  }

  // ---------------------------------------------------------------------------
  // client.go: parseLinkHeader
  // ---------------------------------------------------------------------------

  /**
   * One comma-separated piece: at least two ';' parts, the URL being the
   * first part trimmed of white space and then of every '<' and '>' at either
   * end, and the rel what follows the first '=' of the trimmed second part
   * (up to any second '='), trimmed of '"' at either end.
   */
  function RelSegment(part: string): (r: Option<LinkMatch>)
    ensures r.Some? ==> |Split(part, ';')| >= 2
  {
    var section := Split(part, ';');
    if |section| < 2 then None
    else
      var url := Trim(TrimSpace(section[0]), "<>");
      var relParts := Split(TrimSpace(section[1]), '=');
      if |relParts| < 2 then None
      else Some(LinkMatch(url, Trim(relParts[1], "\"")))
  }

  /** The map after storing each link's URL under its rel, in order. */
  function RelMap(ms: seq<LinkMatch>): map<string, string>
  {
    if |ms| == 0 then map[]
    else RelMap(ms[..|ms| - 1])[ms[|ms| - 1].rel := ms[|ms| - 1].url]
  }

  /**
   * `parseLinkHeader`: an empty header gives an empty map; otherwise every
   * readable piece stores its URL under its rel, whatever the rel is.
   */
  method ParseLinkHeader(header: string) returns (links: map<string, string>)
    ensures links == RelMap(Segments(Split(header, ','), RelSegment))
    ensures header == "" ==> links == map[]
  {
    links := map[];
    if header == "" {
      EmptyHeaderNoRels();
      return;
    }
    var parts := Split(header, ',');
    var i := 0;
    while i < |parts|
      invariant 0 <= i <= |parts|
      invariant links == RelMap(Segments(parts[..i], RelSegment))
    {
      // the body of the loop reads one piece as `RelSegment` does
      var link := RelSegment(parts[i]);
      RelMapStep(parts, i, link, links);
      links := StoreRel(links, link);
      i := i + 1;
    }
    assert parts[..i] == parts;
  }

  lemma EmptyHeaderNoRels()
    ensures RelMap(Segments(Split("", ','), RelSegment)) == map[]
  {
    SegmentsOne("", RelSegment);
  }

  /** The map after one piece: its link, if it has one, stored under its rel. */
  function StoreRel(links: map<string, string>, link: Option<LinkMatch>): map<string, string>
  {
    if link.Some? then links[link.value.rel := link.value.url] else links
  }

  /** One more piece of the header stores the link it reads, if any, and changes nothing else. */
  lemma RelMapStep(parts: seq<string>, i: int, link: Option<LinkMatch>, links: map<string, string>)
    requires 0 <= i < |parts| && link == RelSegment(parts[i])
    requires links == RelMap(Segments(parts[..i], RelSegment))
    ensures StoreRel(links, link) == RelMap(Segments(parts[..i + 1], RelSegment))
  {
    SegmentsSnoc(parts, i, RelSegment);
    var done := Segments(parts[..i], RelSegment);
    if link.Some? {
      assert (done + [link.value])[..|done|] == done;
    } else {
      assert done + [] == done;
    }
  }

  /**
   * A rel is in the map exactly when some link carries it, and then it holds
   * the URL of the last such link: what the switch-based parsers store.
   */
  lemma {:induction false} RelMapHoldsLast(ms: seq<LinkMatch>, rel: string)
    ensures rel in RelMap(ms) <==> exists i :: 0 <= i < |ms| && ms[i].rel == rel
    ensures rel in RelMap(ms) ==> RelMap(ms)[rel] == LastUrlFor(ms, rel, KeepAll)
    ensures rel !in RelMap(ms) ==> LastUrlFor(ms, rel, KeepAll) == ""
  {
    if |ms| > 0 {
      var init := ms[..|ms| - 1];
      RelMapHoldsLast(init, rel);
      if ms[|ms| - 1].rel != rel {
        if exists i :: 0 <= i < |ms| && ms[i].rel == rel {
          var i :| 0 <= i < |ms| && ms[i].rel == rel;
          assert init[i] == ms[i];
        }
        if exists i :: 0 <= i < |init| && init[i].rel == rel {
          var i :| 0 <= i < |init| && init[i].rel == rel;
          assert ms[i] == init[i];
        }
      }
    }
  }

  /** `links[rel]` on a Go map: "" for a missing key. */
  function LinkOr(links: map<string, string>, rel: string): string
  {
    if rel in links then links[rel] else ""
  }

  /** The pagination `List` and `ListFeedEntries` return. */
  datatype PaginationInfo = PaginationInfo(links: Links, totalCount: int)

  /**
   * The pagination part of `List`: the record count, and the four links read
   * from the map of the `Link` header when there is one. The four fields are
   * exactly what the switch-based parsers record from the same pieces.
   */
  function PaginationOf(h: Header): (p: PaginationInfo)
    ensures p.totalCount == RecordCount(h)
    ensures p.links == Recorded(Segments(Split(Get(h, "Link"), ','), RelSegment), KeepAll)
  {
    var header := Get(h, "Link");
    var ms := Segments(Split(header, ','), RelSegment);
    var links := RelMap(ms);
    RelMapHoldsLast(ms, "first");
    RelMapHoldsLast(ms, "prev");
    RelMapHoldsLast(ms, "next");
    RelMapHoldsLast(ms, "last");
    SegmentsOne("", RelSegment);
    var found := if header != "" then
        Links(LinkOr(links, "first"), LinkOr(links, "prev"), LinkOr(links, "next"), LinkOr(links, "last"))
      else NoLinks;
    PaginationInfo(found, RecordCount(h))
  }

  lemma UrlOfPiece(m: LinkMatch, sp: string)
    requires Separable(m) && '<' !in m.url && (sp == "" || sp == " ")
    ensures Trim(TrimSpace(sp + ("<" + (m.url + ">"))), "<>") == m.url
  {
    SpacedUrl(m.url, sp);
    BracketsTrimmed(m.url);
  }

  lemma SpacedRel(rel: string)
    ensures TrimSpace(" " + (RelOpen + rel + "\"")) == RelOpen + rel + "\""
  {
    var attr := RelOpen + rel + "\"";
    assert attr[0] == 'r' && attr[|attr| - 1] == '"';
    TrimSpaceAfterSpaces(" ", attr);
  }

  lemma RelAttrSplit(rel: string)
    requires '=' !in rel
    ensures Split(RelOpen + rel + "\"", '=') == ["rel", "\"" + rel + "\""]
  {
    var quoted := "\"" + rel + "\"";
    assert RelOpen + rel + "\"" == "rel" + ['='] + quoted;
    assert '=' !in quoted;
    SplitFirst("rel", quoted, '=');
    SplitWithoutSeparator(quoted, '=');
  }

  lemma RelOfPiece(rel: string)
    requires |rel| > 0 && '"' !in rel && '=' !in rel
    ensures |Split(TrimSpace(" " + (RelOpen + rel + "\"")), '=')| >= 2
    ensures Trim(Split(TrimSpace(" " + (RelOpen + rel + "\"")), '=')[1], "\"") == rel
  {
    SpacedRel(rel);
    RelAttrSplit(rel);
    assert "\"" + rel + "\"" == ['"'] + rel + ['"'];
    TrimEnclosed('"', rel, '"', "\"");
  }

  /** A link whose URL holds no '<' and whose rel holds no '=' is read back whole. */
  lemma RelSegmentOfPiece(m: LinkMatch, sp: string)
    requires Separable(m) && '<' !in m.url && '=' !in m.rel && (sp == "" || sp == " ")
    ensures RelSegment(sp + Piece(m)) == Some(m)
  {
    PieceHalves(m, sp);
    UrlOfPiece(m, sp);
    RelOfPiece(m.rel);
  }

  /**
   * On a header of links written `<url>; rel="rel"` and separated by `, `,
   * the map holds every rel of the header, known or not, with the URL of
   * its last link, and nothing else.
   */
  lemma ParsesRenderedHeader(ms: seq<LinkMatch>)
    requires |ms| > 0
    requires forall i :: 0 <= i < |ms| ==> Separable(ms[i]) && '<' !in ms[i].url && '=' !in ms[i].rel
    ensures Segments(Split(RenderAll(ms), ','), RelSegment) == ms
    ensures forall rel :: rel in RelMap(ms) <==> exists i :: 0 <= i < |ms| && ms[i].rel == rel
  {
    forall i | 0 <= i < |ms|
      ensures RelSegment(Piece(ms[i])) == Some(ms[i]) && RelSegment(" " + Piece(ms[i])) == Some(ms[i])
    {
      RelSegmentOfPiece(ms[i], "");
      RelSegmentOfPiece(ms[i], " ");
      assert "" + Piece(ms[i]) == Piece(ms[i]);
    }
    SplitRenderedAll(ms, RelSegment);
    forall rel | true
      ensures rel in RelMap(ms) <==> exists i :: 0 <= i < |ms| && ms[i].rel == rel
    {
      RelMapHoldsLast(ms, rel);
    }
  }

  // ---------------------------------------------------------------------------
  // client.go: extractRecordCount
  // ---------------------------------------------------------------------------

  /** `extractRecordCount`: the header read with `strconv.Atoi`, and 0 when it is missing or not a number. */
  function RecordCount(h: Header): (n: int)
    ensures Atoi(Get(h, RecordCountHeader)).None? ==> n == 0
    ensures Atoi(Get(h, RecordCountHeader)).Some? ==> n == Atoi(Get(h, RecordCountHeader)).value
  {
    var s := Get(h, RecordCountHeader);
    if s == "" then 0
    else match Atoi(s)
      case Some(v) => v
      case None => 0
  }

  /** On a header of digits alone, this count and the augmentcode count agree. */
  lemma CountsAgreeOnDigits(h: Header)
    requires |Get(h, RecordCountHeader)| > 0 && AllDigits(Get(h, RecordCountHeader))
    requires Atoi(Get(h, RecordCountHeader)).Some?
    ensures RecordCount(h) == AugmentCode.TotalRecordCount(h)
  {
    AugmentCode.TotalRecordCountOfDigits(h);
  }

  /** Text after the digits makes this count 0, where `Sscanf` in the augmentcode client reads the digits. */
  lemma CountsDifferOnTrailingText()
    ensures RecordCount(map[RecordCountHeader := "12abc"]) == 0
    ensures AugmentCode.TotalRecordCount(map[RecordCountHeader := "12abc"]) == 12
  {
    var h := map[RecordCountHeader := "12abc"];
    assert Get(h, RecordCountHeader) == "12abc";
    assert !IsDigit("12abc"[2]);
    ScanIntIgnoresTrailingText();
  }

  // ---------------------------------------------------------------------------
  // entries.go: addEntryOptions
  // ---------------------------------------------------------------------------

  /**
   * `EntryListOptions`, with Go's zero values: 0 for `page` and `perPage`,
   * "" for `mode`, false for the `include*` flags, and `None` for a zero
   * `Since` (which is otherwise passed already formatted).
   */
  datatype EntryListOptions = EntryListOptions(
    page: int,
    since: Option<string>,
    ids: seq<int>,
    read: Option<bool>,
    starred: Option<bool>,
    perPage: int,
    mode: string,
    includeOriginal: bool,
    includeEnclosure: bool,
    includeContentDiff: bool)

  function Flag(b: bool): Option<string>
  {
    if b then Some("true") else None
  }

  /**
   * The value `addEntryOptions` writes under `key`, or `None` when it leaves
   * the key alone: numbers only when positive, `mode` only when non-empty,
   * the `include_*` flags as "true" only when set, and `ids` only when there
   * are some.
   */
  function EntryParam(o: EntryListOptions, key: string): Option<string>
  {
    if key == "page" then (if o.page > 0 then Some(Itoa(o.page)) else None)
    else if key == "since" then o.since
    else if key == "ids" then (if |o.ids| > 0 then Some(IdsValue(o.ids)) else None)
    else if key == "read" then CG.BoolParam(o.read)
    else if key == "starred" then CG.BoolParam(o.starred)
    else if key == "per_page" then (if o.perPage > 0 then Some(Itoa(o.perPage)) else None)
    else if key == "mode" then (if o.mode != "" then Some(o.mode) else None)
    else if key == "include_original" then Flag(o.includeOriginal)
    else if key == "include_enclosure" then Flag(o.includeEnclosure)
    else if key == "include_content_diff" then Flag(o.includeContentDiff)
    else None
  }

  /** The cursor-gemini options with a field set exactly where this struct's field is not its zero value. */
  function AsPointerOptions(o: EntryListOptions): CG.ListEntriesOptions
  {
    CG.ListEntriesOptions(
      if o.page > 0 then Some(o.page) else None,
      o.since, o.ids, o.read, o.starred,
      if o.perPage > 0 then Some(o.perPage) else None,
      if o.mode != "" then Some(o.mode) else None,
      if o.includeOriginal then Some(true) else None,
      if o.includeEnclosure then Some(true) else None,
      if o.includeContentDiff then Some(true) else None)
  }

  /**
   * Writing a zero value as "absent" is the only difference from the
   * cursor-gemini entry query: both write the same value under every key.
   */
  lemma EntryParamAsPointerOptions(o: EntryListOptions, key: string)
    ensures EntryParam(o, key) == CG.Param(CG.ListEntries(Some(AsPointerOptions(o))), key)
  {
    var p := AsPointerOptions(o);
    var sel, st := CG.SelectionParam(p, key), CG.StateParam(p, key);
    var content := CG.ContentParam(p.mode, p.includeOriginal, p.includeEnclosure, p.includeContentDiff, key);
    assert CG.Param(CG.ListEntries(Some(p)), key) == CG.Later(CG.Later(sel, st), content);
    if key == "page" || key == "since" || key == "ids" {
      assert st == None && content == None;
    } else if key == "read" || key == "starred" || key == "per_page" {
      assert sel == None && content == None;
    } else {
      assert sel == None && st == None;
    }
  }

  /** Options with every field at its zero value write no key at all. */
  lemma ZeroOptionsWriteNothing(key: string)
    ensures EntryParam(EntryListOptions(0, None, [], None, None, 0, "", false, false, false), key) == None
  {
  }

  /** What `addEntryOptions` returns: `s` itself (with or without an error) or `s` with a new query. */
  datatype Target =
    | Unchanged          // nil options: `s` and no error
    | InvalidUrl         // `url.Parse(s)` failed: `s` with the error
    | TooManyIds         // more than 100 ids: `s` with the error
    | WithQuery(url: Url)

  /**
   * `addEntryOptions`: nil options return the path unchanged; more than 100
   * ids is an error; otherwise the query `s` already had is kept, and every
   * key the options write is replaced by its value. `parsed` is the outcome of
   * `url.Parse(s)`. The key-by-key updates are those of the cursor-gemini
   * entry query, after zero values are mapped to absent fields.
   */
  method AddEntryOptions(parsed: Option<Url>, opts: Option<EntryListOptions>) returns (r: Target)
    ensures opts.None? ==> r == Unchanged
    ensures opts.Some? && parsed.None? ==> r == InvalidUrl
    ensures opts.Some? && parsed.Some? ==> (r == TooManyIds <==> |opts.value.ids| > MaxQueryIds)
    ensures opts.Some? && parsed.Some? && |opts.value.ids| <= MaxQueryIds ==> r.WithQuery?
    ensures r.WithQuery? ==> opts.Some? && parsed.Some? && r.url.base == parsed.value.base
    ensures r.WithQuery? ==>
      forall k :: Lookup(r.url.query, k) == CG.After(parsed.value.query, k, EntryParam(opts.value, k))
  {
    if opts.None? {
      return Unchanged;
    }
    if parsed.None? {
      return InvalidUrl;
    }
    var o := opts.value;
    if |o.ids| > MaxQueryIds {
      return TooManyIds;
    }
    var q := CG.SetEntriesQuery(parsed.value.query, AsPointerOptions(o));
    forall k | true
      ensures Lookup(q, k) == CG.After(parsed.value.query, k, EntryParam(o, k))
    {
      EntryParamAsPointerOptions(o, k);
    }
    r := WithQuery(Url(parsed.value.base, q));
  }
}
