/**
 * The `claude-code` client (client.go, utils.go): page numbers read from the
 * `Link` header, the pagination of a response, the query of a list call,
 * and `SplitIDList`.
 */
module ClaudeCode {
  import opened GoText
  import opened HttpModel
  import opened LinkPattern
  import opened LinkSegments
  import opened Pagination
  import opened IdLists
  import opened JuniePagination
  import opened AugmentCode
  import CascadeGemini

  // ---------------------------------------------------------------------------
  // parseLink
  // ---------------------------------------------------------------------------

  /** `linkRegex.FindStringSubmatch` on one comma-separated piece: its leftmost link. */
  function FirstLink(part: string): (r: Option<LinkMatch>)
  {
    var ms := FindAll(part);
    if |ms| == 0 then None else Some(ms[0])
  }

  /**
   * `strconv.Atoi` on a run of digits with its error ignored: a value too
   * large for 64 bits comes back as the largest 64-bit value.
   */
  function PageNumber(d: string): (n: int)
    requires |d| > 0 && AllDigits(d)
    ensures Atoi(d).Some? ==> n == Atoi(d).value
    ensures Atoi(d).None? ==> n == MaxInt64
    ensures 0 <= n <= MaxInt64
  {
    match Atoi(d)
    case Some(v) => v
    case None => MaxInt64
  }

  /** The page number of a link's URL, if its query has a numeric `page` parameter. */
  function PageOf(url: string): Option<int>
  {
    match FindQueryPageDigits(url)
    case None => None
    case Some(d) => Some(PageNumber(d))
  }

  /** `PaginationInfo`: a page number per known relation, and the record count. */
  datatype PageInfo = PageInfo(nextPage: Option<int>, previousPage: Option<int>,
                               firstPage: Option<int>, lastPage: Option<int>, totalCount: int)

  const NoPages: PageInfo := PageInfo(None, None, None, None, 0)

  /** The switch of `parseLink`: a known relation's field takes the page number, any other leaves all as they were. */
  function StorePage(info: PageInfo, rel: string, n: int): PageInfo
  {
    match rel
    case "next" => info.(nextPage := Some(n))
    case "prev" => info.(previousPage := Some(n))
    case "first" => info.(firstPage := Some(n))
    case "last" => info.(lastPage := Some(n))
    case _ => info
  }

  /** The page numbers `parseLink` records from the links it reads, in order. */
  function Pages(ms: seq<LinkMatch>): PageInfo
  {
    if |ms| == 0 then NoPages
    else
      var m := ms[|ms| - 1];
      match PageOf(m.url)
      case None => Pages(ms[..|ms| - 1])
      case Some(n) => StorePage(Pages(ms[..|ms| - 1]), m.rel, n)
  }

  /**
   * One more link read: a link whose URL has no numeric `page` parameter
   * changes nothing; otherwise its page number goes to its relation's field.
   */
  lemma PagesSnoc(ms: seq<LinkMatch>, m: LinkMatch)
    ensures PageOf(m.url).None? ==> Pages(ms + [m]) == Pages(ms)
    ensures PageOf(m.url).Some? ==> Pages(ms + [m]) == StorePage(Pages(ms), m.rel, PageOf(m.url).value)
  {
    assert (ms + [m])[..|ms|] == ms;
  }

  /**
   * `parseLink`: no information for an empty header; otherwise, piece by
   * comma-separated piece, the first link of the piece, kept when its URL
   * has a `page` number, stored under its relation when that is one of the four.
   */
  method ParseLink(header: string) returns (info: Option<PageInfo>)
    ensures header == "" <==> info.None?
    ensures info.Some? ==> info.value == Pages(Segments(Split(header, ','), FirstLink))
  {
    if header == "" {
      return None;
    }
    var parts := Split(header, ',');
    var acc := NoPages;
    var i := 0;
    while i < |parts|
      invariant 0 <= i <= |parts|
      invariant acc == Pages(Segments(parts[..i], FirstLink))
    {
      SegmentsSnoc(parts, i, FirstLink);
      var done := Segments(parts[..i], FirstLink);
      var link := FirstLink(parts[i]);
      if link.Some? {
        PagesSnoc(done, link.value);
        var digits := FindQueryPageDigits(link.value.url);
        if digits.Some? {
          var pageNum := PageNumber(digits.value);
          match link.value.rel {
            case "next" => acc := acc.(nextPage := Some(pageNum));
            case "prev" => acc := acc.(previousPage := Some(pageNum));
            case "first" => acc := acc.(firstPage := Some(pageNum));
            case "last" => acc := acc.(lastPage := Some(pageNum));
            case _ =>
          }
        }
      } else {
        assert done + Found(link) == done;
      }
      i := i + 1;
    }
    assert parts[..i] == parts;
    return Some(acc);
  }

  /** A URL the page switch keeps: one with a numeric `page` query parameter. */
  predicate HasPage(url: string)
  {
    PageOf(url).Some?
  }

  /** The page number of a stored URL, none for the empty string that stands for "no link". */
  function PageOfStored(url: string): Option<int>
  {
    if url == "" then None else PageOf(url)
  }

  /**
   * The page numbers agree with the URLs the URL-storing parsers record
   * when they skip URLs without a page: each field is the page number of
   * the last link of that relation that has one.
   */
  lemma {:induction false} PagesAgreeWithRecorded(ms: seq<LinkMatch>)
    requires forall i :: 0 <= i < |ms| ==> |ms[i].url| > 0
    ensures Pages(ms).nextPage == PageOfStored(Recorded(ms, HasPage).next)
    ensures Pages(ms).previousPage == PageOfStored(Recorded(ms, HasPage).prev)
    ensures Pages(ms).firstPage == PageOfStored(Recorded(ms, HasPage).first)
    ensures Pages(ms).lastPage == PageOfStored(Recorded(ms, HasPage).last)
    ensures Pages(ms).totalCount == 0
  {
    FieldAgrees(ms, "next");
    FieldAgrees(ms, "prev");
    FieldAgrees(ms, "first");
    FieldAgrees(ms, "last");
    NoTotalCount(ms);
  }

  /** The field of `info` that relation `rel` fills. */
  function PageField(info: PageInfo, rel: string): Option<int>
    requires IsKnownRel(rel)
  {
    if rel == "next" then info.nextPage
    else if rel == "prev" then info.previousPage
    else if rel == "first" then info.firstPage
    else info.lastPage
  }

  lemma StorePageField(info: PageInfo, r: string, n: int, rel: string)
    requires IsKnownRel(rel)
    ensures PageField(StorePage(info, r, n), rel) == if r == rel then Some(n) else PageField(info, rel)
  {
  }

  lemma {:induction false} FieldAgrees(ms: seq<LinkMatch>, rel: string)
    requires IsKnownRel(rel)
    requires forall i :: 0 <= i < |ms| ==> |ms[i].url| > 0
    ensures PageField(Pages(ms), rel) == PageOfStored(LastUrlFor(ms, rel, HasPage))
  {
    if |ms| > 0 {
      var init := ms[..|ms| - 1];
      var m := ms[|ms| - 1];
      FieldAgrees(init, rel);
      assert init + [m] == ms;
      PagesSnoc(init, m);
      if PageOf(m.url).Some? {
        StorePageField(Pages(init), m.rel, PageOf(m.url).value, rel);
      }
    }
  }

  lemma {:induction false} NoTotalCount(ms: seq<LinkMatch>)
    ensures Pages(ms).totalCount == 0
  {
    if |ms| > 0 {
      var init := ms[..|ms| - 1];
      NoTotalCount(init);
      assert init + [ms[|ms| - 1]] == ms;
      PagesSnoc(init, ms[|ms| - 1]);
    }
  }

  /** A link as the client's tests write it is read back by the first-link step, with or without a leading space. */
  lemma FirstLinkOfPiece(m: LinkMatch)
    requires WellFormed(m)
    ensures FirstLink(Piece(m)) == Some(m) && FirstLink(" " + Piece(m)) == Some(m)
  {
    FindAllRenderedThen(m, "");
    RenderThenIsPiece(m, "");
    assert Piece(m) + "" == Piece(m);
    FindAllSkipsText(" ", Piece(m));
  }

  /** The page links of the client's tests carry the page digit they end with. */
  lemma FeedPageOf(d: char)
    requires IsDigit(d)
    ensures PageOf(FeedEntries + [d]) == Some(DigitValue(d))
  {
    FeedPathClean();
    var q := ['?'] + PageKey + [d];
    assert FeedEntries + [d] == FeedPath + q;
    QuerySkipsPlain(FeedPath, q);
    assert q[1..][..|PageKey|] == PageKey;
    assert q[1 + |PageKey|..] == [d];
    assert LeadingCount([d], IsDigit) == 1;
    assert [d][..1] == [d];
    assert DigitsValue([d]) == DigitValue(d) by {
      assert [d][..0] == [];
    }
  }

  /**
   * The header of the client's test, a `next` link to page 2 and a `last`
   * link to page 5, gives next page 2 and last page 5 and nothing else.
   */
  lemma NextAndLastPages()
    ensures Pages(Segments(Split(RenderAll([LinkMatch(Page2, "next"), LinkMatch(Page5, "last")]), ','), FirstLink))
      == PageInfo(Some(2), None, None, Some(5), 0)
  {
    var ms := [LinkMatch(Page2, "next"), LinkMatch(Page5, "last")];
    TestHeaderLinks(ms);
    FeedPageOf('2');
    FeedPageOf('5');
    PagesSnoc([], ms[0]);
    PagesSnoc([ms[0]], ms[1]);
    assert [ms[0]] + [ms[1]] == ms;
  }

  /** A header of well-formed, separable links is read back link by link, in order. */
  lemma RenderedLinksRead(ms: seq<LinkMatch>)
    requires |ms| > 0
    requires forall i :: 0 <= i < |ms| ==> Separable(ms[i]) && WellFormed(ms[i])
    ensures Segments(Split(RenderAll(ms), ','), FirstLink) == ms
  {
    forall i | 0 <= i < |ms|
      ensures FirstLink(Piece(ms[i])) == Some(ms[i]) && FirstLink(" " + Piece(ms[i])) == Some(ms[i])
    {
      FirstLinkOfPiece(ms[i]);
    }
    SplitRenderedAll(ms, FirstLink);
  }

  lemma TestHeaderLinks(ms: seq<LinkMatch>)
    requires ms == [LinkMatch(Page2, "next"), LinkMatch(Page5, "last")]
    ensures Segments(Split(RenderAll(ms), ','), FirstLink) == ms
  {
    PageLinkSeparable('2', "next");
    PageLinkSeparable('5', "last");
    assert WellFormed(ms[0]) && WellFormed(ms[1]);
    RenderedLinksRead(ms);
  }

  // ---------------------------------------------------------------------------
  // GetPagination
  // ---------------------------------------------------------------------------

  /**
   * `GetPagination`: no information without a `Link` header; otherwise the
   * page numbers, and the record count when that header holds a number
   * (0 otherwise). The count is not read at all without a `Link` header.
   */
  method GetPagination(h: Header) returns (info: Option<PageInfo>)
    ensures info.None? <==> Get(h, "Link") == ""
    ensures info.Some? ==> info.value.totalCount == (if Atoi(Get(h, "X-Feedbin-Record-Count")).Some?
                                                     then Atoi(Get(h, "X-Feedbin-Record-Count")).value else 0)
    ensures info.Some? ==> info.value.(totalCount := 0) == Pages(Segments(Split(Get(h, "Link"), ','), FirstLink))
  {
    info := ParseLink(Get(h, "Link"));
    if info.Some? {
      PagesCountZero(Segments(Split(Get(h, "Link"), ','), FirstLink));
      var countStr := Get(h, "X-Feedbin-Record-Count");
      if countStr != "" {
        var count := Atoi(countStr);
        if count.Some? {
          info := Some(info.value.(totalCount := count.value));
        }
      }
    }
  }

  lemma {:induction false} PagesCountZero(ms: seq<LinkMatch>)
    ensures Pages(ms).totalCount == 0
  {
    if |ms| > 0 {
      PagesCountZero(ms[..|ms| - 1]);
    }
  }

  // ---------------------------------------------------------------------------
  // addQueryParams
  // ---------------------------------------------------------------------------

  /** `ListOptions`; `since` is the formatted time, absent for the zero time. */
  datatype ListOptions = ListOptions(page: int, since: Option<string>)

  /**
   * `addQueryParams`: nil options return the path unchanged and a path
   * that does not parse returns it with the error; otherwise the query the
   * path already had is kept and `page` (when positive) and `since` (when
   * set) are added to it. `parsed` is the outcome of `url.Parse`.
   */
  method AddQueryParams(parsed: Option<Url>, options: Option<ListOptions>) returns (r: CascadeGemini.Target)
    ensures options.None? ==> r == CascadeGemini.Unchanged
    ensures options.Some? && parsed.None? ==> r == CascadeGemini.InvalidUrl
    ensures options.Some? && parsed.Some? ==> r.WithQuery? && r.url.base == parsed.value.base
    ensures r.WithQuery? ==> forall k :: k != "page" && k != "since" ==> Lookup(r.url.query, k) == Lookup(parsed.value.query, k)
    ensures r.WithQuery? ==>
      Lookup(r.url.query, "page") ==
        (if options.value.page > 0 then Some(Existing(parsed.value.query, "page") + [Itoa(options.value.page)])
         else Lookup(parsed.value.query, "page"))
    ensures r.WithQuery? ==>
      Lookup(r.url.query, "since") ==
        (if options.value.since.Some? then Some(Existing(parsed.value.query, "since") + [options.value.since.value])
         else Lookup(parsed.value.query, "since"))
  {
    if options.None? {
      return CascadeGemini.Unchanged;
    }
    if parsed.None? {
      return CascadeGemini.InvalidUrl;
    }
    var o := options.value;
    var q := parsed.value.query;
    if o.page > 0 {
      q := AddValue(q, "page", Itoa(o.page));
    }
    if o.since.Some? {
      q := AddValue(q, "since", o.since.value);
    }
    return CascadeGemini.WithQuery(Url(parsed.value.base, q));
  }

  /** The values a query already holds for `key`. */
  function Existing(q: Values, key: string): seq<string>
  {
    if key in q then q[key] else []
  }

  // ---------------------------------------------------------------------------
  // SplitIDList
  // ---------------------------------------------------------------------------

  /** One piece of the list: white space trimmed, empty pieces skipped, the rest read with `Sscanf("%d")`. */
  function IdOf(piece: string): Option<int>
  {
    var t := TrimSpace(piece);
    if t == "" then None else ScanInt(t)
  }

  /** The ids read from the pieces, in order, pieces that give none dropped. */
  function IdsOf(parts: seq<string>): (ids: seq<int>)
    ensures |ids| <= |parts|
  {
    if |parts| == 0 then []
    else
      var id := IdOf(parts[|parts| - 1]);
      IdsOf(parts[..|parts| - 1]) + (if id.Some? then [id.value] else [])
  }

  /** `SplitIDList`: no ids for the empty string, otherwise the ids of the comma-separated pieces. */
  method SplitIdList(list: string) returns (ids: seq<int>)
    ensures list == "" ==> ids == []
    ensures list != "" ==> ids == IdsOf(Split(list, ','))
    ensures |ids| <= |Split(list, ',')|
  {
    if list == "" {
      return [];
    }
    var strIds := Split(list, ',');
    ids := [];
    var i := 0;
    while i < |strIds|
      invariant 0 <= i <= |strIds|
      invariant ids == IdsOf(strIds[..i])
    {
      IdsOfStep(strIds, i);
      var idStr := TrimSpace(strIds[i]);
      if idStr != "" {
        var id := ScanInt(idStr);
        if id.Some? {
          ids := ids + [id.value];
        }
      }
      i := i + 1;
    }
    assert strIds[..i] == strIds;
  }

  lemma IdsOfSnoc(parts: seq<string>, piece: string)
    ensures IdsOf(parts + [piece]) == IdsOf(parts) + (if IdOf(piece).Some? then [IdOf(piece).value] else [])
  {
    assert (parts + [piece])[..|parts|] == parts;
  }

  lemma IdsOfStep(parts: seq<string>, i: int)
    requires 0 <= i < |parts|
    ensures TrimSpace(parts[i]) == "" ==> IdsOf(parts[..i + 1]) == IdsOf(parts[..i])
    ensures TrimSpace(parts[i]) != "" && ScanInt(TrimSpace(parts[i])).None? ==> IdsOf(parts[..i + 1]) == IdsOf(parts[..i])
    ensures TrimSpace(parts[i]) != "" && ScanInt(TrimSpace(parts[i])).Some? ==>
      IdsOf(parts[..i + 1]) == IdsOf(parts[..i]) + [ScanInt(TrimSpace(parts[i])).value]
  {
    assert parts[..i + 1] == parts[..i] + [parts[i]];
    IdsOfSnoc(parts[..i], parts[i]);
  }

  /** A piece that gives no id, blank or not a number, leaves the ids as they were. */
  lemma UnreadablePieceDropped(parts: seq<string>, piece: string)
    requires IdOf(piece).None?
    ensures IdsOf(parts + [piece]) == IdsOf(parts)
  {
    assert (parts + [piece])[..|parts|] == parts;
  }

  /** Each rendered id is read back as itself. */
  lemma IdOfItoa(n: int)
    requires InInt64(n)
    ensures IdOf(Itoa(n)) == Some(n)
  {
    var s := Itoa(n);
    assert !IsSpace(s[0]) && !IsSpace(s[|s| - 1]);
    TrimSpaceAfterSpaces([], s);
    assert [] + s == s;
    ScanIntItoa(n);
  }

  lemma {:induction false} IdsOfDecimals(ids: seq<int>)
    requires forall i :: 0 <= i < |ids| ==> InInt64(ids[i])
    ensures IdsOf(Decimals(ids)) == ids
  {
    if |ids| > 0 {
      var init := ids[..|ids| - 1];
      var last := ids[|ids| - 1];
      calc {
        IdsOf(Decimals(ids));
        { assert ids[..|ids| - 1] == init; }
        IdsOf(Decimals(init) + [Itoa(last)]);
        { IdsOfSnoc(Decimals(init), Itoa(last)); IdOfItoa(last); }
        IdsOf(Decimals(init)) + [last];
        { IdsOfDecimals(init); }
        init + [last];
        { assert init + [last] == ids; }
        ids;
      }
    }
  }

  /**
   * `SplitIDList` inverts the "," joined ids every client writes into a
   * query: any non-empty list of 64-bit ids is read back exactly, in order.
   */
  lemma SplitIdListRoundTrip(ids: seq<int>)
    requires |ids| > 0
    requires forall i :: 0 <= i < |ids| ==> InInt64(ids[i])
    ensures IdsValue(ids) != ""
    ensures IdsOf(Split(IdsValue(ids), ',')) == ids
  {
    var parts := Decimals(ids);
    forall i | 0 <= i < |parts|
      ensures ',' !in parts[i]
    {
      ItoaHasNoComma(ids[i]);
    }
    SplitJoin(parts, ',');
    IdsOfDecimals(ids);
  }
}
