/**
 * The `cursor-claude-3.7` client: the `Link` header with the record count
 * (pagination.go `ParseLinkHeader`), the query built from option structs
 * (pagination.go `AddQueryParams`), and the id-count guard of the bulk
 * unread and starred operations (unread.go).
 */
module CursorClaude {
  import opened GoText
  import opened HttpModel
  import opened LinkPattern
  import opened Pagination
  import opened IdLists
  import CG = CursorGemini
  import U = UrlRef

  const DefaultBaseUrl: string := "https://api.feedbin.com/v2/"
  const UserAgent: string := "Go-Feedbin-Client/1.0"
  const JsonContentType: string := "application/json; charset=utf-8"

  // ---------------------------------------------------------------------------
  // ParseLinkHeader
  // ---------------------------------------------------------------------------

  /**
   * `LinkHeader`: the four link URLs ("" where the pointer stays nil) and the
   * record count.
   */
  datatype LinkHeader = LinkHeader(links: Links, count: int)

  /** The record count: the header's `Atoi` value, or 0 when it is missing or not a number. */
  function RecordCount(h: Header): (n: int)
    ensures Atoi(Get(h, "X-Feedbin-Record-Count")).None? ==> n == 0
    ensures Atoi(Get(h, "X-Feedbin-Record-Count")).Some? ==> n == Atoi(Get(h, "X-Feedbin-Record-Count")).value
  {
    var countStr := Get(h, "X-Feedbin-Record-Count");
    if countStr != "" && Atoi(countStr).Some? then Atoi(countStr).value else 0
  }

  /**
   * `ParseLinkHeader`: nil without a `Link` header, in which case the count
   * is not read either; otherwise the count and, for each match of the link
   * pattern whose URL `url.Parse` accepts (`parses`), the field of its
   * relation when that is one of the four, a later link overwriting an
   * earlier one.
   */
  method ParseLinkHeader(h: Header, parses: string -> bool) returns (r: Option<LinkHeader>)
    ensures r.None? <==> Get(h, "Link") == ""
    ensures r.Some? ==> r.value.links == Recorded(FindAll(Get(h, "Link")), parses)
    ensures r.Some? ==> r.value.count == RecordCount(h)
  {
    var link := Get(h, "Link");
    if link == "" {
      return None;
    }
    var count := 0;
    var countStr := Get(h, "X-Feedbin-Record-Count");
    if countStr != "" {
      var parsed := Atoi(countStr);
      if parsed.Some? {
        count := parsed.value;
      }
    }
    var links := ParseLinkValues(link, parses);
    r := Some(LinkHeader(links, count));
  }

  /** A link whose URL does not parse leaves every field as it was. */
  lemma UnparsableLinkSkipped(ms: seq<LinkMatch>, m: LinkMatch, parses: string -> bool)
    requires !parses(m.url)
    ensures Recorded(ms + [m], parses) == Recorded(ms, parses)
  {
    assert (ms + [m])[..|ms|] == ms;
  }

  /** A count the server writes in decimal is read back; a header that is no number counts 0. */
  lemma RecordCountRoundTrip(h: Header, n: int)
    requires InInt64(n)
    ensures Get(h, "X-Feedbin-Record-Count") == Itoa(n) ==> RecordCount(h) == n
    ensures Get(h, "X-Feedbin-Record-Count") == "" ==> RecordCount(h) == 0
  {
    AtoiItoa(n);
  }

  // ---------------------------------------------------------------------------
  // AddQueryParams
  // ---------------------------------------------------------------------------

  /** `PageOptions`; an empty `since` is unset. */
  datatype PageOptions = PageOptions(page: Option<int>, perPage: Option<int>, since: string)

  /** `EntryOptions`, which embeds `PageOptions`. */
  datatype EntryOptions = EntryOptions(
    pageOptions: PageOptions,
    ids: seq<int>,
    read: Option<bool>,
    starred: Option<bool>,
    mode: string,
    includeOriginal: Option<bool>,
    includeEnclosure: Option<bool>,
    includeContentDiff: Option<bool>)

  /** `SubscriptionOptions`, which embeds `PageOptions` and has its own `since`. */
  datatype SubscriptionOptions = SubscriptionOptions(pageOptions: PageOptions, since: string, mode: string)

  /**
   * The `opts interface{}` argument: nil itself, a pointer to one of the
   * package's three option structs (`None` is a nil pointer of that type),
   * or anything else.
   */
  datatype QueryOptions =
    | NilOptions
    | PagePtr(page: Option<PageOptions>)
    | EntryPtr(entry: Option<EntryOptions>)
    | SubscriptionPtr(sub: Option<SubscriptionOptions>)
    | OtherOptions

  /** The string `AddQueryParams` returns, by how it was produced. */
  datatype Target =
    | Unchanged            // `baseURL` itself
    | ParseFailed          // `url.Parse(baseURL)` failed: "" with the error
    | NilDereference       // a nil `*PageOptions` reaches `v.Page`
    | WithQuery(url: Url)

  /** An optional string field: set when non-empty. */
  function TextParam(s: string): Option<string>
  {
    if s == "" then None else Some(s)
  }

  /** What `PageOptions` writes under `key`. */
  function PageParam(p: PageOptions, key: string): Option<string>
  {
    if key == "page" then CG.IntParam(p.page)
    else if key == "per_page" then CG.IntParam(p.perPage)
    else if key == "since" then TextParam(p.since)
    else None
  }

  /** The `*PageOptions` branch of the type switch. */
  method SetPageParams(q0: Values, p: PageOptions) returns (q: Values)
    ensures forall k :: Lookup(q, k) == CG.After(q0, k, PageParam(p, k))
  {
    q := SetIfPresent(q0, "page", CG.IntParam(p.page));
    q := SetIfPresent(q, "per_page", CG.IntParam(p.perPage));
    q := SetIfPresent(q, "since", TextParam(p.since));
  }

  /**
   * `AddQueryParams` as written. Only `*PageOptions` matches the type switch;
   * `handleEntryOptions` and `handleSubscriptionOptions` test for struct
   * types declared inside those functions, which no caller can hold, so an
   * `*EntryOptions` or `*SubscriptionOptions` (the types every caller passes)
   * adds nothing and the query of `baseURL` comes back as it was. `parsed`
   * is the outcome of `url.Parse(baseURL)`.
   */
  method AddQueryParamsAsWritten(parsed: Option<Url>, opts: QueryOptions) returns (r: Target)
    ensures opts.NilOptions? ==> r == Unchanged
    ensures !opts.NilOptions? && parsed.None? ==> r == ParseFailed
    ensures r == NilDereference <==> (parsed.Some? && opts == PagePtr(None))
    ensures parsed.Some? && opts.PagePtr? && opts.page.Some? ==>
      r.WithQuery? && r.url.base == parsed.value.base &&
      forall k :: Lookup(r.url.query, k) == CG.After(parsed.value.query, k, PageParam(opts.page.value, k))
    ensures parsed.Some? && (opts.EntryPtr? || opts.SubscriptionPtr? || opts.OtherOptions?) ==>
      r == WithQuery(parsed.value)
  {
    if opts.NilOptions? {
      return Unchanged;
    }
    if parsed.None? {
      return ParseFailed;
    }
    var q := parsed.value.query;
    match opts {
      case PagePtr(p) =>
        if p.None? {
          return NilDereference;
        }
        q := SetPageParams(q, p.value);
      case _ =>
    }
    r := WithQuery(Url(parsed.value.base, q));
  }

  /**
   * Entry options are lost as written: for entry options with ids and a URL
   * without an `ids` key, the URL `AddQueryParamsAsWritten` returns (the
   * input URL) has no `ids` value, while the intended query holds the ids.
   */
  lemma EntryOptionsDropped(u: Url, e: EntryOptions)
    requires |e.ids| > 0 && "ids" !in u.query
    ensures Lookup(u.query, "ids") == None
    ensures CG.After(u.query, "ids", Param(EntryPtr(Some(e)), "ids")) == Some([IdsValue(e.ids)])
  {
  }

  /** What the `ids`, `read` and `starred` fields of `EntryOptions` write under `key`. */
  function SelectionParam(e: EntryOptions, key: string): Option<string>
  {
    if key == "ids" then (if |e.ids| > 0 then Some(IdsValue(e.ids)) else None)
    else if key == "read" then CG.BoolParam(e.read)
    else if key == "starred" then CG.BoolParam(e.starred)
    else None
  }

  /** What `EntryOptions` writes under `key` beyond its embedded `PageOptions`. */
  function EntryParam(e: EntryOptions, key: string): Option<string>
  {
    CG.Later(SelectionParam(e, key),
             CG.ContentParam(TextParam(e.mode), e.includeOriginal, e.includeEnclosure, e.includeContentDiff, key))
  }

  /** What `SubscriptionOptions` writes under `key` beyond its embedded `PageOptions`. */
  function SubscriptionParam(s: SubscriptionOptions, key: string): Option<string>
  {
    if key == "since" then TextParam(s.since)
    else if key == "mode" then TextParam(s.mode)
    else None
  }

  /**
   * The value each key receives from the options in the intended reading:
   * the embedded `PageOptions` first, then the struct's own fields, so a
   * struct's own `since` wins over the embedded one. Nil pointers write
   * nothing.
   */
  function Param(opts: QueryOptions, key: string): Option<string>
  {
    match opts
    case PagePtr(Some(p)) => PageParam(p, key)
    case EntryPtr(Some(e)) => CG.Later(PageParam(e.pageOptions, key), EntryParam(e, key))
    case SubscriptionPtr(Some(s)) => CG.Later(PageParam(s.pageOptions, key), SubscriptionParam(s, key))
    case _ => None
  }

  /** The `ids`, `read` and `starred` part of `handleEntryOptions`. */
  method SetSelectionParams(q0: Values, e: EntryOptions) returns (q: Values)
    ensures forall k :: Lookup(q, k) == CG.After(q0, k, SelectionParam(e, k))
  {
    q := q0;
    if |e.ids| > 0 {
      var strs := FormatIds(e.ids);
      q := SetIfPresent(q, "ids", Some(Join(strs, ",")));
    }
    q := SetIfPresent(q, "read", CG.BoolParam(e.read));
    q := SetIfPresent(q, "starred", CG.BoolParam(e.starred));
  }

  /** The fields `handleEntryOptions` sets. */
  method SetEntryParams(q0: Values, e: EntryOptions) returns (q: Values)
    ensures forall k :: Lookup(q, k) == CG.After(q0, k, EntryParam(e, k))
  {
    q := SetSelectionParams(q0, e);
    q := CG.SetContentParams(q, TextParam(e.mode), e.includeOriginal, e.includeEnclosure, e.includeContentDiff);
  }

  /**
   * `AddQueryParams` as its helpers are evidently meant to work: each option
   * struct, embedded `PageOptions` included, writes its non-nil fields into
   * the query of `baseURL`, and every other key keeps what it held.
   */
  method AddQueryParams(parsed: Option<Url>, opts: QueryOptions) returns (r: Target)
    ensures opts.NilOptions? ==> r == Unchanged
    ensures !opts.NilOptions? && parsed.None? ==> r == ParseFailed
    ensures !opts.NilOptions? && parsed.Some? ==> r.WithQuery? && r.url.base == parsed.value.base
    ensures r.WithQuery? ==> forall k :: Lookup(r.url.query, k) == CG.After(parsed.value.query, k, Param(opts, k))
  {
    if opts.NilOptions? {
      return Unchanged;
    }
    if parsed.None? {
      return ParseFailed;
    }
    var q := parsed.value.query;
    match opts {
      case PagePtr(Some(p)) =>
        q := SetPageParams(q, p);
      case EntryPtr(Some(e)) =>
        q := SetPageParams(q, e.pageOptions);
        ghost var q1 := q;
        q := SetEntryParams(q, e);
        assert forall k :: Lookup(q, k) == CG.After(parsed.value.query, k, Param(opts, k)) by {
          forall k
            ensures Lookup(q, k) == CG.After(parsed.value.query, k, Param(opts, k))
          {
            assert Lookup(q, k) == CG.After(q1, k, EntryParam(e, k));
          }
        }
      case SubscriptionPtr(Some(s)) =>
        q := SetPageParams(q, s.pageOptions);
        q := SetIfPresent(q, "since", TextParam(s.since));
        q := SetIfPresent(q, "mode", TextParam(s.mode));
      case _ =>
    }
    r := WithQuery(Url(parsed.value.base, q));
  }

  /** The `cursor-gemini` entry-list options that ask for the same thing. */
  function GeminiEntries(e: EntryOptions): CG.ListEntriesOptions
  {
    CG.ListEntriesOptions(e.pageOptions.page, TextParam(e.pageOptions.since), e.ids, e.read, e.starred,
                          e.pageOptions.perPage, TextParam(e.mode), e.includeOriginal, e.includeEnclosure,
                          e.includeContentDiff)
  }

  /**
   * Once entry options reach the query, every key holds what the
   * `cursor-gemini` client writes for the same request.
   */
  lemma EntryParamsAgreeWithCursorGemini(e: EntryOptions, key: string)
    ensures Param(EntryPtr(Some(e)), key) == CG.Param(CG.ListEntries(Some(GeminiEntries(e))), key)
  {
  }

  /** Once entry ids reach the query, the `ids` value reads back as exactly those ids, in order. */
  lemma EntryIdsReadBack(e: EntryOptions)
    requires |e.ids| > 0
    requires forall i :: 0 <= i < |e.ids| ==> InInt64(e.ids[i])
    ensures Param(EntryPtr(Some(e)), "ids") == Some(IdsValue(e.ids))
    ensures |Split(IdsValue(e.ids), ',')| == |e.ids|
    ensures forall i :: 0 <= i < |e.ids| ==> Atoi(Split(IdsValue(e.ids), ',')[i]) == Some(e.ids[i])
  {
    IdsValueRoundTrip(e.ids);
  }

  // ---------------------------------------------------------------------------
  // unread.go and starred.go: the bulk operations
  // ---------------------------------------------------------------------------

  const MaxBulkIds: nat := 1000
  const ErrTooManyIds: string := "too many IDs (maximum 1000 per request)"

  /**
   * `NewRequest`: the reference parsed and resolved against the default base
   * URL (a relative path lands under "/v2/", a rooted one replaces it), JSON
   * `Accept` and `User-Agent` always, `Content-Type` with a body, and basic
   * authentication.
   */
  function NewRequest(creds: Credentials, verb: string, path: string, body: Option<Payload>): (req: Request)
    ensures req.verb == verb && req.body == body && req.auth == Some(creds)
    ensures U.IsRelative(path) ==> req.url == DefaultBaseUrl + path
    ensures |path| > 0 && path[0] == '/' ==> req.url == U.FeedbinBase.origin + path
    ensures Get(req.header, "Accept") == AcceptJson && Get(req.header, "User-Agent") == UserAgent
    ensures "Content-Type" in req.header <==> body.Some?
    ensures body.Some? ==> req.header["Content-Type"] == JsonContentType
  {
    var url := U.ResolveParsed(U.FeedbinBase, path);
    assert U.IsRelative(path) ==> url == DefaultBaseUrl + path by {
      U.FeedbinBaseText();
      if U.IsRelative(path) { U.ResolveParsedRelative(U.FeedbinBase, path); }
    }
    assert |path| > 0 && path[0] == '/' ==> url == U.FeedbinBase.origin + path by {
      if |path| > 0 && path[0] == '/' { U.ResolveParsedRooted(U.FeedbinBase, path); }
    }
    var h := map["Accept" := AcceptJson, "User-Agent" := UserAgent];
    Request(verb, url, if body.Some? then h["Content-Type" := JsonContentType] else h, Some(creds), body)
  }

  /**
   * `MarkAsUnread`, `MarkAsRead`, `MarkAsReadAlternative` and their starred
   * counterparts up to the request: more than 1000 ids is `ErrTooManyIDs`
   * before any request; any other list, the empty one included, is sent.
   */
  function Bulk(creds: Credentials, op: CG.BulkOp, ids: seq<int>): (r: Result<Request, string>)
    ensures r.Err? <==> |ids| > MaxBulkIds
    ensures r.Err? ==> r.error == ErrTooManyIds
    ensures r.Ok? ==> r.value.verb == CG.BulkVerb(op) && r.value.url == DefaultBaseUrl + CG.BulkPath(op)
    ensures r.Ok? ==> r.value.body == Some(IdList(CG.BulkField(op), ids)) && r.value.auth == Some(creds)
  {
    if |ids| > MaxBulkIds then Err(ErrTooManyIds)
    else Ok(NewRequest(creds, CG.BulkVerb(op), CG.BulkPath(op), Some(IdList(CG.BulkField(op), ids))))
  }

  /**
   * The guard agrees with the `cursor-gemini` one on which lists are
   * refused, but an empty list is sent here where that client sends nothing.
   */
  lemma EmptyListStillSent(creds: Credentials, op: CG.BulkOp, ids: seq<int>)
    ensures Bulk(creds, op, ids).Err? <==> CG.PlanBulk(creds, op, ids).TooMany?
    ensures |ids| == 0 ==> Bulk(creds, op, ids).Ok? && CG.PlanBulk(creds, op, ids).NothingToDo?
    ensures Bulk(creds, op, ids).Ok? && CG.PlanBulk(creds, op, ids).Send? ==>
      Bulk(creds, op, ids).value.url == CG.PlanBulk(creds, op, ids).request.url &&
      Bulk(creds, op, ids).value.body == CG.PlanBulk(creds, op, ids).request.body
  {
  }

  /** `MarkAsRead` and `MarkAsReadAlternative` refuse the same lists and send the same body to different endpoints. */
  lemma ReadVariantsShareGuard(creds: Credentials, ids: seq<int>)
    ensures Bulk(creds, CG.MarkEntriesAsRead, ids).Err? <==> Bulk(creds, CG.MarkEntriesAsReadAlt, ids).Err?
    ensures Bulk(creds, CG.MarkEntriesAsRead, ids).Ok? ==>
      Bulk(creds, CG.MarkEntriesAsRead, ids).value.body == Bulk(creds, CG.MarkEntriesAsReadAlt, ids).value.body &&
      Bulk(creds, CG.MarkEntriesAsRead, ids).value.url != Bulk(creds, CG.MarkEntriesAsReadAlt, ids).value.url
  {
    var a := DefaultBaseUrl + CG.BulkPath(CG.MarkEntriesAsRead);
    var b := DefaultBaseUrl + CG.BulkPath(CG.MarkEntriesAsReadAlt);
    assert a[|DefaultBaseUrl| + 14] != b[|DefaultBaseUrl| + 14];
  }
}
