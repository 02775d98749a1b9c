/**
 * The client in `cursor-gemini-2.5-pro-exp-03-25`: query options, response
 * handling, pagination headers, subscription creation and the bulk
 * unread/starred endpoints (client.go), and its API error (models.go).
 */
module CursorGemini {
  import opened GoText
  import opened HttpModel
  import opened LinkPattern
  import opened Pagination
  import opened IdLists
  import U = UrlRef

  const BaseUrl: string := "https://api.feedbin.com/v2/"
  const UserAgent: string := "go-feedbin-client/0.1"
  const ContentType: string := "application/json; charset=utf-8"
  const RecordCountHeader: string := "X-Feedbin-Record-Count"

  /** Most ids one entries query may name. */
  const MaxQueryIds: nat := 100
  /** Most ids one bulk unread/starred call may carry. */
  const MaxBulkIds: nat := 1000

  // ---------------------------------------------------------------------------
  // models.go: APIError
  // ---------------------------------------------------------------------------

  datatype APIError = APIError(statusCode: int, message: string, body: string)

  /** `(*APIError).Error`. */
  function ErrorText(e: APIError): (s: string)
    ensures IsInfix(Itoa(e.statusCode), s) && IsInfix(e.message, s) && IsInfix(e.body, s)
  {
    var p1 := "Feedbin API error: status " + Itoa(e.statusCode);
    var p2 := p1 + ", message: " + e.message;
    var s := p2 + ", body: " + e.body;
    assert InfixAt(Itoa(e.statusCode), s, |p1| - |Itoa(e.statusCode)|) by {
      assert s[..|p1|] == p1;
    }
    assert InfixAt(e.message, s, |p2| - |e.message|) by {
      assert s[..|p2|] == p2;
    }
    assert InfixAt(e.body, s, |s| - |e.body|);
    s
  }

  /**
   * `newAPIError`: the whole body is kept, and the message is the body's JSON
   * "message" field unless that is absent or empty, in which case it is the
   * body. `jsonMessage` stands for `json.Unmarshal` into that field ("" when
   * the body is not JSON or lacks it); a failed body read keeps what was read.
   */
  function NewAPIError(resp: Response, jsonMessage: string -> string): (e: APIError)
    ensures e.statusCode == resp.statusCode && e.body == resp.body
    ensures jsonMessage(resp.body) != "" ==> e.message == jsonMessage(resp.body)
    ensures jsonMessage(resp.body) == "" ==> e.message == e.body
  {
    var message := if jsonMessage(resp.body) != "" then jsonMessage(resp.body) else resp.body;
    APIError(resp.statusCode, message, resp.body)
  }

  // ---------------------------------------------------------------------------
  // client.go: addOptions
  // ---------------------------------------------------------------------------

  /** `since` values are passed already formatted; time formatting is not modelled. */
  datatype ListSubscriptionsOptions = ListSubscriptionsOptions(since: Option<string>, mode: Option<string>)

  datatype GetSubscriptionOptions = GetSubscriptionOptions(mode: Option<string>)

  datatype ListEntriesOptions = ListEntriesOptions(
    page: Option<int>,
    since: Option<string>,
    ids: seq<int>,
    read: Option<bool>,
    starred: Option<bool>,
    perPage: Option<int>,
    mode: Option<string>,
    includeOriginal: Option<bool>,
    includeEnclosure: Option<bool>,
    includeContentDiff: Option<bool>)

  datatype GetEntryOptions = GetEntryOptions(
    mode: Option<string>,
    includeOriginal: Option<bool>,
    includeEnclosure: Option<bool>,
    includeContentDiff: Option<bool>)

  datatype GetSavedSearchResultsOptions = GetSavedSearchResultsOptions(
    includeEntries: Option<bool>,
    page: Option<int>)

  /**
   * The `opts interface{}` argument: a pointer to one of the five option
   * structs (`None` is a nil pointer of that type), or anything else.
   */
  datatype QueryOptions =
    | ListSubscriptions(subs: Option<ListSubscriptionsOptions>)
    | GetSubscription(sub: Option<GetSubscriptionOptions>)
    | ListEntries(entries: Option<ListEntriesOptions>)
    | GetEntry(entry: Option<GetEntryOptions>)
    | SavedSearchResults(search: Option<GetSavedSearchResultsOptions>)
    | OtherOptions

  function IntParam(v: Option<int>): Option<string>
  {
    if v.Some? then Some(Itoa(v.value)) else None
  }

  function BoolParam(v: Option<bool>): Option<string>
  {
    if v.Some? then Some(FormatBool(v.value)) else None
  }

  /** Of two writes to the same key, the later one (`b`) is the one that stays. */
  function Later(a: Option<string>, b: Option<string>): Option<string>
  {
    if b.Some? then b else a
  }

  /** What an entry list's `page`, `since` and `ids` fields write under `key`. */
  function SelectionParam(o: ListEntriesOptions, key: string): Option<string>
  {
    if key == "page" then IntParam(o.page)
    else if key == "since" then o.since
    else if key == "ids" && |o.ids| > 0 then Some(IdsValue(o.ids))
    else None
  }

  /** What an entry list's `read`, `starred` and `per_page` fields write under `key`. */
  function StateParam(o: ListEntriesOptions, key: string): Option<string>
  {
    if key == "read" then BoolParam(o.read)
    else if key == "starred" then BoolParam(o.starred)
    else if key == "per_page" then IntParam(o.perPage)
    else None
  }

  /** What the `mode` and `include_*` fields, common to entry lists and single entries, write under `key`. */
  function ContentParam(mode: Option<string>, includeOriginal: Option<bool>, includeEnclosure: Option<bool>,
                        includeContentDiff: Option<bool>, key: string): Option<string>
  {
    if key == "mode" then mode
    else if key == "include_original" then BoolParam(includeOriginal)
    else if key == "include_enclosure" then BoolParam(includeEnclosure)
    else if key == "include_content_diff" then BoolParam(includeContentDiff)
    else None
  }

  /**
   * The query value each key receives from the options, or `None` when the
   * options leave that key alone: a key is written exactly when its field is
   * non-nil (for `ids`, non-empty), and nil pointers write nothing.
   */
  function Param(opts: QueryOptions, key: string): Option<string>
  {
    match opts
    case ListSubscriptions(Some(o)) =>
      if key == "since" then o.since else if key == "mode" then o.mode else None
    case GetSubscription(Some(o)) =>
      if key == "mode" then o.mode else None
    case ListEntries(Some(o)) =>
      Later(Later(SelectionParam(o, key), StateParam(o, key)),
            ContentParam(o.mode, o.includeOriginal, o.includeEnclosure, o.includeContentDiff, key))
    case GetEntry(Some(o)) =>
      ContentParam(o.mode, o.includeOriginal, o.includeEnclosure, o.includeContentDiff, key)
    case SavedSearchResults(Some(o)) =>
      if key == "include_entries" then BoolParam(o.includeEntries)
      else if key == "page" then IntParam(o.page)
      else None
    case _ => None
  }

  predicate TooManyIds(opts: QueryOptions)
  {
    opts.ListEntries? && opts.entries.Some? && |opts.entries.value.ids| > MaxQueryIds
  }

  /** Every key some option struct can write. */
  const QueryKeys: set<string> := {"since", "mode", "page", "ids", "read", "starred", "per_page",
    "include_original", "include_enclosure", "include_content_diff", "include_entries"}

  /** The entry a key holds after `q.Set(key, v)` when `written` is `Some(v)`, and before otherwise. */
  function After(q: Values, key: string, written: Option<string>): Option<seq<string>>
  {
    if written.Some? then Some([written.value]) else Lookup(q, key)
  }

  /** The `mode` and `include_*` part of the entry branches of `addOptions`. */
  method SetContentParams(q0: Values, mode: Option<string>, includeOriginal: Option<bool>,
                          includeEnclosure: Option<bool>, includeContentDiff: Option<bool>)
    returns (q: Values)
    ensures forall k :: Lookup(q, k) == After(q0, k, ContentParam(mode, includeOriginal, includeEnclosure, includeContentDiff, k))
  {
    q := SetIfPresent(q0, "mode", mode);
    q := SetIfPresent(q, "include_original", BoolParam(includeOriginal));
    q := SetIfPresent(q, "include_enclosure", BoolParam(includeEnclosure));
    q := SetIfPresent(q, "include_content_diff", BoolParam(includeContentDiff));
  }

  /** The `page`, `since` and `ids` part of the `*ListEntriesOptions` branch of `addOptions`. */
  method SetSelectionParams(q0: Values, o: ListEntriesOptions) returns (q: Values)
    ensures forall k :: Lookup(q, k) == After(q0, k, SelectionParam(o, k))
  {
    q := SetIfPresent(q0, "page", IntParam(o.page));
    q := SetIfPresent(q, "since", o.since);
    if |o.ids| > 0 {
      var strs := FormatIds(o.ids);
      q := SetIfPresent(q, "ids", Some(Join(strs, ",")));
    }
  }

  /** The `read`, `starred` and `per_page` part of the `*ListEntriesOptions` branch of `addOptions`. */
  method SetStateParams(q0: Values, o: ListEntriesOptions) returns (q: Values)
    ensures forall k :: Lookup(q, k) == After(q0, k, StateParam(o, k))
  {
    q := SetIfPresent(q0, "read", BoolParam(o.read));
    q := SetIfPresent(q, "starred", BoolParam(o.starred));
    q := SetIfPresent(q, "per_page", IntParam(o.perPage));
  }

  /** The `*ListEntriesOptions` branch of `addOptions` once the id count is within bounds. */
  method SetEntriesQuery(q0: Values, o: ListEntriesOptions) returns (q: Values)
    ensures forall k :: Lookup(q, k) == After(q0, k, Param(ListEntries(Some(o)), k))
  {
    q := SetSelectionParams(q0, o);
    q := SetStateParams(q, o);
    q := SetContentParams(q, o.mode, o.includeOriginal, o.includeEnclosure, o.includeContentDiff);
  }

  /**
   * `addOptions`: more than 100 ids is an error and yields no URL; otherwise
   * every key the options write holds exactly its value, and every key they
   * do not write keeps what the original query held.
   */
  method AddOptions(u: Url, opts: QueryOptions) returns (r: Result<Url, string>)
    ensures r.Err? <==> TooManyIds(opts)
    ensures r.Ok? ==> r.value.base == u.base
    ensures r.Ok? ==> forall k :: Lookup(r.value.query, k) == After(u.query, k, Param(opts, k))
  {
    var q := u.query;
    match opts {
      case ListSubscriptions(Some(o)) =>
        q := SetIfPresent(q, "since", o.since);
        q := SetIfPresent(q, "mode", o.mode);
      case GetSubscription(Some(o)) =>
        q := SetIfPresent(q, "mode", o.mode);
      case ListEntries(Some(o)) =>
        if |o.ids| > MaxQueryIds {
          return Err("maximum of 100 IDs can be requested at once");
        }
        q := SetEntriesQuery(q, o);
      case GetEntry(Some(o)) =>
        q := SetContentParams(q, o.mode, o.includeOriginal, o.includeEnclosure, o.includeContentDiff);
      case SavedSearchResults(Some(o)) =>
        q := SetIfPresent(q, "include_entries", BoolParam(o.includeEntries));
        q := SetIfPresent(q, "page", IntParam(o.page));
      case _ =>
    }
    r := Ok(Url(u.base, q));
  }

  /** Keys outside `QueryKeys` are never written, whatever the options. */
  lemma ParamOnlyQueryKeys(opts: QueryOptions, k: string)
    requires k !in QueryKeys
    ensures Param(opts, k).None?
  {
  }

  /** Nil option pointers, and option values of any other type, write no key. */
  lemma NilOptionsWriteNothing(k: string)
    ensures Param(ListSubscriptions(None), k).None? && Param(GetSubscription(None), k).None?
    ensures Param(ListEntries(None), k).None? && Param(GetEntry(None), k).None?
    ensures Param(SavedSearchResults(None), k).None? && Param(OtherOptions, k).None?
  {
  }

  /**
   * The `ids` value written by `addOptions` for 1 to 100 ids names every id,
   * in order: splitting it at "," and reading each piece back gives the ids.
   */
  lemma IdsParamInOrder(o: ListEntriesOptions)
    requires 0 < |o.ids| <= MaxQueryIds
    requires forall i :: 0 <= i < |o.ids| ==> InInt64(o.ids[i])
    ensures Param(ListEntries(Some(o)), "ids").Some?
    ensures var parts := Split(Param(ListEntries(Some(o)), "ids").value, ',');
      |parts| == |o.ids| && forall i :: 0 <= i < |o.ids| ==> Atoi(parts[i]) == Some(o.ids[i])
  {
    IdsValueRoundTrip(o.ids);
  }

  // ---------------------------------------------------------------------------
  // client.go: doRequest (request construction)
  // ---------------------------------------------------------------------------

  /** The headers `doRequest` sets: User-Agent and Accept always, Content-Type only with a body. */
  function RequestHeader(body: Option<Payload>): (h: map<string, string>)
    ensures Get(h, "Accept") == ContentType && Get(h, "User-Agent") == UserAgent
    ensures "Content-Type" in h <==> body.Some?
    ensures body.Some? ==> h["Content-Type"] == ContentType
  {
    var h := map["User-Agent" := UserAgent, "Accept" := ContentType];
    if body.Some? then h["Content-Type" := ContentType] else h
  }

  /**
   * The request `doRequest` sends, as written: `&url.URL{Path: path}` makes
   * the whole reference a path, so the query `addOptions` appended is
   * escaped into the path ('?' becomes "%3F") and no query reaches the server.
   */
  function NewRequestAsWritten(creds: Credentials, verb: string, path: string, body: Option<Payload>): (req: Request)
    ensures req.verb == verb && req.auth == Some(creds) && req.body == body && req.header == RequestHeader(body)
    ensures U.FeedbinBase.origin <= req.url && '?' !in req.url[|U.FeedbinBase.origin|..]
    ensures U.IsRelative(path) ==> req.url == BaseUrl + U.EscapePath(path)
  {
    var url := U.ResolvePathOnly(U.FeedbinBase, path);
    assert U.IsRelative(path) ==> url == BaseUrl + U.EscapePath(path) by {
      U.FeedbinBaseText();
      if U.IsRelative(path) {
        U.ResolvePathOnlyRelative(U.FeedbinBase, path);
      }
    }
    Request(verb, url, RequestHeader(body), Some(creds), body)
  }

  /**
   * The request `doRequest` is meant to send: the reference parsed as a URL
   * (as `url.Parse` does), so a query built by `addOptions` stays a query,
   * and resolved against the base URL.
   */
  function NewRequest(creds: Credentials, verb: string, path: string, body: Option<Payload>): (req: Request)
    ensures req.verb == verb && req.auth == Some(creds) && req.body == body && req.header == RequestHeader(body)
    ensures U.IsRelative(path) ==> req.url == BaseUrl + path
  {
    var url := U.ResolveParsed(U.FeedbinBase, path);
    assert U.IsRelative(path) ==> url == BaseUrl + path by {
      U.FeedbinBaseText();
      if U.IsRelative(path) {
        U.ResolveParsedRelative(U.FeedbinBase, path);
      }
    }
    Request(verb, url, RequestHeader(body), Some(creds), body)
  }

  /**
   * A path with a query, as `addOptions` returns it: as written the query
   * is sent as part of the path, "%3F" in place of '?'; as intended it is
   * the request's query.
   */
  lemma QueryEscapedIntoPath(creds: Credentials, verb: string, p: string, q: string)
    requires U.IsRelative(p) && U.Plain(p) && U.Plain(q)
    ensures NewRequestAsWritten(creds, verb, p + "?" + q, None).url == BaseUrl + p + "%3F" + q
    ensures NewRequest(creds, verb, p + "?" + q, None).url == BaseUrl + p + "?" + q
  {
    var ref := p + "?" + q;
    var mark := "?" + q;
    assert ref == p + mark;
    assert U.IsRelative(ref) by {
      if p != "" { assert ref[0] == p[0]; } else { assert ref[0] == '?'; }
    }
    calc {
      U.EscapePath(ref);
      { U.EscapePathConcat(p, mark); }
      U.EscapePath(p) + U.EscapePath(mark);
      { U.EscapePathPlain(p); U.EscapePathConcat("?", q); }
      p + (U.EscapePath("?") + U.EscapePath(q));
      { U.QueryMarkEscaped(); U.EscapePathPlain(q); }
      p + ("%3F" + q);
    }
    assert BaseUrl + (p + ("%3F" + q)) == BaseUrl + p + "%3F" + q;
    assert BaseUrl + ref == BaseUrl + p + "?" + q;
  }

  /** Without a query (and with nothing to escape) both constructions give the same URL. */
  lemma PlainPathsAgree(creds: Credentials, verb: string, path: string, body: Option<Payload>)
    requires U.IsRelative(path) && U.Plain(path)
    ensures NewRequestAsWritten(creds, verb, path, body) == NewRequest(creds, verb, path, body)
  {
    U.EscapePathPlain(path);
  }

  // ---------------------------------------------------------------------------
  // client.go: parsePaginationHeaders and handleResponse
  // ---------------------------------------------------------------------------

  datatype PaginationInfo = PaginationInfo(links: Links, totalRecords: int)

  /** The record count the header gives, or 0 when it is missing or not a decimal int. */
  function CountOrZero(h: string): int
  {
    match Atoi(h)
    case Some(n) => n
    case None => 0
  }

  /**
   * `parsePaginationHeaders`: only first/prev/next/last links are stored, the
   * last of each relation winning; `TotalRecords` is the count header's value
   * when it is a decimal int and 0 otherwise.
   */
  method ParsePaginationHeaders(resp: Response) returns (info: PaginationInfo)
    ensures info.links == Recorded(FindAll(Get(resp.header, "Link")), KeepAll)
    ensures Atoi(Get(resp.header, RecordCountHeader)).Some? ==>
      info.totalRecords == Atoi(Get(resp.header, RecordCountHeader)).value
    ensures Atoi(Get(resp.header, RecordCountHeader)).None? ==> info.totalRecords == 0
  {
    var links := NoLinks;
    var linkHeader := Get(resp.header, "Link");
    if linkHeader != "" {
      links := ParseLinkValues(linkHeader, KeepAll);
    }
    var total := 0;
    var countHeader := Get(resp.header, RecordCountHeader);
    if countHeader != "" {
      match Atoi(countHeader) {
        case Some(n) => total := n;
        case None =>
      }
    }
    info := PaginationInfo(links, total);
  }

  /** The outcome of `handleResponse`: its `(*PaginationInfo, error)` pair and what was decoded. */
  datatype Handled<T> =
    | ApiFailure(apiError: APIError)                  // (nil, *APIError)
    | NoContent                                       // (nil, nil), nothing decoded
    | Success(info: PaginationInfo, value: Option<T>) // (info, nil); None: nothing decoded
    | DecodeFailure(info: PaginationInfo, reason: string)

  /**
   * `handleResponse`: a status of 400 or more is an APIError; 204 returns
   * without pagination and without decoding; otherwise the pagination headers
   * are parsed and, when a target is given (`decode`), the body is decoded, an
   * empty body (io.EOF) not being an error.
   */
  method HandleResponse<T>(resp: Response, decode: Option<string -> Decoded<T>>,
                           jsonMessage: string -> string)
    returns (h: Handled<T>)
    ensures h.ApiFailure? <==> resp.statusCode >= 400
    ensures h.ApiFailure? ==> h.apiError == NewAPIError(resp, jsonMessage)
    ensures h.NoContent? <==> resp.statusCode == 204
    ensures h.Success? || h.DecodeFailure? ==>
      h.info.links == Recorded(FindAll(Get(resp.header, "Link")), KeepAll)
    ensures h.DecodeFailure? ==> decode.Some? && decode.value(resp.body) == DecodeFailed(h.reason)
    ensures h.DecodeFailure? <==>
      resp.statusCode < 400 && resp.statusCode != 204 && decode.Some? && decode.value(resp.body).DecodeFailed?
    ensures h.Success? && h.value.Some? <==>
      resp.statusCode < 400 && resp.statusCode != 204 && decode.Some? && decode.value(resp.body).Decoded?
    ensures h.Success? && h.value.Some? ==> h.value.value == decode.value(resp.body).value
  {
    if resp.statusCode >= 400 {
      return ApiFailure(NewAPIError(resp, jsonMessage));
    }
    if resp.statusCode == 204 {
      return NoContent;
    }
    var info := ParsePaginationHeaders(resp);
    if decode.Some? {
      match decode.value(resp.body) {
        case Decoded(v) => return Success(info, Some(v));
        case DecodeEOF => return Success(info, None);
        case DecodeFailed(reason) => return DecodeFailure(info, reason);
      }
    }
    h := Success(info, None);
  }

  // ---------------------------------------------------------------------------
  // client.go: CreateSubscription
  // ---------------------------------------------------------------------------

  /** The request `CreateSubscription` sends: POST subscriptions.json with `{"feed_url": ...}`. */
  function CreateSubscriptionRequest(creds: Credentials, feedUrl: string): (req: Request)
    ensures req.verb == "POST" && req.url == BaseUrl + "subscriptions.json"
    ensures req.body == Some(FeedUrl(feedUrl))
  {
    NewRequest(creds, "POST", "subscriptions.json", Some(FeedUrl(feedUrl)))
  }

  datatype CreateError =
    | TransportError
    | DecodeError(status: int, reason: string)   // "error decoding ... (status %d): %w"
    | Api(apiError: APIError)

  /**
   * The `(*Subscription, []FeedChoice, error)` triple. A decoded value of
   * `None` is the zero value left by an empty body.
   */
  datatype CreateResult<S, C> =
    | Subscribed(subscription: Option<S>)
    | Choices(choices: Option<C>)
    | CreateFailed(error: CreateError)

  /**
   * `CreateSubscription` given the exchange's outcome (`None`: the request
   * failed in transport): 201 and 302 yield the subscription, 300 yields the
   * feed choices with a nil error, and any other status an APIError.
   */
  method CreateSubscription<S, C>(exchange: Option<Response>,
                                  decodeSubscription: string -> Decoded<S>,
                                  decodeChoices: string -> Decoded<C>,
                                  jsonMessage: string -> string)
    returns (r: CreateResult<S, C>)
    ensures exchange.None? ==> r == CreateFailed(TransportError)
    ensures exchange.Some? && (exchange.value.statusCode == 201 || exchange.value.statusCode == 302) ==>
      r == match decodeSubscription(exchange.value.body)
           case Decoded(v) => Subscribed(Some(v))
           case DecodeEOF => Subscribed(None)
           case DecodeFailed(reason) => CreateFailed(DecodeError(exchange.value.statusCode, reason))
    ensures exchange.Some? && exchange.value.statusCode == 300 ==>
      r == match decodeChoices(exchange.value.body)
           case Decoded(v) => Choices(Some(v))
           case DecodeEOF => Choices(None)
           case DecodeFailed(reason) => CreateFailed(DecodeError(300, reason))
    ensures exchange.Some? && exchange.value.statusCode !in {201, 302, 300} ==>
      r == CreateFailed(Api(NewAPIError(exchange.value, jsonMessage)))
    ensures r.Subscribed? && r.subscription.Some? ==>
      decodeSubscription(exchange.value.body) == Decoded(r.subscription.value)
  {
    if exchange.None? {
      return CreateFailed(TransportError);
    }
    var resp := exchange.value;
    if resp.statusCode == 201 || resp.statusCode == 302 {
      var h := HandleResponse(resp, Some(decodeSubscription), jsonMessage);
      match h {
        case Success(_, v) => r := Subscribed(v);
        case DecodeFailure(_, reason) => r := CreateFailed(DecodeError(resp.statusCode, reason));
        case ApiFailure(_) => assert false;
        case NoContent => assert false;
      }
    } else if resp.statusCode == 300 {
      var h := HandleResponse(resp, Some(decodeChoices), jsonMessage);
      match h {
        case Success(_, v) => r := Choices(v);
        case DecodeFailure(_, reason) => r := CreateFailed(DecodeError(resp.statusCode, reason));
        case ApiFailure(_) => assert false;
        case NoContent => assert false;
      }
    } else {
      r := CreateFailed(Api(NewAPIError(resp, jsonMessage)));
    }
  }

  // ---------------------------------------------------------------------------
  // client.go: bulk unread / starred endpoints
  // ---------------------------------------------------------------------------

  datatype BulkOp =
    | MarkEntriesAsUnread | MarkEntriesAsRead | MarkEntriesAsReadAlt
    | StarEntries | UnstarEntries | UnstarEntriesAlt

  /** Plain DELETE for the two endpoints that take it; POST everywhere else, including the delete.json alternatives. */
  function BulkVerb(op: BulkOp): (v: string)
    ensures v == "DELETE" <==> op.MarkEntriesAsRead? || op.UnstarEntries?
    ensures v == "POST" <==> !(op.MarkEntriesAsRead? || op.UnstarEntries?)
  {
    match op
    case MarkEntriesAsUnread => "POST"
    case MarkEntriesAsRead => "DELETE"
    case MarkEntriesAsReadAlt => "POST"
    case StarEntries => "POST"
    case UnstarEntries => "DELETE"
    case UnstarEntriesAlt => "POST"
  }

  /** The endpoint: the field's collection, or its `/delete.json` alternative. */
  function BulkPath(op: BulkOp): (p: string)
    ensures BulkField(op) <= p
    ensures U.IsRelative(p) && U.Plain(p)
  {
    var p := BulkField(op) + BulkSuffix(op);
    U.PlainConcat(BulkField(op), BulkSuffix(op));
    p
  }

  /** `/delete.json` for the two removals sent as POST, `.json` for the collection itself. */
  function BulkSuffix(op: BulkOp): (s: string)
    ensures U.Plain(s)
  {
    if op.MarkEntriesAsReadAlt? || op.UnstarEntriesAlt? then "/delete.json" else ".json"
  }

  /** The JSON field carrying the ids: unread_entries or starred_entries. */
  function BulkField(op: BulkOp): (f: string)
    ensures f == "unread_entries" <==> op.MarkEntriesAsUnread? || op.MarkEntriesAsRead? || op.MarkEntriesAsReadAlt?
    ensures f == "starred_entries" <==> op.StarEntries? || op.UnstarEntries? || op.UnstarEntriesAlt?
    ensures |f| > 0 && f[0] != '/' && U.Plain(f)
  {
    if op.MarkEntriesAsUnread? || op.MarkEntriesAsRead? || op.MarkEntriesAsReadAlt? then "unread_entries"
    else "starred_entries"
  }

  /** What a bulk call does before any network traffic. */
  datatype BulkPlan =
    | TooMany(message: string)   // (nil, error), no request
    | NothingToDo                // ([]int64{}, nil), no request
    | Send(request: Request)

  /**
   * The guards of the six bulk methods: more than 1000 ids is an error before
   * any request (checked first), an empty list returns an empty result without
   * a request, and otherwise the ids are sent, in order, under the endpoint's field.
   */
  function PlanBulk(creds: Credentials, op: BulkOp, ids: seq<int>): (p: BulkPlan)
    ensures p.TooMany? <==> |ids| > MaxBulkIds
    ensures p.NothingToDo? <==> |ids| == 0
    ensures p.Send? ==> p.request.verb == BulkVerb(op) && p.request.url == BaseUrl + BulkPath(op)
    ensures p.Send? ==> p.request.body == Some(IdList(BulkField(op), ids)) && p.request.auth == Some(creds)
    ensures p.Send? ==> p.request == NewRequestAsWritten(creds, BulkVerb(op), BulkPath(op), p.request.body)
  {
    if |ids| > MaxBulkIds then TooMany("maximum of 1000 entry IDs allowed per request")
    else if |ids| == 0 then NothingToDo
    else
      var body := Some(IdList(BulkField(op), ids));
      PlainPathsAgree(creds, BulkVerb(op), BulkPath(op), body);
      Send(NewRequest(creds, BulkVerb(op), BulkPath(op), body))
  }
}
