/**
 * The client in `jetbrains-cascade-gemini-2.5-pro`: status checking and its
 * API error (client.go, errors.go), the query builder, the id joiner, and the
 * signed URL of the content-extraction service (client.go, entries.go).
 */
module CascadeGemini {
  import opened GoText
  import opened HttpModel
  import opened IdLists
  import opened Encoding
  import CG = CursorGemini

  const ExtractBaseUrl: string := "https://extract.feedbin.com/parser/"
  const UserAgent: string := "cascade-feedbin-go-client/1.0"

  // ---------------------------------------------------------------------------
  // errors.go: APIError and MultipleChoicesError
  // ---------------------------------------------------------------------------

  /** `APIError` without its `*http.Response` back-pointer. */
  datatype APIError = APIError(statusCode: int, body: string, message: string)

  /** `(*APIError).Error`: "HTTP n", then the message, or failing that the body, after ": ". */
  function ErrorText(e: APIError): (s: string)
    ensures "HTTP " + Itoa(e.statusCode) <= s
    ensures e.message != "" ==> IsSuffix(": " + e.message, s)
    ensures e.message == "" && e.body != "" ==> IsSuffix(": " + e.body, s)
    ensures e.message != "" ==> |s| == |"HTTP " + Itoa(e.statusCode)| + |": " + e.message|
    ensures e.message == "" && e.body != "" ==> |s| == |"HTTP " + Itoa(e.statusCode)| + |": " + e.body|
    ensures e.message == "" && e.body == "" ==> s == "HTTP " + Itoa(e.statusCode)
  {
    var head := "HTTP " + Itoa(e.statusCode);
    var tail := if e.message != "" then ": " + e.message else if e.body != "" then ": " + e.body else "";
    assert (head + tail)[|head|..] == tail;
    head + tail
  }

  /** The status code can be read back from the text of any API error. */
  lemma ErrorTextNamesStatus(e: APIError)
    requires InInt64(e.statusCode)
    ensures var s := ErrorText(e);
      Atoi(s[5..5 + |Itoa(e.statusCode)|]) == Some(e.statusCode)
  {
    var s := ErrorText(e);
    assert s[5..5 + |Itoa(e.statusCode)|] == Itoa(e.statusCode) by {
      assert ("HTTP " + Itoa(e.statusCode))[5..] == Itoa(e.statusCode);
    }
    AtoiItoa(e.statusCode);
  }

  /** A 300 response: the API error and whatever choices its body decoded to. */
  datatype MultipleChoicesError<C> = MultipleChoicesError(apiError: APIError, choices: seq<C>)

  /**
   * `NewMultipleChoicesError`: every field of the API error is kept; the
   * choices are those the body decodes to, and none when decoding fails
   * (the failure is dropped).
   */
  function NewMultipleChoicesError<C>(e: APIError, decodeChoices: string -> Decoded<seq<C>>)
    : (r: MultipleChoicesError<C>)
    ensures r.apiError == e
    ensures decodeChoices(e.body).Decoded? ==> r.choices == decodeChoices(e.body).value
    ensures !decodeChoices(e.body).Decoded? ==> r.choices == []
  {
    match decodeChoices(e.body)
    case Decoded(cs) => MultipleChoicesError(e, cs)
    case _ => MultipleChoicesError(e, [])
  }

  /** `(*MultipleChoicesError).Error`: always names the status code and the raw body. */
  function ChoicesErrorText<C>(e: MultipleChoicesError<C>): (s: string)
    ensures "Multiple choices found (HTTP " + Itoa(e.apiError.statusCode) <= s
    ensures IsSuffix("): " + e.apiError.body, s)
    ensures |s| == |"Multiple choices found (HTTP " + Itoa(e.apiError.statusCode)| + |"): " + e.apiError.body|
  {
    var s := "Multiple choices found (HTTP " + Itoa(e.apiError.statusCode) + "): " + e.apiError.body;
    assert s[|s| - |"): " + e.apiError.body|..] == "): " + e.apiError.body;
    s
  }

  // ---------------------------------------------------------------------------
  // client.go: checkResponse
  // ---------------------------------------------------------------------------

  /**
   * `checkResponse`: no error exactly for 2xx. Otherwise the error keeps the
   * status code; when the body cannot be read (`readError` is the reader's
   * error text) it carries no body and a message saying so, and when it can,
   * the body is kept whole and a message naming status and body is added
   * only if the body is non-empty.
   */
  function CheckResponse(resp: Response, readError: string): (r: Option<APIError>)
    ensures r.None? <==> Is2xx(resp.statusCode)
    ensures r.Some? ==> r.value.statusCode == resp.statusCode
    ensures r.Some? && resp.bodyReadFails ==> r.value.body == "" && r.value.message != ""
    ensures r.Some? && !resp.bodyReadFails ==> r.value.body == resp.body
    ensures r.Some? && !resp.bodyReadFails ==> (r.value.message == "" <==> resp.body == "")
  {
    if Is2xx(resp.statusCode) then None
    else if resp.bodyReadFails then
      Some(APIError(resp.statusCode, "",
        "API error (status code " + Itoa(resp.statusCode) + "), could not read response body: " + readError))
    else
      var message := if |resp.body| > 0
        then "API error (status code " + Itoa(resp.statusCode) + "): " + resp.body
        else "";
      Some(APIError(resp.statusCode, resp.body, message))
  }

  /** What a failed check reports always shows the body it read, when there was one. */
  lemma CheckResponseTextShowsBody(resp: Response, readError: string)
    requires !Is2xx(resp.statusCode) && !resp.bodyReadFails
    ensures IsInfix(resp.body, ErrorText(CheckResponse(resp, readError).value))
  {
    var e := CheckResponse(resp, readError).value;
    var s := ErrorText(e);
    if resp.body != "" {
      assert InfixAt(resp.body, s, |s| - |resp.body|);
    } else {
      assert InfixAt(resp.body, s, 0);
    }
  }

  // ---------------------------------------------------------------------------
  // client.go: joinInts, generateHmacSignature, encodeBase64URLSafe
  // ---------------------------------------------------------------------------

  /** `joinInts`: each id rendered with `%d` into a slice, in order, then joined with `sep`. */
  method JoinInts(ints: seq<int>, sep: string) returns (r: string)
    ensures r == Join(Decimals(ints), sep)
  {
    var strs := FormatIds(ints);
    r := Join(strs, sep);
  }

  /** `generateHmacSignature`: `%x` of the HMAC-SHA1 of `data` keyed by `secret`. */
  function Signature(hmac: HmacSha1, secret: string, data: string): (r: string)
    ensures |r| == 40
    ensures forall i :: 0 <= i < |r| ==> IsLowerHex(r[i])
    ensures HexDecode(r) == Some(hmac(Utf8(secret), Utf8(data)))
  {
    HexRoundTrip(hmac(Utf8(secret), Utf8(data)));
    Hex(hmac(Utf8(secret), Utf8(data)))
  }

  /**
   * `encodeBase64URLSafe`: URL-safe base64 of the UTF-8 bytes with padding
   * removed, so only letters, digits, '-' and '_' appear, never '='; decoding
   * gives the bytes back.
   */
  function EncodeBase64UrlSafe(data: string): (r: string)
    ensures forall i :: 0 <= i < |r| ==> IsUrlSafe(r[i])
    ensures '=' !in r
    ensures DecodeRaw(r) == Some(Utf8(data))
  {
    DecodeRawEncodeRaw(Utf8(data));
    EncodeRaw(Utf8(data))
  }

  // ---------------------------------------------------------------------------
  // client.go: addOptions
  // ---------------------------------------------------------------------------

  /**
   * The `opt interface{}` argument. The option structs have the same fields
   * as the ones `CursorGemini` models; `ListFeedEntriesOptions` is the entry
   * list without `IDs`, and `ListSubscriptionsOptions` carries `Mode` only.
   */
  datatype Options =
    | NilOrNotPointer                               // v.Kind() != Ptr || v.IsNil()
    | ListEntries(entries: CG.ListEntriesOptions)
    | ListFeedEntries(feedEntries: CG.ListEntriesOptions)
    | ListSubscriptions(mode: Option<string>)
    | SavedSearchEntries(search: CG.GetSavedSearchResultsOptions)
    | OtherPointer                                  // a pointer to any other type

  /** The `CursorGemini` options that write the same keys with the same values. */
  function Equivalent(opts: Options): CG.QueryOptions
  {
    match opts
    case NilOrNotPointer => CG.OtherOptions
    case ListEntries(o) => CG.ListEntries(Some(o))
    case ListFeedEntries(o) => CG.ListEntries(Some(o.(ids := [])))
    case ListSubscriptions(mode) => CG.GetSubscription(Some(CG.GetSubscriptionOptions(mode)))
    case SavedSearchEntries(o) => CG.SavedSearchResults(Some(o))
    case OtherPointer => CG.OtherOptions
  }

  /** The string `addOptions` returns, by how it was produced. */
  datatype Target =
    | Unchanged          // `s` itself
    | InvalidUrl         // `url.Parse(s)` failed: `s` with the error
    | WithQuery(url: Url)

  /**
   * `addOptions`: a nil or non-pointer options value returns the path
   * unchanged; otherwise the query is built from scratch, so any query `s`
   * already had is replaced, and holds exactly the keys the options set.
   * There is no cap on the number of ids. `parsed` is the outcome of
   * `url.Parse(s)`.
   */
  method AddOptions(parsed: Option<Url>, opts: Options) returns (r: Target)
    ensures opts.NilOrNotPointer? ==> r == Unchanged
    ensures !opts.NilOrNotPointer? && parsed.None? ==> r == InvalidUrl
    ensures !opts.NilOrNotPointer? && parsed.Some? ==> r.WithQuery? && r.url.base == parsed.value.base
    ensures r.WithQuery? ==> forall k :: Lookup(r.url.query, k) == CG.After(map[], k, CG.Param(Equivalent(opts), k))
  {
    if opts.NilOrNotPointer? {
      return Unchanged;
    }
    if parsed.None? {
      return InvalidUrl;
    }
    var qs: Values := map[];
    match opts {
      case ListEntries(o) =>
        qs := CG.SetEntriesQuery(qs, o);
      case ListFeedEntries(o) =>
        qs := CG.SetEntriesQuery(qs, o.(ids := []));
      case ListSubscriptions(mode) =>
        qs := SetIfPresent(qs, "mode", mode);
      case SavedSearchEntries(o) =>
        qs := SetIfPresent(qs, "include_entries", CG.BoolParam(o.includeEntries));
        qs := SetIfPresent(qs, "page", CG.IntParam(o.page));
      case OtherPointer =>
    }
    r := WithQuery(Url(parsed.value.base, qs));
  }

  // ---------------------------------------------------------------------------
  // entries.go: GetExtractedContent
  // ---------------------------------------------------------------------------

  /**
   * The extract URL: the username and the signature as two path segments
   * under the extract base, and `base64_url` as the only query value.
   * `url.Values.Encode` leaves the value as it is, since every character of
   * unpadded URL-safe base64 is unreserved.
   */
  function ExtractUrl(hmac: HmacSha1, username: string, password: string, target: string): string
  {
    (ExtractBaseUrl + username + "/") + (Signature(hmac, password, target)
      + ("?base64_url=" + EncodeBase64UrlSafe(target)))
  }

  /**
   * The request `GetExtractedContent` sends, or the validation error that
   * stops it first: an empty target URL, then an empty username or password.
   * The request is a GET without basic auth, authenticated by the signature alone.
   */
  function ExtractRequest(hmac: HmacSha1, username: string, password: string, target: string)
    : (r: Result<Request, string>)
    ensures r.Err? <==> target == "" || username == "" || password == ""
    ensures target == "" ==> r == Err("targetURL cannot be empty")
    ensures r.Ok? ==> r.value.verb == "GET" && r.value.auth.None? && r.value.body.None?
    ensures r.Ok? ==> r.value.url == ExtractUrl(hmac, username, password, target)
    ensures r.Ok? ==> Get(r.value.header, "Accept") == AcceptJson && Get(r.value.header, "User-Agent") == UserAgent
  {
    if target == "" then Err("targetURL cannot be empty")
    else if username == "" || password == "" then
      Err("username and password (used as secret key) must be set in the client for content extraction")
    else
      var header := map["User-Agent" := UserAgent, "Accept" := AcceptJson];
      Ok(Request("GET", ExtractUrl(hmac, username, password, target), header, None, None))
  }

  /** The extract URL is the base, the username, then 40 hexadecimal digits, then the query. */
  lemma ExtractUrlShape(hmac: HmacSha1, username: string, password: string, target: string)
    ensures var u := ExtractUrl(hmac, username, password, target);
      var n := |ExtractBaseUrl + username + "/"|;
      ExtractBaseUrl + username + "/" <= u
      && |u| >= n + 40
      && (forall i :: n <= i < n + 40 ==> IsLowerHex(u[i]))
      && u[n + 40..] == "?base64_url=" + EncodeBase64UrlSafe(target)
  {
    HexAfterPrefix(ExtractBaseUrl + username + "/", Signature(hmac, password, target),
      "?base64_url=" + EncodeBase64UrlSafe(target));
  }

  lemma HexAfterPrefix(prefix: string, sig: string, rest: string)
    requires |sig| == 40 && forall i :: 0 <= i < |sig| ==> IsLowerHex(sig[i])
    ensures var u := prefix + (sig + rest);
      prefix <= u && |u| >= |prefix| + 40
      && (forall i :: |prefix| <= i < |prefix| + 40 ==> IsLowerHex(u[i]))
      && u[|prefix| + 40..] == rest
  {
    var u := prefix + (sig + rest);
    assert forall i :: |prefix| <= i < |prefix| + 40 ==> u[i] == sig[i - |prefix|];
    assert u[|prefix| + 40..] == rest;
  }

  /** The outcome of the extract call once the request is sent. */
  datatype Extracted<T> =
    | Content(value: Option<T>)        // None: the zero value left by an empty body
    | ExtractApiError(apiError: APIError)
    | ExtractDecodeError(reason: string)

  /**
   * `GetExtractedContent` after the exchange: a non-2xx status is an API
   * error that keeps the body and names status and body in its message; on
   * success an empty body gives empty content, not an error.
   */
  function ExtractOutcome<T>(resp: Response, decode: string -> Decoded<T>): (r: Extracted<T>)
    ensures r.ExtractApiError? <==> !Is2xx(resp.statusCode)
    ensures r.ExtractApiError? ==> r.apiError.statusCode == resp.statusCode && r.apiError.body == resp.body
    ensures r.ExtractApiError? ==>
      (r.apiError.message == "Extract API error (status " + Itoa(resp.statusCode) + "): " + resp.body)
    ensures Is2xx(resp.statusCode) && decode(resp.body).DecodeEOF? ==> r == Content(None)
    ensures Is2xx(resp.statusCode) && decode(resp.body).Decoded? ==> r == Content(Some(decode(resp.body).value))
    ensures r.ExtractDecodeError? <==> Is2xx(resp.statusCode) && decode(resp.body).DecodeFailed?
  {
    if !Is2xx(resp.statusCode) then
      ExtractApiError(APIError(resp.statusCode, resp.body,
        "Extract API error (status " + Itoa(resp.statusCode) + "): " + resp.body))
    else match decode(resp.body)
      case Decoded(v) => Content(Some(v))
      case DecodeEOF => Content(None)
      case DecodeFailed(reason) => ExtractDecodeError(reason)
  }
}
