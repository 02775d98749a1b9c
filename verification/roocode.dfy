/**
 * The `vscode-roocode-claude-3.7-architect` client: the request URL join,
 * the `Link` and record-count headers (client.go), and subscription
 * creation with its "multiple choices" and "already exists" answers
 * (subscriptions.go).
 */
module RooCode {
  import opened GoText
  import opened HttpModel
  import opened LinkPattern
  import opened Pagination
  import JuniePagination
  import JunieClient
  import CursorGemini

  const DefaultBaseUrl: string := "https://api.feedbin.com/v2/"
  const JsonContentType: string := "application/json; charset=utf-8"

  /** The client's base URL and basic-authentication credentials. */
  datatype Client = Client(baseUrl: string, email: string, password: string)

  /** `NewClient` without options. */
  function NewClient(email: string, password: string): Client
  {
    Client(DefaultBaseUrl, email, password)
  }

  // ---------------------------------------------------------------------------
  // newRequest
  // ---------------------------------------------------------------------------

  /**
   * `newRequest`: the URL is the base URL followed by the path without one
   * leading '/'; basic authentication always; `Content-Type` only with a
   * body, and no other header.
   */
  function NewRequest(c: Client, verb: string, path: string, body: Option<Payload>): (req: Request)
    ensures |path| > 0 && path[0] == '/' ==> req.url == c.baseUrl + path[1..]
    ensures (|path| == 0 || path[0] != '/') ==> req.url == c.baseUrl + path
    ensures req.verb == verb && req.body == body
    ensures req.auth == Some(Credentials(c.email, c.password))
    ensures req.header.Keys <= {"Content-Type"}
    ensures "Content-Type" in req.header <==> body.Some?
    ensures body.Some? ==> req.header["Content-Type"] == JsonContentType
  {
    var header: Header := if body.Some? then map["Content-Type" := JsonContentType] else map[];
    Request(verb, c.baseUrl + TrimPrefix(path, "/"), header, Some(Credentials(c.email, c.password)), body)
  }

  /** A path names the same URL with or without its leading '/'. */
  lemma LeadingSlashOptional(c: Client, verb: string, p: string, body: Option<Payload>)
    requires |p| == 0 || p[0] != '/'
    ensures NewRequest(c, verb, "/" + p, body).url == NewRequest(c, verb, p, body).url
  {
    assert ("/" + p)[1..] == p;
  }

  /**
   * With the default base URL a path written with a leading '/' reaches the
   * same URL as in the `cursor-gemini` and `jetbrains-junie` clients: the
   * separating '/' appears exactly once.
   */
  lemma SameUrlsAsOtherClients(email: string, password: string, verb: string, p: string, body: Option<Payload>)
    ensures NewRequest(NewClient(email, password), verb, "/" + p, body).url == CursorGemini.BaseUrl + p
    ensures NewRequest(NewClient(email, password), verb, "/" + p, body).url == JunieClient.BaseUrl + "/" + p
  {
    assert ("/" + p)[1..] == p;
    assert DefaultBaseUrl == JunieClient.BaseUrl + "/";
  }

  // ---------------------------------------------------------------------------
  // parsePaginationLinks and getTotalRecords
  // ---------------------------------------------------------------------------

  /**
   * `parsePaginationLinks`: no links for an empty header; otherwise each
   * match of the link pattern with one of the four relations sets that
   * field, a later link of the same relation overwriting an earlier one.
   */
  method ParsePaginationLinks(header: string) returns (links: Links)
    ensures header == "" ==> links == NoLinks
    ensures links == Recorded(FindAll(header), KeepAll)
  {
    if header == "" {
      NoMatchesNoLinks(KeepAll);
      return NoLinks;
    }
    links := ParseLinkValues(header, KeepAll);
  }

  /**
   * `getTotalRecords`: 0 and no error for an empty header value, otherwise
   * `strconv.Atoi`'s value or an error that carries the value.
   */
  function TotalRecords(value: string): (r: Result<int, string>)
    ensures value == "" ==> r == Ok(0)
    ensures value != "" ==> (r.Ok? <==> Atoi(value).Some?)
    ensures value != "" && r.Ok? ==> r.value == Atoi(value).value
    ensures r.Err? ==> r.error == value
  {
    if value == "" then Ok(0)
    else match Atoi(value)
      case Some(n) => Ok(n)
      case None => Err(value)
  }

  /** A value that does not end in a digit, such as "abc", is an error. */
  lemma NonNumericRecordsFail(value: string)
    requires |value| > 0 && !IsDigit(value[|value| - 1])
    ensures TotalRecords(value).Err?
  {
  }

  /** Any 64-bit count the server writes in decimal is read back exactly. */
  lemma TotalRecordsRoundTrip(n: int)
    requires InInt64(n)
    ensures TotalRecords(Itoa(n)) == Ok(n)
  {
    AtoiItoa(n);
  }

  /** The header reads exactly as in the `jetbrains-junie` client. */
  lemma TotalRecordsAgreeWithJunie(h: Header)
    ensures TotalRecords(Get(h, "X-Feedbin-Record-Count")) == JuniePagination.TotalRecords(h)
  {
  }

  /** `https://api.feedbin.com/v2/entries.json?page=`, the page links of the client's tests. */
  const EntriesPath: string := "https://" + "api.feed" + "bin.com/" + "v2/entri" + "es.json"
  const EntriesPage: string := EntriesPath + "?" + PageKey
  const EntriesPage1: string := EntriesPage + "1"
  const EntriesPage2: string := EntriesPage + "2"

  lemma EntriesPageClean(d: char)
    requires IsDigit(d)
    ensures |EntriesPage + [d]| > 0
    ensures forall c :: c in "<>,;" ==> c !in EntriesPage + [d]
  {
    var pieces := ["https://", "api.feed", "bin.com/", "v2/entri", "es.json", "?", PageKey, [d]];
    assert EntriesPage + [d] == pieces[0] + pieces[1] + pieces[2] + pieces[3] + pieces[4] + pieces[5] + pieces[6] + pieces[7];
    forall c | c in "<>,;"
      ensures c !in EntriesPage + [d]
    {
      assert forall i :: 0 <= i < 8 ==> c !in pieces[i];
    }
  }

  /** The header of the first page of the client's test: first, next and last set, prev empty. */
  lemma FirstPageHeader()
    ensures Recorded(FindAll(RenderAll([LinkMatch(EntriesPage1, "first"), LinkMatch(EntriesPage2, "next"),
                                        LinkMatch(EntriesPage2, "last")])), KeepAll)
      == Links(EntriesPage1, "", EntriesPage2, EntriesPage2)
  {
    var ms := [LinkMatch(EntriesPage1, "first"), LinkMatch(EntriesPage2, "next"), LinkMatch(EntriesPage2, "last")];
    EntriesPageClean('1');
    EntriesPageClean('2');
    FindAllRenderAll(ms);
    RecordedFirstNextLast(ms);
  }

  lemma RecordedFirstNextLast(ms: seq<LinkMatch>)
    requires |ms| == 3 && ms[0].rel == "first" && ms[1].rel == "next" && ms[2].rel == "last"
    ensures Recorded(ms, KeepAll) == Links(ms[0].url, "", ms[1].url, ms[2].url)
  {
    LaterLinkOverwrites([], ms[0], KeepAll);
    LaterLinkOverwrites(ms[..1], ms[1], KeepAll);
    LaterLinkOverwrites(ms[..2], ms[2], KeepAll);
    assert [] + [ms[0]] == ms[..1] && ms[..1] + [ms[1]] == ms[..2] && ms[..2] + [ms[2]] == ms;
  }

  /** The header of the second, last page of the client's test: first and prev set, next and last empty. */
  lemma SecondPageHeader()
    ensures Recorded(FindAll(RenderAll([LinkMatch(EntriesPage1, "first"), LinkMatch(EntriesPage1, "prev")])), KeepAll)
      == Links(EntriesPage1, EntriesPage1, "", "")
  {
    var ms := [LinkMatch(EntriesPage1, "first"), LinkMatch(EntriesPage1, "prev")];
    EntriesPageClean('1');
    FindAllRenderAll(ms);
    RecordedFirstPrev(ms);
  }

  lemma RecordedFirstPrev(ms: seq<LinkMatch>)
    requires |ms| == 2 && ms[0].rel == "first" && ms[1].rel == "prev"
    ensures Recorded(ms, KeepAll) == Links(ms[0].url, ms[1].url, "", "")
  {
    LaterLinkOverwrites([], ms[0], KeepAll);
    LaterLinkOverwrites([ms[0]], ms[1], KeepAll);
    assert [] + [ms[0]] == [ms[0]] && [ms[0]] + [ms[1]] == ms;
  }

  // ---------------------------------------------------------------------------
  // do
  // ---------------------------------------------------------------------------

  /** `APIError`: status code, the body read from the response, and the message. */
  datatype ApiError = ApiError(statusCode: int, body: string, message: string)

  /** An error `do` returns: an `*APIError`, or any other error by its text. */
  datatype Failure = Api(err: ApiError) | Other(text: string)

  /** What `do` returns besides the response, for a request with a decoding target. */
  datatype DoResult<T> = Done(value: T) | Failed(failure: Failure)

  const ApiErrorPrefix: string := "API error: "

  /** `NewAPIError`. */
  function NewApiError(resp: Response): (e: ApiError)
    ensures e.statusCode == resp.statusCode && e.body == resp.body
    ensures ApiErrorPrefix <= e.message && e.message[|ApiErrorPrefix|..] == resp.status
  {
    ApiError(resp.statusCode, resp.body, ApiErrorPrefix + resp.status)
  }

  /**
   * `do` once the response is in: any status outside 200-299 is an
   * `*APIError` carrying the code, the body and the status line; otherwise
   * the body is decoded into the target.
   */
  function Do<T>(resp: Response, decode: string -> Decoded<T>): (r: DoResult<T>)
    ensures (r.Failed? && r.failure.Api?) <==> !Is2xx(resp.statusCode)
    ensures !Is2xx(resp.statusCode) ==>
      r.failure.err == ApiError(resp.statusCode, resp.body, ApiErrorPrefix + resp.status)
    ensures r.Done? <==> Is2xx(resp.statusCode) && decode(resp.body).Decoded?
    ensures r.Done? ==> decode(resp.body) == Decoded(r.value)
  {
    if !Is2xx(resp.statusCode) then Failed(Api(NewApiError(resp)))
    else match decode(resp.body)
      case Decoded(v) => Done(v)
      case DecodeEOF => Failed(Other("EOF"))
      case DecodeFailed(reason) => Failed(Other(reason))
  }

  // ---------------------------------------------------------------------------
  // Subscriptions.Create
  // ---------------------------------------------------------------------------

  /** One feed the server offers when a page links several. */
  datatype Choice = Choice(feedUrl: string, title: string)

  /** How `Create` ends: a new subscription, a lookup of an existing one by id, or an error text. */
  datatype CreateOutcome<T> = Created(subscription: T) | FetchExisting(id: int) | CreateFailed(message: string)

  const MultipleFeeds: string := "multiple feeds found: "
  const MultipleFeedsUnparsed: string := "multiple feeds found but could not parse response: "
  const NoLocation: string := "subscription already exists but no Location header found"

  /** `%v` of one choice: `{url title}`. */
  function ChoiceText(c: Choice): string
  {
    "{" + c.feedUrl + " " + c.title + "}"
  }

  /** The choices' `%v` texts separated by single spaces. */
  function ChoiceTexts(cs: seq<Choice>): string
  {
    if |cs| == 0 then ""
    else if |cs| == 1 then ChoiceText(cs[0])
    else ChoiceText(cs[0]) + " " + ChoiceTexts(cs[1..])
  }

  /** `%v` of the decoded slice of choices: `[{url title} {url title}]`. */
  function FormatChoices(cs: seq<Choice>): (s: string)
    ensures |s| >= 2 && s[0] == '[' && s[|s| - 1] == ']'
    ensures cs == [] ==> s == "[]"
  {
    "[" + ChoiceTexts(cs) + "]"
  }

  /** Every choice appears in the listing, with its URL and title. */
  lemma {:induction false} ChoiceListed(cs: seq<Choice>, i: nat)
    requires i < |cs|
    ensures IsInfix(ChoiceText(cs[i]), FormatChoices(cs))
  {
    var k := ChoiceAt(cs, i);
    var s := ChoiceTexts(cs);
    var x := ChoiceText(cs[i]);
    assert FormatChoices(cs) == "[" + s + "]";
    assert ("[" + s + "]")[k + 1..k + 1 + |x|] == s[k..k + |x|];
    assert InfixAt(x, FormatChoices(cs), k + 1);
  }

  /** Where the text of choice `i` starts in `ChoiceTexts(cs)`. */
  lemma {:induction false} ChoiceAt(cs: seq<Choice>, i: nat) returns (k: nat)
    requires i < |cs|
    ensures InfixAt(ChoiceText(cs[i]), ChoiceTexts(cs), k)
  {
    if i == 0 {
      k := 0;
      FirstChoiceAt(cs);
    } else {
      var j := ChoiceAt(cs[1..], i - 1);
      assert cs[1..][i - 1] == cs[i];
      LaterChoiceAt(cs, ChoiceText(cs[i]), j);
      k := |ChoiceText(cs[0])| + 1 + j;
    }
  }

  lemma FirstChoiceAt(cs: seq<Choice>)
    requires |cs| > 0
    ensures InfixAt(ChoiceText(cs[0]), ChoiceTexts(cs), 0)
  {
    if |cs| == 1 {
      OnlyChoiceAt(cs);
    } else {
      HeadChoiceAt(cs);
    }
  }

  lemma OnlyChoiceAt(cs: seq<Choice>)
    requires |cs| == 1
    ensures InfixAt(ChoiceText(cs[0]), ChoiceTexts(cs), 0)
  {
    InfixAtStart(ChoiceText(cs[0]), "");
    assert ChoiceText(cs[0]) + "" == ChoiceTexts(cs);
  }

  lemma HeadChoiceAt(cs: seq<Choice>)
    requires |cs| > 1
    ensures InfixAt(ChoiceText(cs[0]), ChoiceTexts(cs), 0)
  {
    InfixAtStart(ChoiceText(cs[0]), " " + ChoiceTexts(cs[1..]));
    assert ChoiceText(cs[0]) + (" " + ChoiceTexts(cs[1..])) == ChoiceTexts(cs);
  }

  lemma LaterChoiceAt(cs: seq<Choice>, x: string, j: nat)
    requires |cs| > 1 && InfixAt(x, ChoiceTexts(cs[1..]), j)
    ensures InfixAt(x, ChoiceTexts(cs), |ChoiceText(cs[0])| + 1 + j)
  {
    InfixAfter(x, ChoiceText(cs[0]) + " ", ChoiceTexts(cs[1..]), j);
  }

  lemma InfixAtStart(x: string, y: string)
    ensures InfixAt(x, x + y, 0)
  {
    assert (x + y)[0..|x|] == x;
  }

  lemma InfixAfter(x: string, p: string, rest: string, j: int)
    requires InfixAt(x, rest, j)
    ensures InfixAt(x, p + rest, |p| + j)
  {
    assert (p + rest)[|p| + j..|p| + j + |x|] == rest[j..j + |x|];
  }

  /** The error text for a 300 answer: the listed choices, or why the body could not be read as choices. */
  function MultipleChoicesText(body: string, choices: string -> Result<seq<Choice>, string>): (t: string)
    ensures choices(body).Ok? ==> t == MultipleFeeds + FormatChoices(choices(body).value)
    ensures choices(body).Err? ==> t == MultipleFeedsUnparsed + choices(body).error
  {
    match choices(body)
    case Ok(cs) => MultipleFeeds + FormatChoices(cs)
    case Err(reason) => MultipleFeedsUnparsed + reason
  }

  /** `parseInt`: `fmt.Sscanf(s, "%d", &i)`, with 0 when nothing is read. */
  function ParseInt(s: string): (n: int)
    ensures (forall i :: 0 <= i < |s| ==> !IsDigit(s[i])) ==> n == 0
  {
    match ScanInt(s)
    case Some(v) => v
    case None => 0
  }

  lemma ParseIntItoa(n: int)
    requires InInt64(n)
    ensures ParseInt(Itoa(n)) == n
  {
    ScanIntItoa(n);
  }

  /** The id in a `Location` value: its last '/'-separated segment without a ".json" suffix, read by `parseInt`. */
  function LocationId(location: string): (id: int)
    ensures '/' !in location ==> id == ParseInt(TrimSuffix(location, ".json"))
  {
    var parts := Split(location, '/');
    assert '/' !in location ==> parts == [location] by {
      if '/' !in location { SplitWithoutSeparator(location, '/'); }
    }
    ParseInt(TrimSuffix(parts[|parts| - 1], ".json"))
  }

  /** The last piece of a split is what follows the last separator. */
  lemma {:induction false} SplitLastPiece(a: string, b: string, sep: char)
    requires sep !in b
    ensures |Split(a + [sep] + b, sep)| >= 2
    ensures Split(a + [sep] + b, sep)[|Split(a + [sep] + b, sep)| - 1] == b
  {
    if |a| == 0 {
      assert a + [sep] + b == "" + [sep] + b;
      SplitFirst("", b, sep);
      SplitWithoutSeparator(b, sep);
    } else {
      var s := a + [sep] + b;
      assert s[1..] == a[1..] + [sep] + b;
      SplitLastPiece(a[1..], b, sep);
    }
  }

  /** `/subscriptions/<id>.json`, the path `Get` requests. */
  function SubscriptionPath(id: int): string
  {
    "/subscriptions/" + Itoa(id) + ".json"
  }

  /** Only the segment after the last '/' of a `Location` decides the id. */
  lemma LastSegmentDecides(prefix: string, seg: string)
    requires '/' !in seg
    ensures LocationId(prefix + "/" + seg) == ParseInt(TrimSuffix(seg, ".json"))
  {
    SplitLastPiece(prefix, seg, '/');
    assert prefix + "/" + seg == prefix + ['/'] + seg;
  }

  /**
   * A `Location` ending in `/<id>.json`, or in `/<id>`, names subscription
   * `id`, whatever precedes that last '/'.
   */
  lemma LocationIdReadsBack(prefix: string, n: int)
    requires InInt64(n)
    ensures LocationId(prefix + "/" + Itoa(n) + ".json") == n
    ensures LocationId(prefix + "/" + Itoa(n)) == n
  {
    var d := Itoa(n);
    assert '/' !in d by {
      assert forall i :: 0 <= i < |d| ==> d[i] == '-' || IsDigit(d[i]);
    }
    assert '/' !in d + ".json";
    LastSegmentDecides(prefix, d + ".json");
    assert prefix + "/" + d + ".json" == prefix + "/" + (d + ".json");
    assert IsSuffix(".json", d + ".json");
    assert TrimSuffix(d + ".json", ".json") == d;
    LastSegmentDecides(prefix, d);
    assert !IsSuffix(".json", d) by {
      assert d[|d| - 1] != 'n';
    }
    ParseIntItoa(n);
  }

  /** The URL `Get` would request for a subscription, given back as a `Location`, names that subscription again. */
  lemma LocationOfGetUrl(c: Client, n: int)
    requires InInt64(n)
    ensures LocationId(NewRequest(c, "GET", SubscriptionPath(n), None).url) == n
  {
    var p := SubscriptionPath(n);
    assert p[1..] == "subscriptions/" + Itoa(n) + ".json";
    assert c.baseUrl + p[1..] == (c.baseUrl + "subscriptions") + "/" + Itoa(n) + ".json";
    LocationIdReadsBack(c.baseUrl + "subscriptions", n);
  }

  /** A last segment without any digit, such as `abc.json`, names subscription 0. */
  lemma LocationWithoutDigits(prefix: string, seg: string)
    requires '/' !in seg
    requires forall i :: 0 <= i < |seg| ==> !IsDigit(seg[i])
    ensures LocationId(prefix + "/" + seg) == 0
  {
    LastSegmentDecides(prefix, seg);
    var t := TrimSuffix(seg, ".json");
    assert forall i :: 0 <= i < |t| ==> t[i] == seg[i];
  }

  /** The "subscription already exists" step: no `Location` is an error, otherwise the id it names is looked up. */
  function FromLocation<T>(location: string): (o: CreateOutcome<T>)
    ensures o.CreateFailed? <==> location == ""
    ensures o.CreateFailed? ==> o.message == NoLocation
  {
    if location == "" then CreateFailed(NoLocation) else FetchExisting(LocationId(location))
  }

  /**
   * `Create` as written, once `do` has answered: a 300 `*APIError` becomes
   * the "multiple feeds" error, any other error is returned as it is, and a
   * decoded subscription is returned unless the status is 302.
   */
  function CreateAsWritten<T>(resp: Response, decode: string -> Decoded<T>, choices: string -> Result<seq<Choice>, string>)
    : (o: CreateOutcome<T>)
    ensures resp.statusCode == 300 ==> o == CreateFailed(MultipleChoicesText(resp.body, choices))
    ensures !Is2xx(resp.statusCode) && resp.statusCode != 300 ==> o == CreateFailed(ApiErrorPrefix + resp.status)
    ensures o.Created? <==> Is2xx(resp.statusCode) && decode(resp.body).Decoded?
    ensures o.Created? ==> decode(resp.body) == Decoded(o.subscription)
  {
    match Do(resp, decode)
    case Failed(Api(e)) => CreateFailed(if e.statusCode == 300 then MultipleChoicesText(e.body, choices) else e.message)
    case Failed(Other(t)) => CreateFailed(t)
    case Done(s) => if resp.statusCode == 302 then FromLocation(Get(resp.header, "Location")) else Created(s)
  }

  /**
   * The "already exists" branch of `Create` as written is dead: `do` has
   * already turned a 302 into an `*APIError`, so no response leads to the
   * lookup by `Location`, and a 302 ends in the bare status error.
   */
  lemma ExistingNeverFetched<T>(resp: Response, decode: string -> Decoded<T>, choices: string -> Result<seq<Choice>, string>)
    ensures !CreateAsWritten(resp, decode, choices).FetchExisting?
    ensures resp.statusCode == 302 ==> CreateAsWritten(resp, decode, choices) == CreateFailed(ApiErrorPrefix + resp.status)
  {
  }

  /**
   * `Create` as its comments describe it: a 302 means the subscription
   * exists and is looked up through its `Location`; every other status is
   * handled as before.
   */
  function Create<T>(resp: Response, decode: string -> Decoded<T>, choices: string -> Result<seq<Choice>, string>)
    : (o: CreateOutcome<T>)
    ensures resp.statusCode == 302 ==> o == FromLocation(Get(resp.header, "Location"))
    ensures resp.statusCode != 302 ==> o == CreateAsWritten(resp, decode, choices)
  {
    if resp.statusCode == 302 then FromLocation(Get(resp.header, "Location"))
    else CreateAsWritten(resp, decode, choices)
  }

  /**
   * With the intended handling a 302 whose `Location` ends in `/<id>.json`
   * looks subscription `id` up, and one without a `Location` is the
   * "no Location header" error.
   */
  lemma ExistingFetched<T>(resp: Response, decode: string -> Decoded<T>, choices: string -> Result<seq<Choice>, string>,
                           prefix: string, n: int)
    requires resp.statusCode == 302 && InInt64(n)
    ensures Get(resp.header, "Location") == prefix + "/" + Itoa(n) + ".json" ==>
      Create(resp, decode, choices) == FetchExisting(n)
    ensures Get(resp.header, "Location") == "" ==> Create(resp, decode, choices) == CreateFailed(NoLocation)
  {
    LocationIdReadsBack(prefix, n);
  }
}
