/**
 * The `windsurf-cascade-claude-3.7` client (client.go): requests carry the
 * validators the client last received, `Do` records new ones from every
 * response before it looks at the status, and any status outside 200-299
 * is an `*Error` whose message depends on the code alone.
 */
module Windsurf {
  import opened GoText
  import opened HttpModel
  import U = UrlRef

  const BaseUrl: string := "https://api.feedbin.com/v2/"
  const UserAgent: string := "Go-Feedbin-Client/1.0"
  const JsonContentType: string := "application/json; charset=utf-8"

  /** The headers `NewRequest` may set; basic authentication is the request's `auth`. */
  const RequestHeaders: set<string> := {"Content-Type", "Accept", "User-Agent", "If-None-Match", "If-Modified-Since"}

  /** `Error`: the status code and the message. */
  datatype Error = Error(statusCode: int, message: string)

  /** An error `Do` returns: an `*Error`, or any other error by its text. */
  datatype Failure = Api(err: Error) | Other(text: string)

  /** What `Do` returns besides the response: a decoded value (or none), or an error. */
  datatype DoResult<T> = Done(value: Option<T>) | Failed(failure: Failure)

  const FailedPrefix: string := "API request failed with status code: "

  /** `Error.Error()`: `feedbin: <code> - <message>`. */
  function ErrorText(e: Error): (s: string)
    ensures "feedbin: " + Itoa(e.statusCode) <= s
    ensures IsSuffix(" - " + e.message, s)
    ensures |s| == |"feedbin: " + Itoa(e.statusCode)| + |" - " + e.message|
  {
    var p := "feedbin: " + Itoa(e.statusCode);
    var s := p + (" - " + e.message);
    assert s[..|p|] == p;
    assert s[|s| - |" - " + e.message|..] == " - " + e.message;
    s
  }

  /**
   * `CheckResponse`: no error exactly for 200-299; otherwise an `*Error`
   * with the response's code and a message naming that code.
   */
  function CheckResponse(resp: Response): (r: Option<Error>)
    ensures r.None? <==> Is2xx(resp.statusCode)
    ensures r.Some? ==> r.value.statusCode == resp.statusCode
    ensures r.Some? ==> r.value.message == FailedPrefix + Itoa(resp.statusCode)
    ensures r.Some? ==> IsSuffix(Itoa(resp.statusCode), r.value.message) && FailedPrefix <= r.value.message
  {
    if Is2xx(resp.statusCode) then None
    else
      var m := FailedPrefix + Itoa(resp.statusCode);
      assert m[|m| - |Itoa(resp.statusCode)|..] == Itoa(resp.statusCode);
      Some(Error(resp.statusCode, m))
  }

  /** Two responses with the same code get the same error, whatever their status line, header and body. */
  lemma CheckResponseByCodeOnly(r1: Response, r2: Response)
    requires r1.statusCode == r2.statusCode
    ensures CheckResponse(r1) == CheckResponse(r2)
  {
  }

  /** A 304 Not Modified is an error like any other non-2xx status. */
  lemma NotModifiedIsError(resp: Response)
    requires resp.statusCode == 304
    ensures CheckResponse(resp) == Some(Error(304, FailedPrefix + "304"))
  {
    assert Itoa(304) == "304";
  }

  /** The code can be read back from the error's message. */
  lemma CodeInMessage(resp: Response)
    requires !Is2xx(resp.statusCode) && InInt64(resp.statusCode)
    ensures Atoi(CheckResponse(resp).value.message[|FailedPrefix|..]) == Some(resp.statusCode)
  {
    var m := CheckResponse(resp).value.message;
    assert m[|FailedPrefix|..] == Itoa(resp.statusCode);
    AtoiItoa(resp.statusCode);
  }

  // ---------------------------------------------------------------------------
  // client.go: the request URL
  // ---------------------------------------------------------------------------

  /**
   * The URL `c.BaseURL.Parse(path)` gives, as written: a relative path lands
   * under the base path, but a path starting with '/' replaces it, so the
   * "/v2/" of the API's base is lost.
   */
  function ParsedUrl(base: U.AbsUrl, path: string): (u: string)
    ensures U.IsDirPath(base.path) && U.IsRelative(path) ==> u == U.Text(base) + path
    ensures |path| > 0 && path[0] == '/' ==> u == base.origin + path
  {
    var u := U.ResolveParsed(base, path);
    assert U.IsDirPath(base.path) && U.IsRelative(path) ==> u == U.Text(base) + path by {
      if U.IsDirPath(base.path) && U.IsRelative(path) { U.ResolveParsedRelative(base, path); }
    }
    assert |path| > 0 && path[0] == '/' ==> u == base.origin + path by {
      if |path| > 0 && path[0] == '/' { U.ResolveParsedRooted(base, path); }
    }
    u
  }

  /** The callers' "/icons.json" reaches https://api.feedbin.com/icons.json, outside the API version. */
  lemma RootedPathDropsVersion(p: string)
    ensures ParsedUrl(U.FeedbinBase, "/" + p) == "https://api.feedbin.com/" + p
    ensures ParsedUrl(U.FeedbinBase, "/" + p) != BaseUrl + p
  {
    var rooted := "/" + p;
    assert rooted[0] == '/';
    assert U.FeedbinBase.origin + rooted == "https://api.feedbin.com/" + p;
    assert |"https://api.feedbin.com/" + p| != |BaseUrl + p|;
  }

  /** The path with every leading '/' removed. */
  function StripSlashes(p: string): (r: string)
    ensures |r| <= |p| && r == p[|p| - |r|..]
    ensures forall i :: 0 <= i < |p| - |r| ==> p[i] == '/'
    ensures U.IsRelative(r)
  {
    if |p| > 0 && p[0] == '/' then StripSlashes(p[1..]) else p
  }

  /**
   * The URL `NewRequest` is meant to build: every path, with or without a
   * leading '/', relative to the base, so each call stays under "/v2/".
   */
  function ApiUrl(base: U.AbsUrl, path: string): (u: string)
    ensures U.IsDirPath(base.path) ==> u == U.Text(base) + StripSlashes(path)
  {
    ParsedUrl(base, StripSlashes(path))
  }

  /** A leading '/' makes no difference: "/icons.json" and "icons.json" name the same endpoint. */
  lemma ApiUrlKeepsVersion(p: string)
    requires U.IsRelative(p)
    ensures ApiUrl(U.FeedbinBase, "/" + p) == ApiUrl(U.FeedbinBase, p) == BaseUrl + p
  {
    U.FeedbinBaseText();
    assert ("/" + p)[1..] == p;
  }

  class Client {
    var baseUrl: U.AbsUrl
    var username: string
    var password: string
    /** The last non-empty `ETag` a response carried, or "". */
    var lastETag: string
    /** The last non-empty `Last-Modified` a response carried, or "". */
    var lastModified: string

    /** `NewClient`: the default base URL and no validators yet. */
    constructor (username: string, password: string)
      ensures this.baseUrl == U.FeedbinBase && this.username == username && this.password == password
      ensures lastETag == "" && lastModified == ""
    {
      this.baseUrl := U.FeedbinBase;
      this.username := username;
      this.password := password;
      lastETag := "";
      lastModified := "";
    }

    /**
     * `NewRequest`, its URL as intended (`ApiUrl`): basic authentication and
     * the headers `Headers` sets.
     */
    method NewRequest(verb: string, path: string, body: Option<Payload>) returns (req: Request)
      ensures req.verb == verb && req.url == ApiUrl(baseUrl, path) && req.body == body
      ensures req.auth == Some(Credentials(username, password))
      ensures req.header.Keys <= RequestHeaders
      ensures Get(req.header, "Accept") == AcceptJson && Get(req.header, "User-Agent") == UserAgent
      ensures "Content-Type" in req.header <==> body.Some?
      ensures body.Some? ==> req.header["Content-Type"] == JsonContentType
      ensures "If-None-Match" in req.header <==> lastETag != ""
      ensures "If-Modified-Since" in req.header <==> lastModified != ""
      ensures Get(req.header, "If-None-Match") == lastETag
      ensures Get(req.header, "If-Modified-Since") == lastModified
    {
      var h := Headers(body);
      req := Request(verb, ApiUrl(baseUrl, path), h, Some(Credentials(username, password)), body);
    }

    /**
     * The headers of `NewRequest`: `Accept` and `User-Agent` always;
     * `Content-Type` exactly with a body; the two conditional headers exactly
     * when the client holds that validator.
     */
    method Headers(body: Option<Payload>) returns (h: Header)
      ensures h.Keys <= RequestHeaders
      ensures Get(h, "Accept") == AcceptJson && Get(h, "User-Agent") == UserAgent
      ensures "Content-Type" in h <==> body.Some?
      ensures body.Some? ==> h["Content-Type"] == JsonContentType
      ensures "If-None-Match" in h <==> lastETag != ""
      ensures "If-Modified-Since" in h <==> lastModified != ""
      ensures Get(h, "If-None-Match") == lastETag
      ensures Get(h, "If-Modified-Since") == lastModified
    {
      h := map[];
      if body.Some? {
        h := h["Content-Type" := JsonContentType];
      }
      h := h["Accept" := AcceptJson];
      h := h["User-Agent" := UserAgent];
      if lastETag != "" {
        h := h["If-None-Match" := lastETag];
      }
      if lastModified != "" {
        h := h["If-Modified-Since" := lastModified];
      }
    }

    /**
     * `Do` once the response is in: each validator is replaced by the
     * response's header when that is non-empty, before and whatever the
     * status; then `CheckResponse`'s error, if any; otherwise `decode` (the
     * target, if any) reads the body.
     */
    method Do<T>(resp: Response, decode: Option<string -> Decoded<T>>) returns (r: DoResult<T>)
      modifies this
      ensures lastETag == (if Get(resp.header, "ETag") != "" then Get(resp.header, "ETag") else old(lastETag))
      ensures lastModified == (if Get(resp.header, "Last-Modified") != "" then Get(resp.header, "Last-Modified") else old(lastModified))
      ensures baseUrl == old(baseUrl) && username == old(username) && password == old(password)
      ensures !Is2xx(resp.statusCode) ==> r == Failed(Api(CheckResponse(resp).value))
      ensures Is2xx(resp.statusCode) && decode.None? ==> r == Done(None)
      ensures r.Done? && r.value.Some? ==> decode.Some? && decode.value(resp.body) == Decoded(r.value.value)
      ensures Is2xx(resp.statusCode) && decode.Some? && decode.value(resp.body).Decoded? ==>
        r == Done(Some(decode.value(resp.body).value))
      ensures r.Failed? <==> (!Is2xx(resp.statusCode) || (decode.Some? && !decode.value(resp.body).Decoded?))
    {
      var etag := Get(resp.header, "ETag");
      if etag != "" {
        lastETag := etag;
      }
      var lastMod := Get(resp.header, "Last-Modified");
      if lastMod != "" {
        lastModified := lastMod;
      }
      var err := CheckResponse(resp);
      if err.Some? {
        return Failed(Api(err.value));
      }
      if decode.Some? {
        match decode.value(resp.body)
        case Decoded(v) => return Done(Some(v));
        case DecodeEOF => return Failed(Other("EOF"));
        case DecodeFailed(reason) => return Failed(Other(reason));
      }
      return Done(None);
    }

    /**
     * A conditional request and its answer: the request carries the
     * validators held before; when the server answers 304 Not Modified, as
     * the validators invite it to, `Do` reports an `*Error` with code 304,
     * and the validators the 304 carried are kept all the same.
     */
    method ConditionalRound<T>(verb: string, path: string, resp: Response, decode: Option<string -> Decoded<T>>)
      returns (req: Request, r: DoResult<T>)
      modifies this
      ensures Get(req.header, "If-None-Match") == old(lastETag)
      ensures resp.statusCode == 304 ==> r.Failed? && r.failure == Api(Error(304, FailedPrefix + "304"))
      ensures Get(resp.header, "ETag") != "" ==> lastETag == Get(resp.header, "ETag")
    {
      req := NewRequest(verb, path, None);
      if resp.statusCode == 304 {
        NotModifiedIsError(resp);
      }
      r := Do(resp, decode);
    }
  }
}
