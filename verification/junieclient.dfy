/**
 * The `jetbrains-junie` client (client.go): requests carry the conditional
 * validators the client remembers, and every response sent through `Do`
 * updates them.
 */
module JunieClient {
  import opened GoText
  import opened HttpModel
  import opened JunieErrors

  const BaseUrl: string := "https://api.feedbin.com/v2"
  const JsonContentType: string := "application/json; charset=utf-8"

  /** The headers `NewRequest` may set; basic authentication is the request's `auth`. */
  const RequestHeaders: set<string> := {"Accept", "Content-Type", "If-None-Match", "If-Modified-Since"}

  /** What `Do` returns besides the response: a decoded value (or none), or an error. */
  datatype DoResult<T> = Done(value: Option<T>) | Failed(err: Error)

  /** A status `Do` returns without decoding anything: 304 Not Modified and 204 No Content. */
  predicate NoBody(code: int) { code == 304 || code == 204 }

  class Client {
    var baseUrl: string
    var username: string
    var password: string
    /** The last non-empty `ETag` a response carried, or "". */
    var lastETag: string
    /** The last non-empty `Last-Modified` a response carried, or "". */
    var lastModified: string

    /** `NewClient`: the default base URL and no validators yet. */
    constructor (username: string, password: string)
      ensures this.baseUrl == BaseUrl && this.username == username && this.password == password
      ensures lastETag == "" && lastModified == ""
    {
      this.baseUrl := BaseUrl;
      this.username := username;
      this.password := password;
      lastETag := "";
      lastModified := "";
    }

    /**
     * `NewRequest`: basic authentication and `Accept` always; `Content-Type`
     * exactly when there is a body; `If-None-Match` and `If-Modified-Since`
     * exactly when the client holds a validator of that kind, with its value.
     */
    method NewRequest(verb: string, path: string, body: Option<Payload>) returns (req: Request)
      ensures req.verb == verb && req.url == baseUrl + path && req.body == body
      ensures req.auth == Some(Credentials(username, password))
      ensures req.header.Keys <= RequestHeaders
      ensures Get(req.header, "Accept") == AcceptJson
      ensures "Content-Type" in req.header <==> body.Some?
      ensures body.Some? ==> req.header["Content-Type"] == JsonContentType
      ensures "If-None-Match" in req.header <==> lastETag != ""
      ensures "If-Modified-Since" in req.header <==> lastModified != ""
      ensures Get(req.header, "If-None-Match") == lastETag
      ensures Get(req.header, "If-Modified-Since") == lastModified
    {
      var h: Header := map["Accept" := AcceptJson];
      if body.Some? {
        h := h["Content-Type" := JsonContentType];
      }
      if lastETag != "" {
        h := h["If-None-Match" := lastETag];
      }
      if lastModified != "" {
        h := h["If-Modified-Since" := lastModified];
      }
      req := Request(verb, baseUrl + path, h, Some(Credentials(username, password)), body);
    }

    /**
     * `Do` once the response is in: each validator is replaced by the
     * response's header when that is non-empty, whatever the status; then a
     * status of 400 or more is an `APIError`, 304 and 204 return without
     * decoding, and otherwise `decode` (the target, if any) reads the body,
     * an empty body being an error.
     */
    method Do<T>(resp: Response, decode: Option<string -> Decoded<T>>) returns (r: DoResult<T>)
      modifies this
      ensures lastETag == (if Get(resp.header, "ETag") != "" then Get(resp.header, "ETag") else old(lastETag))
      ensures lastModified == (if Get(resp.header, "Last-Modified") != "" then Get(resp.header, "Last-Modified") else old(lastModified))
      ensures baseUrl == old(baseUrl) && username == old(username) && password == old(password)
      ensures resp.statusCode >= 400 ==> r == Failed(Api(NewAPIError(resp)))
      ensures resp.statusCode < 400 && (NoBody(resp.statusCode) || decode.None?) ==> r == Done(None)
      ensures r.Done? && r.value.Some? ==> decode.Some? && decode.value(resp.body) == Decoded(r.value.value)
      ensures resp.statusCode < 400 && !NoBody(resp.statusCode) && decode.Some? && decode.value(resp.body).Decoded? ==>
        r == Done(Some(decode.value(resp.body).value))
      ensures r.Failed? <==>
        (resp.statusCode >= 400 || (!NoBody(resp.statusCode) && decode.Some? && !decode.value(resp.body).Decoded?))
    {
      var etag := Get(resp.header, "ETag");
      if etag != "" {
        lastETag := etag;
      }
      var lastMod := Get(resp.header, "Last-Modified");
      if lastMod != "" {
        lastModified := lastMod;
      }
      if resp.statusCode >= 400 {
        return Failed(Api(NewAPIError(resp)));
      }
      if resp.statusCode == 304 {
        return Done(None);
      }
      if decode.Some? && resp.statusCode != 204 {
        match decode.value(resp.body)
        case Decoded(v) => return Done(Some(v));
        case DecodeEOF => return Failed(Other("EOF"));
        case DecodeFailed(reason) => return Failed(Other(reason));
      }
      return Done(None);
    }

    /**
     * `CheckAuth` once the response is in: true exactly for 200. The response
     * does not go through `Do`, so neither an error status nor its validators
     * touch the client.
     */
    method CheckAuth(resp: Response) returns (ok: bool)
      ensures ok <==> resp.statusCode == 200
    {
      ok := resp.statusCode == 200;
    }

    /**
     * A request made after `Do` revalidates against what the response
     * carried: its `If-None-Match` is the response's `ETag` when it had one,
     * and the validator held before otherwise.
     */
    method Revalidate<T>(resp: Response, decode: Option<string -> Decoded<T>>, verb: string, path: string)
      returns (r: DoResult<T>, next: Request)
      modifies this
      ensures Get(resp.header, "ETag") != "" ==> Get(next.header, "If-None-Match") == Get(resp.header, "ETag")
      ensures Get(resp.header, "ETag") == "" ==> Get(next.header, "If-None-Match") == old(lastETag)
      ensures old(lastETag) != "" ==> "If-None-Match" in next.header
      ensures Get(resp.header, "Last-Modified") != "" ==>
        Get(next.header, "If-Modified-Since") == Get(resp.header, "Last-Modified")
    {
      r := Do(resp, decode);
      next := NewRequest(verb, path, None);
    }
  }
}
