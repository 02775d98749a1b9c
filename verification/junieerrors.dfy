/** The API error of the `jetbrains-junie` client and its classification predicates (errors.go). */
module JunieErrors {
  import opened GoText
  import opened HttpModel

  /** `APIError` without its response back-pointer. */
  datatype APIError = APIError(statusCode: int, status: string, message: string)

  /** A Go `error` as the predicates see it: an `*APIError`, or any other error. */
  datatype Error = Api(apiError: APIError) | Other(text: string)

  const ErrorPrefix: string := "feedbin: "

  /**
   * `(*APIError).Error`: "feedbin: " and the status text, followed by ": "
   * and the message only when there is a message.
   */
  function ErrorText(e: APIError): (s: string)
    ensures ErrorPrefix + e.status <= s
    ensures e.message == "" ==> |s| == |ErrorPrefix| + |e.status|
    ensures e.message != "" ==> IsSuffix(": " + e.message, s) && |s| == |ErrorPrefix| + |e.status| + 2 + |e.message|
  {
    var head := ErrorPrefix + e.status;
    if e.message == "" then head
    else
      var s := head + (": " + e.message);
      assert s[..|head|] == head;
      assert s[|s| - |": " + e.message|..] == ": " + e.message;
      s
  }

  /** `NewAPIError`: the status code and status text of the response, and no message. */
  function NewAPIError(resp: Response): (e: APIError)
    ensures e.statusCode == resp.statusCode && e.status == resp.status && e.message == ""
  {
    APIError(resp.statusCode, resp.status, "")
  }

  predicate HasStatus(err: Error, code: int)
  {
    err.Api? && err.apiError.statusCode == code
  }

  /** Each predicate holds only for an `*APIError`; `PredicatesClassify` says for which one. */
  predicate IsNotFound(err: Error)
    ensures IsNotFound(err) ==> err.Api?
  {
    HasStatus(err, 404)
  }

  predicate IsUnauthorized(err: Error)
    ensures IsUnauthorized(err) ==> err.Api?
  {
    HasStatus(err, 401)
  }

  predicate IsForbidden(err: Error)
    ensures IsForbidden(err) ==> err.Api?
  {
    HasStatus(err, 403)
  }

  predicate IsMultipleChoices(err: Error)
    ensures IsMultipleChoices(err) ==> err.Api?
  {
    HasStatus(err, 300)
  }

  /**
   * The four predicates never hold together, none holds for an error that is
   * not an `*APIError`, and on the error `NewAPIError` builds from a response
   * each one holds exactly for its status. (`Do` builds that error only for a
   * status of 400 or more, so `IsMultipleChoices` never holds on an error it
   * returns.)
   */
  lemma PredicatesClassify(err: Error, resp: Response)
    ensures err.Other? ==> !IsNotFound(err) && !IsUnauthorized(err) && !IsForbidden(err) && !IsMultipleChoices(err)
    ensures (if IsNotFound(err) then 1 else 0) + (if IsUnauthorized(err) then 1 else 0)
          + (if IsForbidden(err) then 1 else 0) + (if IsMultipleChoices(err) then 1 else 0) <= 1
    ensures IsNotFound(Api(NewAPIError(resp))) <==> resp.statusCode == 404
    ensures IsUnauthorized(Api(NewAPIError(resp))) <==> resp.statusCode == 401
    ensures IsForbidden(Api(NewAPIError(resp))) <==> resp.statusCode == 403
    ensures IsMultipleChoices(Api(NewAPIError(resp))) <==> resp.statusCode == 300
  {
  }

  /** The error `Do` builds from a response carries no message, so its text is the status alone. */
  lemma ResponseErrorTextIsStatus(resp: Response)
    ensures ErrorText(NewAPIError(resp)) == ErrorPrefix + resp.status
  {
    var s := ErrorText(NewAPIError(resp));
    assert s[..|ErrorPrefix + resp.status|] == s;
  }
}
