/**
 * The bulk read/star operations of the `jetbrains-junie` client (unread.go,
 * starred.go): an empty id list does nothing, more than 1000 ids is an
 * error, and otherwise the ids go out under the endpoint's JSON field.
 */
module JunieBulk {
  import opened GoText
  import opened HttpModel
  import opened JunieErrors
  import opened JunieClient
  import CG = CursorGemini

  const MaxBulkIds: nat := 1000
  const TooManyMessage: string := "maximum of 1,000 entry IDs allowed"

  /** What the guards decide before any request is made. */
  datatype Guarded = Skip | Reject(err: APIError) | Proceed

  /**
   * The two guards every bulk operation starts with: no ids returns
   * nothing and no error; more than 1000 returns an `APIError` built
   * without a response, so with status code 0 and no status text.
   */
  function GuardIds(ids: seq<int>): (g: Guarded)
    ensures g.Skip? <==> |ids| == 0
    ensures g.Reject? <==> |ids| > MaxBulkIds
    ensures g.Proceed? <==> 0 < |ids| <= MaxBulkIds
    ensures g.Reject? ==> g.err.statusCode == 0 && g.err.status == "" && g.err.message == TooManyMessage
  {
    if |ids| == 0 then Skip
    else if |ids| > MaxBulkIds then Reject(APIError(0, "", TooManyMessage))
    else Proceed
  }

  /** The rejection's text has an empty status between its two separators. */
  lemma RejectionText(ids: seq<int>)
    requires |ids| > MaxBulkIds
    ensures ErrorText(GuardIds(ids).err) == ErrorPrefix + (": " + TooManyMessage)
  {
    var e := GuardIds(ids).err;
    assert ErrorPrefix + e.status == ErrorPrefix;
  }

  /** What a bulk call returns or sends. */
  datatype BulkOutcome = NoRequest | Rejected(err: APIError) | Sent(request: Request)

  /**
   * `MarkAsUnread`, `MarkAsRead`, `MarkAsReadAlternative`, `StarEntries`,
   * `UnstarEntries` and `UnstarEntriesAlternative` up to the request they
   * send: the guards, then a JSON request to the operation's endpoint whose
   * body holds the ids, in order, under `unread_entries` or `starred_entries`.
   */
  method Bulk(client: Client, op: CG.BulkOp, ids: seq<int>) returns (r: BulkOutcome)
    ensures r.NoRequest? <==> GuardIds(ids).Skip?
    ensures r.Rejected? <==> GuardIds(ids).Reject?
    ensures r.Rejected? ==> r.err == GuardIds(ids).err
    ensures r.Sent? ==> r.request.verb == CG.BulkVerb(op) && r.request.url == client.baseUrl + "/" + CG.BulkPath(op)
    ensures r.Sent? ==> r.request.body == Some(IdList(CG.BulkField(op), ids))
    ensures r.Sent? ==> Get(r.request.header, "Content-Type") == JsonContentType
    ensures r.Sent? ==> r.request.auth == Some(Credentials(client.username, client.password))
  {
    match GuardIds(ids)
    case Skip => return NoRequest;
    case Reject(e) => return Rejected(e);
    case Proceed =>
      var req := client.NewRequest(CG.BulkVerb(op), "/" + CG.BulkPath(op), Some(IdList(CG.BulkField(op), ids)));
      return Sent(req);
  }

  /**
   * The guards agree with those of the `cursor-gemini` client: the same id
   * lists are skipped, rejected and sent, with the same body, although that
   * client checks the cap first and words its message differently.
   */
  lemma GuardsAgreeWithCursorGemini(creds: Credentials, op: CG.BulkOp, ids: seq<int>)
    ensures GuardIds(ids).Skip? <==> CG.PlanBulk(creds, op, ids).NothingToDo?
    ensures GuardIds(ids).Reject? <==> CG.PlanBulk(creds, op, ids).TooMany?
    ensures GuardIds(ids).Proceed? <==> CG.PlanBulk(creds, op, ids).Send?
    ensures GuardIds(ids).Proceed? ==> CG.PlanBulk(creds, op, ids).request.body == Some(IdList(CG.BulkField(op), ids))
    ensures GuardIds(ids).Reject? ==> GuardIds(ids).err.message != CG.PlanBulk(creds, op, ids).message
  {
    if |ids| > MaxBulkIds {
      var m := CG.PlanBulk(creds, op, ids).message;
      assert TooManyMessage[12] != m[12];
    }
  }

  /** The default base URL with a junie path names the same endpoint as the `cursor-gemini` base URL with its path. */
  lemma SameEndpoints(op: CG.BulkOp)
    ensures BaseUrl + "/" + CG.BulkPath(op) == CG.BaseUrl + CG.BulkPath(op)
  {
    assert CG.BaseUrl == BaseUrl + "/";
  }
}
