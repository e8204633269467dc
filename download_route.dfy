/** The server-side download proxy (app/api/download/route.ts): it needs a
    task id, asks the generation service for the task's files, and passes
    the answer back when it is a successful JSON reply. */
module DownloadRoute {
  import opened Strings
  import opened Web

  const MissingUuidError := "Missing task_uuid"
  const DownloadFailedError := "Failed to download model"
  const NonJsonError := "Download API returned non-JSON response"

  /** What destructuring `{ task_uuid }` out of a `null` body throws; the
      stack trace is reduced to its first line. */
  const NullBodyError := ErrorValue(
    "Cannot destructure property 'task_uuid' of 'body' as it is null.",
    "TypeError: Cannot destructure property 'task_uuid' of 'body' as it is null.")

  /** The reply, and the body sent to the service (`None` when no call was
      made). */
  datatype Outcome = Outcome(reply: Reply, forwarded: Option<Json>)

  /** The reply of the catch block (lines 50-56). */
  function CatchReply(error: Thrown): (r: Reply)
    ensures r.status == 500 && Get(r.body, "error") == Some(JString(DownloadFailedError))
    ensures Get(r.body, "details") == Some(JString(match error
                                                  case ErrorValue(message, _) => message
                                                  case OtherValue(text) => text))
  {
    var details := match error
      case ErrorValue(message, _) => message
      case OtherValue(text) => text;
    Reply(500, ErrorDetailsBody(JString(DownloadFailedError), details))
  }

  /** The reply once the service has answered (lines 27-49): failure status
      first, then content type, then the decoded body as it is. */
  function ServiceReply(response: Response): (r: Reply)
    ensures !response.Ok() ==> r.status == response.status
    ensures !response.Ok() ==>
              Get(r.body, "error") == Some(JString("Download failed: " + NatToString(response.status))) &&
              Get(r.body, "details") == Some(JString(response.text))
    ensures response.Ok() && !IsJsonContentType(response.contentType) ==>
              r.status == 502 &&
              Get(r.body, "error") == Some(JString(NonJsonError)) &&
              Get(r.body, "details") == Some(JString(response.text))
    ensures response.Ok() && IsJsonContentType(response.contentType) && response.json.Throw? ==>
              r == CatchReply(response.json.error)
    ensures r.status == 200 <==> response.Ok() && IsJsonContentType(response.contentType) && response.json.Normal?
    ensures r.status == 200 ==> r.body == response.json.value
  {
    if !response.Ok() then
      Reply(response.status, ErrorDetailsBody(JString("Download failed: " + NatToString(response.status)), response.text))
    else if !IsJsonContentType(response.contentType) then
      Reply(502, ErrorDetailsBody(JString(NonJsonError), response.text))
    else match response.json
      case Throw(e) => CatchReply(e)
      case Normal(data) => Reply(200, data)
  }

  /** `POST` (lines 5-57): `body` is how reading the request as JSON
      completed, `upstream` how the call to the service completed. */
  function Post(body: Completion<Json>, upstream: Completion<Response>): (r: Outcome)
    ensures r.forwarded.Some? <==> body.Normal? && body.value != JNull && Truthy(Get(body.value, "task_uuid"))
    ensures r.forwarded.Some? ==> r.forwarded.value == JObject(map["task_uuid" := Get(body.value, "task_uuid").value])
    ensures body.Throw? ==> r.reply == CatchReply(body.error)
    ensures body == Normal(JNull) ==> r.reply == CatchReply(NullBodyError)
    ensures body.Normal? && body.value != JNull && !Truthy(Get(body.value, "task_uuid")) ==>
              r.reply == Reply(400, ErrorBody(MissingUuidError))
    ensures r.forwarded.Some? ==>
              r.reply == match upstream
                         case Throw(e) => CatchReply(e)
                         case Normal(response) => ServiceReply(response)
  {
    match body
    case Throw(e) => Outcome(CatchReply(e), None)
    case Normal(b) =>
      if b == JNull then Outcome(CatchReply(NullBodyError), None)
      else
        var taskUuid := Get(b, "task_uuid");
        if !Truthy(taskUuid) then Outcome(Reply(400, ErrorBody(MissingUuidError)), None)
        else
          var request := JObject(map["task_uuid" := taskUuid.value]);
          match upstream
          case Throw(e) => Outcome(CatchReply(e), Some(request))
          case Normal(response) => Outcome(ServiceReply(response), Some(request))
  }

  /** Without a usable task id the reply does not depend on the service at
      all: the task id is checked before anything else happens. */
  lemma UuidCheckedFirst(body: Completion<Json>, u1: Completion<Response>, u2: Completion<Response>)
    requires !(body.Normal? && body.value != JNull && Truthy(Get(body.value, "task_uuid")))
    ensures Post(body, u1) == Post(body, u2)
  {
  }

  /** A failure status is passed through whatever the content type says,
      so it is never turned into a success. */
  lemma FailureStatusPassedThrough(response: Response, contentType: Option<string>)
    requires !response.Ok()
    ensures ServiceReply(response) == ServiceReply(response.(contentType := contentType))
    ensures ServiceReply(response).status != 200
  {
  }
}
