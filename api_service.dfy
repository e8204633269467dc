/** The browser-side wrappers around the application's own API routes
    (lib/api-service.ts). Each one checks the status first, then the content
    type, and hands back the decoded body untouched; anything thrown on the
    way is rethrown as it is. */
module ApiService {
  import opened Strings
  import opened Web

  /** The two messages that tell the wrappers apart. */
  datatype Wrapper = Wrapper(failurePrefix: string, nonJsonMessage: string)

  const SubmitWrapper := Wrapper("API request failed", "Server returned non-JSON response")
  const StatusWrapper := Wrapper("Status check failed", "Status API returned non-JSON response")
  const DownloadWrapper := Wrapper("Download failed", "Download API returned non-JSON response")

  /** `new Error(message)`; the stack trace is reduced to its first line. */
  function NewError(message: string): (e: Thrown)
    ensures e.ErrorValue? && e.message == message
  {
    ErrorValue(message, "Error: " + message)
  }

  /** "<prefix>: <status> - <body text>" */
  function FailureMessage(w: Wrapper, response: Response): string {
    w.failurePrefix + ": " + NatToString(response.status) + " - " + response.text
  }

  /** The shared body of the three wrappers: `fetched` is how the `fetch`
      call completed; the result is what the wrapper returns or throws. */
  function Classify(w: Wrapper, fetched: Completion<Response>): (r: Completion<Json>)
    ensures r.Normal? <==> fetched.Normal? && fetched.value.Ok() &&
                           IsJsonContentType(fetched.value.contentType) && fetched.value.json.Normal?
    ensures r.Normal? ==> r.value == fetched.value.json.value
    ensures fetched.Throw? ==> r == Throw(fetched.error)
    ensures fetched.Normal? && fetched.value.Ok() && IsJsonContentType(fetched.value.contentType) ==>
              r == fetched.value.json
    ensures fetched.Normal? && !fetched.value.Ok() ==> r == Throw(NewError(FailureMessage(w, fetched.value)))
    ensures fetched.Normal? && fetched.value.Ok() && !IsJsonContentType(fetched.value.contentType) ==>
              r == Throw(NewError(w.nonJsonMessage))
  {
    match fetched
    case Throw(e) => Throw(e)
    case Normal(response) =>
      if !response.Ok() then Throw(NewError(FailureMessage(w, response)))
      else if !IsJsonContentType(response.contentType) then Throw(NewError(w.nonJsonMessage))
      else response.json
  }

  /** `submitRodinJob` (lines 1-28). */
  function SubmitRodinJob(fetched: Completion<Response>): (r: Completion<Json>)
    ensures fetched.Normal? && !fetched.value.Ok() ==>
              r.Throw? && r.error.ErrorValue? &&
              r.error.message == "API request failed: " + NatToString(fetched.value.status) + " - " + fetched.value.text
  {
    Classify(SubmitWrapper, fetched)
  }

  /** `checkJobStatus` (lines 30-60). */
  function CheckJobStatus(fetched: Completion<Response>): (r: Completion<Json>)
    ensures fetched.Normal? && !fetched.value.Ok() ==>
              r.Throw? && r.error.ErrorValue? &&
              r.error.message == "Status check failed: " + NatToString(fetched.value.status) + " - " + fetched.value.text
  {
    Classify(StatusWrapper, fetched)
  }

  /** `downloadModel` (lines 62-92). */
  function DownloadModel(fetched: Completion<Response>): (r: Completion<Json>)
    ensures fetched.Normal? && !fetched.value.Ok() ==>
              r.Throw? && r.error.ErrorValue? &&
              r.error.message == "Download failed: " + NatToString(fetched.value.status) + " - " + fetched.value.text
  {
    Classify(DownloadWrapper, fetched)
  }

  /** The status request carries the subscription key and nothing else. */
  function StatusRequestBody(subscriptionKey: string): (b: Json)
    ensures b.JObject? && b.fields.Keys == {"subscription_key"}
    ensures Get(b, "subscription_key") == Some(JString(subscriptionKey))
  {
    JObject(map["subscription_key" := JString(subscriptionKey)])
  }

  /** The download request carries the task id and nothing else. */
  function DownloadRequestBody(taskUuid: string): (b: Json)
    ensures b.JObject? && b.fields.Keys == {"task_uuid"}
    ensures Get(b, "task_uuid") == Some(JString(taskUuid))
  {
    JObject(map["task_uuid" := JString(taskUuid)])
  }

  /** The three wrappers accept and reject the same responses and return
      the same bodies; only their messages differ. */
  lemma SameClassification(fetched: Completion<Response>)
    ensures SubmitRodinJob(fetched).Normal? == CheckJobStatus(fetched).Normal? == DownloadModel(fetched).Normal?
    ensures SubmitRodinJob(fetched).Normal? ==>
              SubmitRodinJob(fetched) == CheckJobStatus(fetched) == DownloadModel(fetched)
  {
  }

  /** A content type without the letter 'j' cannot name JSON, so a
      successful response labelled, say, "text/html" is rejected whatever
      its body holds. */
  lemma NoLetterJRejected(w: Wrapper, response: Response)
    requires response.Ok() && response.contentType.Some? && 'j' !in response.contentType.value
    ensures Classify(w, Normal(response)) == Throw(NewError(w.nonJsonMessage))
  {
    NotContainsMissingChar(response.contentType.value, "application/json", 'j');
  }

  /** The status is checked before the content type: for a failure status
      the content type makes no difference. */
  lemma StatusBeforeContentType(w: Wrapper, response: Response, contentType: Option<string>)
    requires !response.Ok()
    ensures Classify(w, Normal(response)) == Classify(w, Normal(response.(contentType := contentType)))
  {
  }
}
