/** The server-side submission handler (app/api/rodin/route.ts): it checks
    the incoming form, copies the accepted images, the trimmed prompt and a
    fixed list of option fields into a new form for the generation service,
    and turns the service's answer, or any exception, into a reply. */
module RodinRoute {
  import opened Strings
  import opened Web

  /** 10 MB, the largest accepted image. */
  const MaxImageBytes := 10 * 1024 * 1024

  const NoInputError := "Either images or prompt is required"
  const InvalidImageError := "Invalid image file"
  const DefaultFailureMessage := "Failed to process request"
  const FetchFailedMessage := "Failed to connect to the AI service. Please try again."
  const BadJsonMessage := "Invalid response from AI service. Please try again."
  const BadFormMessage := "Invalid form data. Please check your inputs."

  /** What `prompt.trim()` throws when the prompt field holds a file; the
      stack trace is reduced to its first line. */
  const PromptTrimError := ErrorValue("prompt.trim is not a function", "TypeError: prompt.trim is not a function")

  /** The option fields copied to the service, in this order (lines 66-77). */
  const OtherFields: seq<string> := [
    "condition_mode", "geometry_file_format", "material", "quality", "use_hyper",
    "tier", "TAPose", "mesh_mode", "mesh_simplify", "mesh_smooth"
  ]

  function TooLargeError(name: string): string {
    "Image " + name + " is too large. Maximum size is 10MB."
  }

  function NotImageError(name: string): string {
    "File " + name + " is not a valid image."
  }

  /** What is wrong with one value of the `images` field, checked in the
      order of lines 31-46: not a file, then too large, then not an image
      type. */
  function ImageProblem(v: FormValue): (p: Option<string>)
    ensures p.None? <==> v.Blob? && v.file.size <= MaxImageBytes && StartsWith(v.file.mimeType, "image/")
    ensures !v.Blob? ==> p == Some(InvalidImageError)
    ensures v.Blob? && v.file.size > MaxImageBytes ==> p == Some(TooLargeError(v.file.name))
    ensures v.Blob? && v.file.size <= MaxImageBytes && !StartsWith(v.file.mimeType, "image/") ==>
              p == Some(NotImageError(v.file.name))
  {
    if !v.Blob? then Some(InvalidImageError)
    else if v.file.size > MaxImageBytes then Some(TooLargeError(v.file.name))
    else if !StartsWith(v.file.mimeType, "image/") then Some(NotImageError(v.file.name))
    else None
  }

  /** The size limit is inclusive, and a file that is both too large and
      of a wrong type is reported as too large. */
  lemma SizeLimit(name: string, size: nat, mimeType: string)
    ensures size == MaxImageBytes && StartsWith(mimeType, "image/") ==>
            ImageProblem(Blob(File(name, size, mimeType))).None?
    ensures size > MaxImageBytes ==>
            ImageProblem(Blob(File(name, size, mimeType))) == Some(TooLargeError(name))
  {
  }

  /** The problem of the first image that has one, if any. */
  function FirstProblem(images: seq<FormValue>): (p: Option<string>)
    ensures p.None? <==> forall i :: 0 <= i < |images| ==> ImageProblem(images[i]).None?
    ensures p.Some? ==> exists k :: 0 <= k < |images| && p == ImageProblem(images[k]) &&
                                    forall j :: 0 <= j < k ==> ImageProblem(images[j]).None?
  {
    if images == [] then None
    else if ImageProblem(images[0]).Some? then ImageProblem(images[0])
    else
      var p := FirstProblem(images[1..]);
      assert forall i :: 0 < i < |images| ==> images[i] == images[1..][i - 1];
      p
  }

  /** The image check of lines 29-48: images are examined in order and the
      first one with a problem decides the rejection. */
  method ValidateImages(images: seq<FormValue>) returns (problem: Option<string>)
    ensures problem == FirstProblem(images)
  {
    var i := 0;
    while i < |images|
      invariant 0 <= i <= |images|
      invariant FirstProblem(images) == FirstProblem(images[i..])
    {
      assert images[i..][1..] == images[i + 1..];
      var image := images[i];
      if !image.Blob? {
        return Some(InvalidImageError);
      }
      if image.file.size > MaxImageBytes {
        return Some(TooLargeError(image.file.name));
      }
      if !StartsWith(image.file.mimeType, "image/") {
        return Some(NotImageError(image.file.name));
      }
      i := i + 1;
    }
    return None;
  }

  /** The presence test of line 24, as it evaluates: `Normal(true)` when the
      request must be rejected, and a throw when the prompt field holds a
      file (it has no `trim`). With images present the prompt is never
      looked at. */
  function MissingInput(images: seq<FormValue>, prompt: Option<FormValue>): (r: Completion<bool>)
    ensures r == Normal(true) <==>
            images == [] && (prompt.None? || (prompt.value.Text? &&
              forall i :: 0 <= i < |prompt.value.s| ==> IsWhitespace(prompt.value.s[i])))
    ensures r.Throw? <==> images == [] && prompt.Some? && prompt.value.Blob?
    ensures r.Throw? ==> r.error == PromptTrimError
  {
    if images != [] then Normal(false)
    else match prompt
      case None => Normal(true)
      case Some(Blob(_)) => Throw(PromptTrimError)
      case Some(Text(p)) =>
        TrimEmptyIff(p);
        Normal(p == "" || Trim(p) == "")
  }

  /** The forwarded images: every accepted image, in the order received. */
  function ImageEntries(images: seq<FormValue>): (r: seq<FormEntry>)
    ensures |r| == |images|
    ensures forall i :: 0 <= i < |images| ==> r[i] == FormEntry("images", images[i])
  {
    seq(|images|, i requires 0 <= i < |images| => FormEntry("images", images[i]))
  }

  /** The forwarded prompt (lines 61-63): trimmed, and only when something
      is left after trimming. */
  function PromptEntry(prompt: Option<string>): (r: seq<FormEntry>)
    ensures r == [] <==> prompt.None? || Trim(prompt.value) == ""
    ensures r != [] ==> r == [FormEntry("prompt", Text(Trim(prompt.value)))]
  {
    if prompt.Some? && prompt.value != "" && Trim(prompt.value) != ""
    then [FormEntry("prompt", Text(Trim(prompt.value)))]
    else []
  }

  /** `value.toString()` of a form value. */
  function ToText(v: FormValue): string {
    match v
    case Text(s) => s
    case Blob(_) => "[object File]"
  }

  /** The entry copied for one option field, if the request has it. */
  function OptionEntry(form: seq<FormEntry>, field: string): (r: seq<FormEntry>)
    ensures r == [] <==> FormGet(form, field).None?
    ensures r != [] ==> r == [FormEntry(field, Text(ToText(FormGet(form, field).value)))]
  {
    match FormGet(form, field)
    case None => []
    case Some(v) => [FormEntry(field, Text(ToText(v)))]
  }

  /** `e` carries the request's first value for its key. */
  predicate CopiedFrom(form: seq<FormEntry>, e: FormEntry) {
    FormGet(form, e.key).Some? && e.value == Text(ToText(FormGet(form, e.key).value))
  }

  /** The option fields copied from the request: one entry per listed
      field that the request has, in list order. */
  function ForwardedOptions(form: seq<FormEntry>, fields: seq<string>): (r: seq<FormEntry>)
    ensures |r| <= |fields|
  {
    if fields == [] then []
    else ForwardedOptions(form, fields[..|fields| - 1]) + OptionEntry(form, fields[|fields| - 1])
  }

  /** Every forwarded entry carries the request's first value for its key,
      as text. */
  lemma {:induction false} ForwardedCopied(form: seq<FormEntry>, fields: seq<string>)
    ensures forall e :: e in ForwardedOptions(form, fields) ==> CopiedFrom(form, e)
  {
    if fields != [] {
      ForwardedCopied(form, fields[..|fields| - 1]);
    }
  }

  /** Only listed fields are forwarded: a request key outside the list is
      dropped. */
  lemma {:induction false} ForwardedOnlyListed(form: seq<FormEntry>, fields: seq<string>)
    ensures forall e :: e in ForwardedOptions(form, fields) ==> e.key in fields
  {
    if fields != [] {
      var init := fields[..|fields| - 1];
      ForwardedOnlyListed(form, init);
      assert forall f :: f in init ==> f in fields;
    }
  }

  /** Every listed field that the request has is forwarded. */
  lemma {:induction false} ForwardedAllPresent(form: seq<FormEntry>, fields: seq<string>, f: string)
    requires f in fields && FormGet(form, f).Some?
    ensures exists e :: e in ForwardedOptions(form, fields) && e.key == f
  {
    var init := fields[..|fields| - 1];
    var last := fields[|fields| - 1];
    if f == last {
      assert OptionEntry(form, last)[0] in ForwardedOptions(form, fields);
    } else {
      assert f in init by {
        var i :| 0 <= i < |fields| && fields[i] == f;
        assert init[i] == f;
      }
      ForwardedAllPresent(form, init, f);
      var e :| e in ForwardedOptions(form, init) && e.key == f;
      assert e in ForwardedOptions(form, fields);
    }
  }

  /** Forwarding a list in two parts forwards the entries of the first
      part, then those of the second. */
  lemma {:induction false} ForwardedConcat(form: seq<FormEntry>, a: seq<string>, b: seq<string>)
    ensures ForwardedOptions(form, a + b) == ForwardedOptions(form, a) + ForwardedOptions(form, b)
    decreases |b|
  {
    if b == [] {
      assert a + b == a;
    } else {
      var init := b[..|b| - 1];
      assert (a + b)[..|a + b| - 1] == a + init;
      assert (a + b)[|a + b| - 1] == b[|b| - 1];
      ForwardedConcat(form, a, init);
    }
  }

  /** The entry of the field at position `i`, if any, comes after the
      entries of every earlier field and before those of every later one. */
  lemma ForwardedSplit(form: seq<FormEntry>, fields: seq<string>, i: nat)
    requires i < |fields|
    ensures ForwardedOptions(form, fields) ==
            ForwardedOptions(form, fields[..i]) + OptionEntry(form, fields[i]) + ForwardedOptions(form, fields[i + 1..])
  {
    assert fields == fields[..i] + [fields[i]] + fields[i + 1..];
    ForwardedConcat(form, fields[..i] + [fields[i]], fields[i + 1..]);
    ForwardedConcat(form, fields[..i], [fields[i]]);
    assert [fields[i]][..0] == [];
  }

  /** No two entries share a key. */
  predicate KeysDistinct(r: seq<FormEntry>) {
    forall a, b :: 0 <= a < b < |r| ==> r[a].key != r[b].key
  }

  /** With distinct field names, no key is forwarded twice. */
  lemma {:induction false} ForwardedKeysDistinct(form: seq<FormEntry>, fields: seq<string>)
    requires forall a, b :: 0 <= a < b < |fields| ==> fields[a] != fields[b]
    ensures KeysDistinct(ForwardedOptions(form, fields))
  {
    if fields != [] {
      var init := fields[..|fields| - 1];
      var last := fields[|fields| - 1];
      assert forall a :: 0 <= a < |init| ==> init[a] == fields[a];
      ForwardedKeysDistinct(form, init);
      ForwardedOnlyListed(form, init);
      assert last !in init;
      var p := ForwardedOptions(form, init);
      var r := ForwardedOptions(form, fields);
      assert r == p + OptionEntry(form, last);
      forall a, b | 0 <= a < b < |r| ensures r[a].key != r[b].key {
        assert r[a] == p[a];
        if b >= |p| {
          assert r[b].key == last;
          assert p[a] in p;
          assert p[a].key in init;
        } else {
          assert r[b] == p[b];
          assert KeysDistinct(p);
        }
      }
    }
  }

  /** The ten option fields are forwarded at most once each. */
  lemma ForwardedOnce(form: seq<FormEntry>)
    ensures KeysDistinct(ForwardedOptions(form, OtherFields))
  {
    ForwardedKeysDistinct(form, OtherFields);
  }

  /** Lines 54-58: append every image, in order. */
  method AppendImages(head: seq<FormEntry>, images: seq<FormValue>) returns (out: seq<FormEntry>)
    ensures out == head + ImageEntries(images)
  {
    out := head;
    var i := 0;
    while i < |images|
      invariant 0 <= i <= |images|
      invariant out == head + ImageEntries(images[..i])
    {
      assert ImageEntries(images[..i + 1]) == ImageEntries(images[..i]) + [FormEntry("images", images[i])];
      out := out + [FormEntry("images", images[i])];
      i := i + 1;
    }
    assert images[..i] == images;
  }

  /** One more field of the list adds that field's entry, if any. */
  lemma ForwardedStep(form: seq<FormEntry>, fields: seq<string>, k: nat)
    requires k < |fields|
    ensures ForwardedOptions(form, fields[..k + 1]) == ForwardedOptions(form, fields[..k]) + OptionEntry(form, fields[k])
  {
    assert fields[..k + 1][..k] == fields[..k];
  }

  /** Lines 79-84: append each listed field the request has, in list
      order. */
  method AppendOptions(head: seq<FormEntry>, form: seq<FormEntry>, fields: seq<string>) returns (out: seq<FormEntry>)
    ensures out == head + ForwardedOptions(form, fields)
  {
    out := head;
    var k := 0;
    while k < |fields|
      invariant 0 <= k <= |fields|
      invariant out == head + ForwardedOptions(form, fields[..k])
    {
      var field := fields[k];
      var value := FormGet(form, field);
      ghost var before := out;
      if value.Some? {
        out := out + [FormEntry(field, Text(ToText(value.value)))];
      }
      assert out == before + OptionEntry(form, field);
      ForwardedStep(form, fields, k);
      k := k + 1;
    }
    assert fields[..k] == fields;
  }

  /** Lines 51-84: the form sent to the service, built by appending the
      images, then the prompt, then the listed option fields. */
  method BuildUpstreamForm(images: seq<FormValue>, prompt: Option<string>, form: seq<FormEntry>)
    returns (out: seq<FormEntry>)
    ensures out == ImageEntries(images) + PromptEntry(prompt) + ForwardedOptions(form, OtherFields)
  {
    out := AppendImages([], images);
    assert out == ImageEntries(images);
    if prompt.Some? && prompt.value != "" && Trim(prompt.value) != "" {
      out := out + [FormEntry("prompt", Text(Trim(prompt.value)))];
    }
    assert out == ImageEntries(images) + PromptEntry(prompt);
    out := AppendOptions(out, form, OtherFields);
  }

  /** "API request failed: <status>" */
  function RequestFailedMessage(status: nat): string {
    "API request failed: " + NatToString(status)
  }

  /** The `error` reported for a failed service call (lines 105-118): the
      decoded body's `error`, else its `message`, else the fallback; when
      the body does not decode (or decodes to `null`, whose fields cannot
      be read) the raw text, else the fallback. */
  function UpstreamFailure(status: nat, errorText: string, parsed: Completion<Json>): (m: Json)
    ensures parsed.Normal? && parsed.value != JNull ==>
              (Truthy(Get(parsed.value, "error")) ==> m == Get(parsed.value, "error").value) &&
              (!Truthy(Get(parsed.value, "error")) && Truthy(Get(parsed.value, "message")) ==>
                 m == Get(parsed.value, "message").value) &&
              (!Truthy(Get(parsed.value, "error")) && !Truthy(Get(parsed.value, "message")) ==>
                 m == JString(RequestFailedMessage(status)))
    ensures !(parsed.Normal? && parsed.value != JNull) ==>
              m == JString(if errorText != "" then errorText else RequestFailedMessage(status))
  {
    if parsed.Normal? && parsed.value != JNull then
      if Truthy(Get(parsed.value, "error")) then Get(parsed.value, "error").value
      else if Truthy(Get(parsed.value, "message")) then Get(parsed.value, "message").value
      else JString(RequestFailedMessage(status))
    else if errorText != "" then JString(errorText)
    else JString(RequestFailedMessage(status))
  }

  /** The reported error is never empty: whichever source it comes from is
      truthy, and the service's own `error` always beats its `message`. */
  lemma UpstreamFailureTruthy(status: nat, errorText: string, parsed: Completion<Json>)
    ensures Truthy(Some(UpstreamFailure(status, errorText, parsed)))
    ensures parsed.Normal? && parsed.value != JNull && Truthy(Get(parsed.value, "error")) ==>
            UpstreamFailure(status, errorText, parsed) == Get(parsed.value, "error").value
  {
  }

  /** Lines 105-118 as written: a message reassigned step by step. */
  method UpstreamErrorMessage(status: nat, errorText: string, parsed: Completion<Json>) returns (message: Json)
    ensures message == UpstreamFailure(status, errorText, parsed)
    ensures Truthy(Some(message))
  {
    message := JString(RequestFailedMessage(status));
    // `JSON.parse` throwing and reading `.error` of `null` both land in the catch
    if parsed.Normal? && parsed.value != JNull {
      var errorJson := parsed.value;
      if Truthy(Get(errorJson, "error")) {
        message := Get(errorJson, "error").value;
      } else if Truthy(Get(errorJson, "message")) {
        message := Get(errorJson, "message").value;
      }
    } else {
      if errorText != "" {
        message := JString(errorText);
      }
    }
  }

  /** The message reported for an exception (lines 131-143): "fetch" is
      tested first, then "JSON", then "FormData"; any other error keeps its
      own message, and a thrown non-error gets the default. */
  function ExceptionFailure(error: Thrown): (m: string)
    ensures error.OtherValue? ==> m == DefaultFailureMessage
    ensures error.ErrorValue? ==>
              (Contains(error.message, "fetch") ==> m == FetchFailedMessage) &&
              (!Contains(error.message, "fetch") && Contains(error.message, "JSON") ==> m == BadJsonMessage) &&
              ((!Contains(error.message, "fetch") && !Contains(error.message, "JSON") &&
                Contains(error.message, "FormData")) ==> m == BadFormMessage) &&
              ((!Contains(error.message, "fetch") && !Contains(error.message, "JSON") &&
                !Contains(error.message, "FormData")) ==> m == error.message)
  {
    match error
    case OtherValue(_) => DefaultFailureMessage
    case ErrorValue(msg, _) =>
      if Contains(msg, "fetch") then FetchFailedMessage
      else if Contains(msg, "JSON") then BadJsonMessage
      else if Contains(msg, "FormData") then BadFormMessage
      else msg
  }

  /** Lines 131-143 as written: a message reassigned step by step. */
  method ExceptionMessage(error: Thrown) returns (message: string)
    ensures message == ExceptionFailure(error)
    ensures error.ErrorValue? && Contains(error.message, "fetch") ==> message == FetchFailedMessage
    ensures error.ErrorValue? && !Contains(error.message, "fetch") && !Contains(error.message, "JSON") && !Contains(error.message, "FormData")
            ==> message == error.message
  {
    message := DefaultFailureMessage;
    if error.ErrorValue? {
      message := error.message;
      if Contains(message, "fetch") {
        message := FetchFailedMessage;
      } else if Contains(message, "JSON") {
        message := BadJsonMessage;
      } else if Contains(message, "FormData") {
        message := BadFormMessage;
      }
    }
  }

  /** `error.stack` of an error, `String(error)` of anything else. */
  function Details(error: Thrown): string {
    match error
    case ErrorValue(_, stack) => stack
    case OtherValue(text) => text
  }

  /** The reply of the catch block: always status 500. */
  function FailureReply(error: Thrown): (r: Reply)
    ensures r.status == 500
    ensures Get(r.body, "error") == Some(JString(ExceptionFailure(error)))
    ensures Get(r.body, "details") == Some(JString(Details(error)))
  {
    Reply(500, ErrorDetailsBody(JString(ExceptionFailure(error)), Details(error)))
  }

  /** The request is rejected for lack of input: no images, and a prompt
      that is absent or only whitespace. This is the condition of line 24
      as a plain truth value, for use in contracts; `MissingInput` is the
      same test as it evaluates, including the throw on a file prompt
      (`MissingInputAgrees` relates the two). */
  function NothingToGenerate(images: seq<FormValue>, prompt: Option<FormValue>): (r: bool)
    ensures r <==> images == [] &&
                   (prompt.None? || (prompt.value.Text? &&
                     forall i :: 0 <= i < |prompt.value.s| ==> IsWhitespace(prompt.value.s[i])))
  {
    match prompt
    case None => images == []
    case Some(Blob(_)) => false
    case Some(Text(p)) =>
      TrimEmptyIff(p);
      images == [] && (p == "" || Trim(p) == "")
  }

  /** Where line 24 does not throw, it rejects exactly when there is
      nothing to generate. */
  lemma MissingInputAgrees(images: seq<FormValue>, prompt: Option<FormValue>)
    requires MissingInput(images, prompt).Normal?
    ensures MissingInput(images, prompt).value <==> NothingToGenerate(images, prompt)
  {
  }

  /** The text of a prompt field, if it has one. */
  function PromptText(prompt: Option<FormValue>): Option<string> {
    if prompt.Some? && prompt.value.Text? then Some(prompt.value.s) else None
  }

  /** The body of the try block (lines 7-126): `Throw` is what reaches the
      catch; `forwarded` is the form sent to the service, `None` when no
      call was made. */
  method Attempt(request: Completion<seq<FormEntry>>, upstream: Completion<Response>)
    returns (outcome: Completion<Reply>, forwarded: Option<seq<FormEntry>>)
    ensures request.Throw? ==> outcome == Throw(request.error) && forwarded.None?
    ensures request.Normal? ==>
              var images := FormGetAll(request.value, "images");
              var prompt := FormGet(request.value, "prompt");
              (NothingToGenerate(images, prompt) ==>
                 outcome == Normal(Reply(400, ErrorBody(NoInputError))) && forwarded.None?) &&
              (images == [] && prompt.Some? && prompt.value.Blob? ==>
                 outcome == Throw(PromptTrimError) && forwarded.None?) &&
              (FirstProblem(images).Some? ==>
                 outcome == Normal(Reply(400, ErrorBody(FirstProblem(images).value))) && forwarded.None?) &&
              (FirstProblem(images).None? && prompt.Some? && prompt.value.Blob? ==>
                 outcome == Throw(PromptTrimError) && forwarded.None?) &&
              (forwarded.Some? <==>
                 !NothingToGenerate(images, prompt) && FirstProblem(images).None? &&
                 !(prompt.Some? && prompt.value.Blob?)) &&
              (forwarded.Some? ==>
                 forwarded.value == ImageEntries(images) + PromptEntry(PromptText(prompt)) +
                                    ForwardedOptions(request.value, OtherFields))
    ensures forwarded.Some? ==>
              match upstream
              case Throw(e) => outcome == Throw(e)
              case Normal(response) =>
                if !response.Ok() then
                  outcome == Normal(Reply(response.status,
                    ErrorDetailsBody(UpstreamFailure(response.status, response.text, response.json), response.text)))
                else
                  match response.json
                  case Throw(e) => outcome == Throw(e)
                  case Normal(data) => outcome == Normal(Reply(200, data))
  {
    forwarded := None;
    if request.Throw? {
      outcome := Throw(request.error);
      return;
    }
    var form := request.value;
    var images := FormGetAll(form, "images");
    var prompt := FormGet(form, "prompt");
    var missing := MissingInput(images, prompt);
    if missing.Throw? {
      outcome := Throw(missing.error);
      return;
    }
    if missing.value {
      outcome := Normal(Reply(400, ErrorBody(NoInputError)));
      return;
    }
    var problem := ValidateImages(images);
    if problem.Some? {
      outcome := Normal(Reply(400, ErrorBody(problem.value)));
      return;
    }
    if prompt.Some? && prompt.value.Blob? {
      outcome := Throw(PromptTrimError);
      return;
    }
    var sent := BuildUpstreamForm(images, PromptText(prompt), form);
    forwarded := Some(sent);
    match upstream
    case Throw(e) =>
      outcome := Throw(e);
    case Normal(response) =>
      if !response.Ok() {
        var message := UpstreamErrorMessage(response.status, response.text, response.json);
        outcome := Normal(Reply(response.status, ErrorDetailsBody(message, response.text)));
      } else {
        match response.json
        case Throw(e) =>
          outcome := Throw(e);
        case Normal(data) =>
          outcome := Normal(Reply(200, data));
      }
  }

  /** `POST` (lines 5-150): the try block, with anything it throws turned
      into a 500 reply. */
  method Post(request: Completion<seq<FormEntry>>, upstream: Completion<Response>)
    returns (reply: Reply, forwarded: Option<seq<FormEntry>>)
    ensures request.Throw? ==> reply == FailureReply(request.error) && forwarded.None?
    ensures request.Normal? && NothingToGenerate(FormGetAll(request.value, "images"), FormGet(request.value, "prompt")) ==>
              reply == Reply(400, ErrorBody(NoInputError)) && forwarded.None?
    ensures request.Normal? && FirstProblem(FormGetAll(request.value, "images")).Some? ==>
              reply == Reply(400, ErrorBody(FirstProblem(FormGetAll(request.value, "images")).value)) &&
              forwarded.None?
    ensures forwarded.Some? ==>
              match upstream
              case Throw(e) => reply == FailureReply(e)
              case Normal(response) =>
                if !response.Ok() then
                  reply.status == response.status &&
                  reply.body == ErrorDetailsBody(UpstreamFailure(response.status, response.text, response.json), response.text)
                else
                  match response.json
                  case Throw(e) => reply == FailureReply(e)
                  case Normal(data) => reply == Reply(200, data)
    ensures reply.status == 200 ==> forwarded.Some? && upstream.Normal? && upstream.value.Ok()
    ensures request.Normal? && FirstProblem(FormGetAll(request.value, "images")).None? &&
            FormGet(request.value, "prompt").Some? && FormGet(request.value, "prompt").value.Blob? ==>
              reply == FailureReply(PromptTrimError) && forwarded.None?
    ensures request.Normal? ==>
              var images := FormGetAll(request.value, "images");
              var prompt := FormGet(request.value, "prompt");
              (forwarded.Some? <==>
                 !NothingToGenerate(images, prompt) && FirstProblem(images).None? &&
                 !(prompt.Some? && prompt.value.Blob?)) &&
              (forwarded.Some? ==>
                 forwarded.value == ImageEntries(images) + PromptEntry(PromptText(prompt)) +
                                    ForwardedOptions(request.value, OtherFields))
  {
    var outcome;
    outcome, forwarded := Attempt(request, upstream);
    match outcome
    case Normal(r) =>
      reply := r;
    case Throw(e) =>
      var message := ExceptionMessage(e);
      reply := Reply(500, ErrorDetailsBody(JString(message), Details(e)));
  }
}
