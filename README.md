# Kon Khmer 3D: the text/image-to-3D submission flow, modelled in Dafny

The application is a Next.js page that turns a prompt or a few images into
a 3D model by calling an external generation service. This project models
the part of it that decides what is sent and what the user sees:

- the page component (`components/rodin.tsx`) with its state, its time
  estimate, the elapsed-time counter and the form it submits;
- the prompt form (`components/form.tsx`): image selection with the
  five-image limit, removal, drag-and-drop bookkeeping, Enter to submit;
- the options dialog (`components/options-dialog.tsx`) and its time hints;
- the loading indicator and progress bar
  (`components/status-indicator.tsx`, `components/progress-bar.tsx`);
- the browser-side wrappers around the API routes (`lib/api-service.ts`);
- the two server routes: the submission proxy (`app/api/rodin/route.ts`)
  and the download proxy (`app/api/download/route.ts`).

Code that changes state step by step is modelled as it is written: the
page and the form are classes whose methods update their fields. The
loops that build the outgoing forms and validate images are methods with
loop invariants (`RodinRoute.ValidateImages`, `RodinRoute.AppendImages`,
`RodinRoute.AppendOptions`, `Rodin.BuildPayload`). The error messages the
routes reassign step by step are methods without loops
(`RodinRoute.UpstreamErrorMessage`, `RodinRoute.ExceptionMessage`). Each
method is proved against a pure function, and the properties are proved
about those functions. JavaScript
behaviour the code relies on is written out: truthiness, `slice` and
`splice` with negative indices, `trim` with the ECMAScript whitespace set,
`includes`, `startsWith`, `Math.round`, the first-entry rule of
`FormData.get`, and the `TypeError` of reading a property of `null`.

Everything the platform computes is an input: how `fetch` completed, the
decoded JSON (or the exception `JSON.parse` threw), the request's form
data, `Date.now()`, `Math.random()` and the URL `URL.createObjectURL`
hands out. Numbers in the estimate and the percentage are exact rationals.

Files: `strings.dfy` (string operations), `web.dfy` (JSON values,
completions, form entries, responses), and one file per source file:
`rodin.dfy`, `form.dfy`, `options_dialog.dfy`, `status_indicator.dfy`,
`progress_bar.dfy`, `api_service.dfy`, `rodin_route.dfy`,
`download_route.dfy`.

Main results:

- a submission from the page passes the server's presence check exactly
  when it has images or a prompt with a non-whitespace character
  (`Rodin.PayloadMeetsPresenceCheck`);
- the server forwards the page's ten option fields unchanged and in
  order (`Rodin.PayloadForwardedUnchanged`);
- the server forwards only listed fields, every listed field the request
  has, each carrying the request's first value (`RodinRoute.ForwardedOnlyListed`,
  `RodinRoute.ForwardedAllPresent`, `RodinRoute.ForwardedCopied`), each at
  most once and in the list's order (`RodinRoute.ForwardedOnce`,
  `RodinRoute.ForwardedSplit`);
- a 200 reply from either route only ever comes from a successful call to
  the service (`RodinRoute.Post`, `DownloadRoute.ServiceReply`);
- the API wrappers check the status before the content type, and reject a
  content type that cannot name JSON whatever the body holds
  (`ApiService.StatusBeforeContentType`, `ApiService.NoLetterJRejected`);
- the estimate is never below 24 seconds, stays within the rounded 80% and
  120% of its base, and from one image up grows with the number of images
  (`Rodin.Estimate`, `Rodin.EstimateGrowsWithImages`); a text-only request
  is estimated like one with two images, so one image gives a shorter
  estimate than none (`Rodin.NoImagesCountsAsTwo`);
- once jobs are reported, the progress bar reads 100 percent exactly when
  every job is "Done", and it is always between 0 and 100 percent
  (`ProgressBar.IndicatorFullIffAllDone`, `ProgressBar.IndicatorBarInRange`);
- the form never holds more than five images and keeps one preview per
  image (`Form.ImageForm.AddImages`, `Form.ImageForm.RemoveImage`).

## Model

| member | source | states |
|---|---|---|
| Strings.StartsWith | app/api/rodin/route.ts:44 | `startsWith` holds exactly when the prefix fits and matches the string character by character |
| Strings.Contains | app/api/rodin/route.ts:136-140 | `includes` can only find a text no longer than the string |
| Strings.ContainsAt | app/api/rodin/route.ts:136-140 | `includes` finds a text exactly when some position of the string starts an occurrence of it |
| Strings.Trim | app/api/rodin/route.ts:61-62 | the result is the input with a whitespace prefix and a whitespace suffix removed, and it neither starts nor ends with whitespace |
| Strings.TrimEmptyIff | app/api/rodin/route.ts:24 | a string trims to empty exactly when all its characters are whitespace |
| Strings.NotContainsMissingChar | lib/api-service.ts:17 | `includes` fails when a character of the searched text never occurs in the string |
| Strings.NatToString | lib/api-service.ts:12 | a status renders as at least one decimal digit, with no leading zero unless it is 0 |
| Strings.DecimalRoundTrip | lib/api-service.ts:12 | reading the rendered digits back gives the status |
| Web.Get | app/api/rodin/route.ts:107-111 | a property read yields a value exactly when the value is an object with that key |
| Web.Truthy | app/api/rodin/route.ts:108-110 | only a present, non-null value is truthy; objects and arrays always are; a string exactly when not empty, a boolean exactly when true, a number exactly when not zero |
| Web.IsJsonContentType | app/api/download/route.ts:37-38 | the content type is accepted exactly when it is present and includes "application/json" (the empty-string test adds nothing) |
| Web.FormGet | app/api/rodin/route.ts:22 | `get` finds nothing exactly when no entry has the key, and what it finds is the value of an entry with that key |
| Web.FormGetFirst | app/api/rodin/route.ts:80 | `get` returns the value of the first entry with the key |
| Web.FormGetAll | app/api/rodin/route.ts:21 | `getAll` is empty exactly when no entry has the key, is no longer than the form and returns only values of entries with that key |
| Web.FormGetAllConcat | app/api/rodin/route.ts:21 | `getAll` of a form made of two parts is `getAll` of the first part followed by `getAll` of the second, so each matching entry is taken once, in form order |
| StatusIndicator.CountDone | components/status-indicator.tsx:19 | the number of finished jobs is at most the number of jobs, and 0 when none is "Done" |
| StatusIndicator.Count | components/status-indicator.tsx:16-24 | no jobs gives 0/0 and the indeterminate bar; otherwise total is jobs + 1 and completed is between 1 and total |
| StatusIndicator.Render | components/status-indicator.tsx:12-14 | nothing is shown unless loading |
| StatusIndicator.CountDoneAllIff | components/status-indicator.tsx:19 | every job counts as done exactly when every job's status is "Done" |
| StatusIndicator.CompleteIffAllDone | components/status-indicator.tsx:17-21 | for a non-empty list, completed equals total exactly when every job is "Done" |
| StatusIndicator.CountDoneUpdate | components/status-indicator.tsx:19 | replacing one job changes the count only by that job's own contribution |
| StatusIndicator.JobFinishing | components/status-indicator.tsx:17-21 | a job turning "Done" raises completed by one and leaves total unchanged |
| ProgressBar.Percentage | components/progress-bar.tsx:18 | 0 without tasks; between 0 and 100 when completed is at most total; 100 when all are completed |
| ProgressBar.Draw | components/progress-bar.tsx:24-33 | the animation exactly when indeterminate, otherwise a bar as wide as the percentage |
| ProgressBar.PercentageMonotone | components/progress-bar.tsx:18 | more completed tasks never shrink the bar |
| ProgressBar.IndicatorFullIffAllDone | components/progress-bar.tsx:18 | with at least one job, the indicator's percentage is 100 exactly when every job is "Done" |
| ProgressBar.IndicatorBarInRange | components/progress-bar.tsx:18-33 | the indicator's bar is the animation exactly when there are no jobs, and otherwise between 0 and 100 percent wide |
| Form.SliceTo | components/form.tsx:64 | `slice(0, end)` keeps the first `end` elements, counting a negative `end` from the back and clamping at both ends |
| Form.RemoveAt | components/form.tsx:79 | `splice(index, 1)` shortens the list by one exactly when it is non-empty and the index is below its length (a negative index counts from the back and is clamped at the front) |
| Form.RemoveAtInRange | components/form.tsx:76-87 | removing an index in range deletes exactly that element: earlier ones stay, later ones move down, and the multiset loses just it |
| Form.Admitted | components/form.tsx:59-67 | the accepted files are a prefix of the batch, all of it when it fits, and the total never exceeds five |
| Form.Previews | components/form.tsx:69 | one preview URL per file, in order |
| Form.ImageFiles | components/form.tsx:122 | the filter keeps exactly the dropped files whose type starts with "image/" |
| Form.ImageFilesConcat | components/form.tsx:122 | filtering keeps the dropped order: filtering joined batches equals joining the filtered batches |
| Form.DragStep | components/form.tsx:94-119 | enter counts up and shows the overlay; leave counts down and hides it at zero; drop resets both; a step other than a leave at zero keeps the overlay in step with the counter |
| Form.DragRun | components/form.tsx:94-119 | no events leave the state as it is, and a run ending in a drop always ends reset |
| Form.DragRunConsistent | components/form.tsx:94-119 | when every leave matches an earlier enter, the overlay is shown exactly while the counter is positive |
| Form.SubmitsOnKeyDown | components/form.tsx:135-142 | only Enter submits, and it does exactly when not on mobile and Shift is not held |
| Form.ImageForm.constructor | components/form.tsx:25-48 | the form starts with no images, no previews, no error and no drag in progress |
| Form.ImageForm.AddImages | components/form.tsx:55-74 | the admitted files and their previews are appended; the error is set exactly when the batch overflows; five images are never exceeded |
| Form.ImageForm.RemoveImage | components/form.tsx:76-87 | the same position leaves both the images and the previews, which stay paired |
| Form.ImageForm.DragEnter | components/form.tsx:94-99 | counts up and shows the overlay; nothing else changes |
| Form.ImageForm.DragLeave | components/form.tsx:101-108 | counts down and hides the overlay when the count reaches zero |
| Form.ImageForm.HandleDrop | components/form.tsx:115-125 | resets the drag state and adds the dropped image files, in order, under the five-image limit |
| OptionsDialog.Lookup | components/options-dialog.tsx:17-25 | exactly the hyper-mode and T/A-pose settings are flags; the other five are words |
| OptionsDialog.LookupExtensional | components/options-dialog.tsx:17-25 | two settings records that agree on every key are equal |
| OptionsDialog.Apply | components/options-dialog.tsx:40 | the changed key takes the new value and every other key keeps its old one |
| OptionsDialog.ApplyIdempotent | components/options-dialog.tsx:40 | making the same change twice equals making it once |
| OptionsDialog.HandleChange | components/options-dialog.tsx:38-44 | the updated record becomes the local state and is what the page receives |
| OptionsDialog.PropsChanged | components/options-dialog.tsx:34-36 | options from the page replace the local copy |
| OptionsDialog.ChangesKeepInSync | components/options-dialog.tsx:34-44 | after any changes the dialog and the page agree, so the page's update flowing back changes nothing |
| OptionsDialog.QualityTimeEstimate | components/options-dialog.tsx:47-55 | the hint of each listed quality, and "60-90s" for any other |
| OptionsDialog.TierTimeEstimate | components/options-dialog.tsx:57-59 | "+20% time" exactly for the "Regular" tier, "Faster" otherwise |
| Rodin.QualityMultiplier | components/rodin.tsx:77-83 | the factor of each listed quality, 1.0 for any other, always between 0.5 and 1.5 |
| Rodin.BaseEstimate | components/rodin.tsx:74-100 | the estimate before the random factor is at least 30 seconds |
| Rodin.Round | components/rodin.tsx:106 | `Math.round` gives the integer within half a unit, halves rounding up |
| Rodin.ScaledRange | components/rodin.tsx:103-106 | a factor drawn from [0.8, 1.2) keeps a non-negative amount between its rounded 80% and 120% |
| Rodin.ScaledMonotone | components/rodin.tsx:104-106 | scaling by the same factor keeps the order of two amounts |
| Rodin.Estimate | components/rodin.tsx:73-107 | for a draw in [0, 1) the estimate lies between the rounded 80% and 120% of its base and is never below 24 seconds |
| Rodin.NoImagesCountsAsTwo | components/rodin.tsx:95-100 | the base without images equals the base with two images, and one image gives a base 15 seconds below the one without images |
| Rodin.BaseGrowsWithImages | components/rodin.tsx:96-97 | from one image up, more images never lower the base |
| Rodin.EstimateGrowsWithImages | components/rodin.tsx:95-106 | from one image up, with the same draw, more images never shorten the estimate |
| Rodin.CalculateEstimatedTime | components/rodin.tsx:73-107 | the step-by-step computation yields the estimate for the given draw |
| Rodin.ElapsedSeconds | components/rodin.tsx:109-125 | whole seconds since the start while loading with a (truthy) start time, 0 otherwise |
| Rodin.ImageEntries | components/rodin.tsx:146-150 | one "images" entry per chosen file, in order |
| Rodin.OptionKeys | components/rodin.tsx:156-165 | the page sends the ten field names the server forwards, in the server's order, all as text |
| Rodin.PayloadLayout | components/rodin.tsx:144-165 | the submitted form (`Rodin.Payload`) has one entry per image, one for a non-empty prompt and ten for the options, and holds the images in order, then the prompt if not empty, then the ten option fields |
| Rodin.FormGetAfterPrefix | components/rodin.tsx:156-165 | in a form whose tail is named by distinct keys absent from its head, `get` finds each key in the tail |
| Rodin.OtherFieldsDistinct | app/api/rodin/route.ts:66-77 | the ten forwarded names are distinct and differ from "images" and "prompt" |
| Rodin.PayloadOption | components/rodin.tsx:156-165 | `get` of each option field in a submission returns the page's value for it |
| Rodin.PayloadMeshSettings | components/rodin.tsx:163-165 | the fixed mesh settings are always sent |
| Rodin.PayloadPrompt | components/rodin.tsx:152-154 | the submission carries a prompt exactly when the prompt is not empty |
| Rodin.FormGetAllPrefix | components/rodin.tsx:146-150 | when the entries named by a key are exactly the first n, `getAll` returns their values in order |
| Rodin.PayloadImages | components/rodin.tsx:146-150 | `getAll("images")` of a submission returns the chosen files in order |
| Rodin.PayloadMeetsPresenceCheck | components/rodin.tsx:144-165 | the server rejects a submission for lack of input exactly when it has no images and an all-whitespace prompt |
| Rodin.ForwardedExactly | app/api/rodin/route.ts:79-84 | when each listed field is found in the form as the matching text entry, exactly those entries are forwarded |
| Rodin.PayloadForwardedUnchanged | components/rodin.tsx:156-165 | the server forwards the page's ten option entries unchanged and in order |
| Rodin.BuildPayload | components/rodin.tsx:144-165 | the loop builds the submitted form: images, prompt if not empty, option fields |
| Rodin.HasStatusKeys | components/rodin.tsx:172 | the answer is usable exactly when it is an object whose `jobs` is an object with a truthy `subscription_key` and whose `uuid` is truthy |
| Rodin.StatusKeysOfStrings | components/rodin.tsx:172 | an answer with a string subscription key and a string task id is usable exactly when neither string is empty |
| Rodin.ErrorText | components/rodin.tsx:180 | an `Error`'s message, and "An unknown error occurred" for any other thrown value |
| Rodin.Session.constructor | components/rodin.tsx:20-44 | the initial state: not loading, no error, a `null` result, the default model, the default options |
| Rodin.Session.HandleOptionsChange | components/rodin.tsx:69-71 | the options become the new ones; no other field may change |
| Rodin.Session.RefreshElapsed | components/rodin.tsx:109-125 | the elapsed time becomes the whole seconds since the start while loading, 0 otherwise |
| Rodin.Session.BeginSubmission | components/rodin.tsx:128-141 | clears the previous run, starts loading and the clock, and stores the estimate |
| Rodin.Session.SettleSubmission | components/rodin.tsx:167-183 | a throw reports its message and stops loading; `null` data reports the property-read error; data without the status keys reports the missing data; otherwise loading goes on |
| Rodin.Session.HandleSubmit | components/rodin.tsx:127-184 | sends the payload and leaves the state the wrapper's outcome dictates; a usable answer keeps loading with no error |
| Rodin.Session.HandleBack | components/rodin.tsx:192-196 | shows the prompt over the default model and changes nothing else |
| Rodin.Session.HandleStartGeneration | components/rodin.tsx:198-200 | shows the prompt container |
| RodinRoute.ImageProblem | app/api/rodin/route.ts:31-46 | an image value passes exactly when it is a file of at most 10 MB whose type starts with "image/"; otherwise a non-file gets "Invalid image file", a file over 10 MB the too-large message whatever its type, and a file within the limit with a wrong type the not-an-image message |
| RodinRoute.SizeLimit | app/api/rodin/route.ts:36 | exactly 10 MB passes; anything larger is reported as too large whatever the type |
| RodinRoute.FirstProblem | app/api/rodin/route.ts:29-48 | no problem exactly when every image passes, otherwise the problem of the first failing image |
| RodinRoute.ValidateImages | app/api/rodin/route.ts:29-48 | the loop reports the first image's problem |
| RodinRoute.MissingInput | app/api/rodin/route.ts:24 | rejects exactly when there are no images and the prompt is absent or all whitespace; throws exactly when there are no images and the prompt is a file |
| RodinRoute.NothingToGenerate | app/api/rodin/route.ts:24 | the request lacks input exactly when it has no images and the prompt is absent or made only of whitespace |
| RodinRoute.MissingInputAgrees | app/api/rodin/route.ts:24 | where the presence test does not throw, it rejects exactly when there is nothing to generate |
| RodinRoute.ImageEntries | app/api/rodin/route.ts:54-58 | one "images" entry per image, in order |
| RodinRoute.PromptEntry | app/api/rodin/route.ts:61-63 | the trimmed prompt is forwarded exactly when something is left after trimming |
| RodinRoute.OptionEntry | app/api/rodin/route.ts:80-83 | a field is copied exactly when the request has it, as the text of its first value |
| RodinRoute.ForwardedOptions | app/api/rodin/route.ts:66-84 | no more entries than listed fields |
| RodinRoute.ForwardedCopied | app/api/rodin/route.ts:79-84 | every forwarded entry carries the request's first value for its key, as text |
| RodinRoute.ForwardedOnlyListed | app/api/rodin/route.ts:66-84 | only listed fields are forwarded |
| RodinRoute.ForwardedAllPresent | app/api/rodin/route.ts:79-84 | every listed field the request has is forwarded |
| RodinRoute.ForwardedConcat | app/api/rodin/route.ts:79-84 | forwarding a list in two parts forwards the first part's entries, then the second's |
| RodinRoute.ForwardedSplit | app/api/rodin/route.ts:79-84 | the entry of each listed field comes after those of all earlier fields and before those of all later ones |
| RodinRoute.ForwardedKeysDistinct | app/api/rodin/route.ts:79-84 | for a list of distinct names, no key is forwarded twice |
| RodinRoute.ForwardedOnce | app/api/rodin/route.ts:66-84 | each of the ten option fields is forwarded at most once |
| RodinRoute.AppendImages | app/api/rodin/route.ts:54-58 | the loop appends every image in order |
| RodinRoute.AppendOptions | app/api/rodin/route.ts:79-84 | the loop appends exactly the forwarded option entries |
| RodinRoute.BuildUpstreamForm | app/api/rodin/route.ts:51-84 | the form sent on is the images, the trimmed prompt if any, then the forwarded options |
| RodinRoute.UpstreamFailure | app/api/rodin/route.ts:105-118 | a decoded, non-null body gives its truthy `error`, else its truthy `message`, else "API request failed: status"; an undecodable or null body gives the raw text if not empty, else that fallback |
| RodinRoute.UpstreamFailureTruthy | app/api/rodin/route.ts:105-118 | the reported error is never empty, and the service's `error` wins over its `message` |
| RodinRoute.UpstreamErrorMessage | app/api/rodin/route.ts:105-118 | the reassigned message is the reported error, and it is truthy |
| RodinRoute.ExceptionFailure | app/api/rodin/route.ts:131-143 | a non-error value gets the default message; an error mentioning "fetch", else "JSON", else "FormData" gets the matching message, and any other error keeps its own |
| RodinRoute.ExceptionMessage | app/api/rodin/route.ts:131-143 | "fetch" is tested first; an error mentioning none of the three words keeps its own message |
| RodinRoute.FailureReply | app/api/rodin/route.ts:145-148 | the catch block replies with status 500, the mapped message as `error` and the stack or `String(error)` as `details` |
| RodinRoute.Attempt | app/api/rodin/route.ts:7-126 | each rejection happens without a call to the service; a call is made exactly when the input is present and valid, with the built form; the service's answer is passed through or reported |
| RodinRoute.Post | app/api/rodin/route.ts:5-150 | exceptions, including the `trim` of a file prompt once the images pass, become 500 replies; rejections are 400 with their message; the service is called exactly when the input is present and valid, with the images, the trimmed prompt and the forwarded options; a 200 reply only comes from a successful service call |
| ApiService.NewError | lib/api-service.ts:12 | an Error object carrying the message |
| ApiService.Classify | lib/api-service.ts:1-28 | the body is returned exactly for an ok status, a JSON content type and a decodable body; the status is checked first, then the content type, and exceptions pass through unchanged |
| ApiService.SubmitRodinJob | lib/api-service.ts:1-28 | a failure status throws "API request failed: status - body" |
| ApiService.CheckJobStatus | lib/api-service.ts:30-60 | a failure status throws "Status check failed: status - body" |
| ApiService.DownloadModel | lib/api-service.ts:62-92 | a failure status throws "Download failed: status - body" |
| ApiService.StatusRequestBody | lib/api-service.ts:37-39 | the status request carries the subscription key and nothing else |
| ApiService.DownloadRequestBody | lib/api-service.ts:69-71 | the download request carries the task id and nothing else |
| ApiService.SameClassification | lib/api-service.ts:42-53 | the three wrappers accept the same responses and return the same bodies |
| ApiService.NoLetterJRejected | lib/api-service.ts:16-21 | a successful response whose content type has no letter 'j' is rejected as non-JSON |
| ApiService.StatusBeforeContentType | lib/api-service.ts:9-21 | for a failure status the content type makes no difference |
| DownloadRoute.CatchReply | app/api/download/route.ts:50-56 | the catch block replies 500 with "Failed to download model" and the error's message, or `String(error)`, as `details` |
| DownloadRoute.ServiceReply | app/api/download/route.ts:27-49 | a failure status is passed through with "Download failed: status" and the body text; a non-JSON type gives 502 with its message and the body text; an undecodable body gives the catch reply; 200 comes exactly from an ok JSON reply, whose body is passed on |
| DownloadRoute.Post | app/api/download/route.ts:5-57 | the service is called exactly when the body has a truthy task id, with only that id; a missing id gives 400; a `null` body gives the catch reply for the destructuring `TypeError` |
| DownloadRoute.UuidCheckedFirst | app/api/download/route.ts:7-12 | without a usable task id the reply does not depend on the service |
| DownloadRoute.FailureStatusPassedThrough | app/api/download/route.ts:27-34 | a failure status is never turned into success, whatever the content type |

## Left out

- The job status polling is not modelled. `handleStatusCheck` is an empty function (components/rodin.tsx:15-17), so after a usable answer the page stays loading. `isPolling` is never set and keeps its initial `false`; `downloadUrl` and `jobStatuses` are only ever reset, never filled.
- Timers and scheduling are left out: the four-second splash screen (components/rodin.tsx:60-67) and the one-second interval. `Rodin.Session.RefreshElapsed` models one tick of the interval.
- `Math.random()`, `Date.now()` and `URL.createObjectURL` become parameters. `URL.revokeObjectURL` (components/form.tsx:82) has no observable effect on the state and is left out.
- `fetch`, `request.formData()`, `request.json()`, `response.json()` and `JSON.parse` are left out as computations. Their results, or the exceptions they throw, are inputs.
- `response.text()` is taken to succeed: `Web.Response.text` is the body text itself, so a body stream that fails while being read (lib/api-service.ts:10, app/api/rodin/route.ts:102, app/api/download/route.ts:28) is not modelled.
- Console logging is left out (components/rodin.tsx:168 and the route handlers). It has no effect on the state or the replies.
- Rendering, the 3D viewer, `handleDownload`'s `window.open`, the media query and the scroll locking are left out. They are presentation only.
- The hard-coded API key and the service URLs are left out. They are constants passed to `fetch`.
- The form schema in lib/form-schema.ts is not part of this model.
- Rodin.Estimate: computed in exact rational arithmetic, not IEEE doubles. `Math.round` of a double can differ from the exact result near a half.
- Stack traces are reduced to their first line, since their frames come from the runtime.
- Keys inherited from `Object.prototype` are not modelled as lookups. `qualityMultiplier["constructor"]` is a function in JavaScript, which makes `baseTime` `NaN`; the model uses the 1.0 default for any unlisted quality.
- OptionsDialog.QualityTimeEstimate: the same restriction applies, since an inherited key would return a function instead of "60-90s".
- Rodin.Estimate: does not relate the estimate to the dialog's hint ranges, which the source never ties to it.
- Form.DragRunConsistent: holds only when every `dragleave` matches an earlier `dragenter`. An unmatched leave drives the counter below zero and keeps the overlay shown.
- Form.RemoveAt: its contract gives only the length. The contents are stated by `Form.RemoveAtInRange` for indices in range. The caller, the upload area component, is not part of this model, so out-of-range indices are covered by the length only.
- The texts of runtime `TypeError`s (`Rodin.NullDataMessage`, `DownloadRoute.NullBodyError`, `RodinRoute.PromptTrimError`) follow the V8 engine's wording; other engines word them differently.
- Form.Previews: `objectUrl` is a function, so two equal files get equal URLs. `URL.createObjectURL` hands out a fresh URL on every call.
