/** The page component (components/rodin.tsx): the session state it keeps,
    what a submission does to it, the "back" action, the time estimate and
    the elapsed-time display. Checking the job's status after a submission
    is an empty function in this component, so a successful submission
    leaves the session loading. */
module Rodin {
  import opened Strings
  import opened Web
  import StatusIndicator
  import OptionsDialog
  import ApiService
  import RodinRoute

  const DefaultModelUrl := "/models/model.glb"
  const MissingDataError := "Missing required data for status checking"
  const UnknownError := "An unknown error occurred"

  /** What reading `data.jobs` throws when the service's body is `null`. */
  const NullDataMessage := "Cannot read properties of null (reading 'jobs')"

  /** The options the page starts with (lines 30-38). */
  const InitialOptions := OptionsDialog.Options("concat", "medium", "glb", false, "Regular", false, "PBR")

  /** The values the prompt form submits. */
  datatype FormValues = FormValues(prompt: string, images: seq<File>)

  /** The quality factor of lines 77-83: the table's factor, and 1.0 for a
      quality the table does not list. */
  function QualityMultiplier(quality: string): (m: real)
    ensures quality == "extra-low" ==> m == 0.5
    ensures quality == "low" ==> m == 0.7
    ensures quality == "high" ==> m == 1.5
    ensures quality != "extra-low" && quality != "low" && quality != "high" ==> m == 1.0
    ensures 0.5 <= m <= 1.5
  {
    if quality == "extra-low" then 0.5
    else if quality == "low" then 0.7
    else if quality == "high" then 1.5
    else 1.0
  }

  /** The estimate before the random factor (lines 74-100): 60 seconds,
      scaled by quality, by 1.2 for the "Regular" tier and by 1.3 with
      hyper mode, plus 15 seconds per image or 30 seconds without images. */
  function BaseEstimate(options: OptionsDialog.Options, hasImages: bool, imageCount: nat): (b: real)
    ensures b >= 30.0
  {
    var byQuality := 60.0 * QualityMultiplier(options.quality);
    var byTier := if options.tier == "Regular" then byQuality * 1.2 else byQuality;
    var byHyper := if options.useHyper then byTier * 1.3 else byTier;
    byHyper + (if hasImages then imageCount as real * 15.0 else 30.0)
  }

  /** `Math.round`: the nearest integer, halves rounding up. */
  function Round(x: real): (n: int)
    ensures n as real - 0.5 <= x < n as real + 0.5
  {
    (x + 0.5).Floor
  }

  lemma RoundMonotone(x: real, y: real)
    requires x <= y
    ensures Round(x) <= Round(y)
  {
  }

  /** The estimate for a draw `random` of `Math.random()`: the base scaled
      by a factor in [0.8, 1.2), rounded. It lies between the rounded 80%
      and the rounded 120% of the base, so it is never below 24 seconds. */
  function Estimate(options: OptionsDialog.Options, hasImages: bool, imageCount: nat, random: real): (r: int)
    requires 0.0 <= random < 1.0
    ensures Round(0.8 * BaseEstimate(options, hasImages, imageCount)) <= r
    ensures r <= Round(1.2 * BaseEstimate(options, hasImages, imageCount))
    ensures r >= 24
  {
    var base := BaseEstimate(options, hasImages, imageCount);
    ScaledRange(base, random);
    RoundMonotone(24.0, 0.8 * base);
    Scaled(base, RandomFactor(random))
  }

  /** The factor of line 103 for a draw `random` of `Math.random()`. */
  function RandomFactor(random: real): real {
    0.8 + random * 0.4
  }

  /** `Math.round(baseTime * randomFactor)` (line 106). */
  function Scaled(base: real, factor: real): int {
    Round(base * factor)
  }

  /** A draw in [0, 1) gives a factor in [0.8, 1.2), which keeps a
      non-negative amount between its rounded 80% and its rounded 120%. */
  lemma ScaledRange(base: real, random: real)
    requires base >= 0.0 && 0.0 <= random < 1.0
    ensures Round(0.8 * base) <= Scaled(base, RandomFactor(random)) <= Round(1.2 * base)
  {
    var t := base * RandomFactor(random);
    assert t == 0.8 * base + base * random * 0.4;
    assert 0.0 <= base * random <= base by {
      assert base * (1.0 - random) >= 0.0;
    }
    RoundMonotone(0.8 * base, t);
    RoundMonotone(t, 1.2 * base);
  }

  /** Scaling by a non-negative factor keeps the order of the amounts. */
  lemma ScaledMonotone(b1: real, b2: real, factor: real)
    requires b1 <= b2 && factor >= 0.0
    ensures Scaled(b1, factor) <= Scaled(b2, factor)
  {
    assert b2 * factor - b1 * factor == (b2 - b1) * factor;
    RoundMonotone(b1 * factor, b2 * factor);
  }

  /** Without images the base gets the 30 seconds two images would add,
      so one image gives a base 15 seconds shorter than none. */
  lemma NoImagesCountsAsTwo(options: OptionsDialog.Options)
    ensures BaseEstimate(options, false, 0) == BaseEstimate(options, true, 2)
    ensures BaseEstimate(options, true, 1) == BaseEstimate(options, false, 0) - 15.0
  {
  }

  /** From one image up, more images never lower the base. */
  lemma BaseGrowsWithImages(options: OptionsDialog.Options, n: nat, m: nat)
    requires n <= m
    ensures BaseEstimate(options, true, n) <= BaseEstimate(options, true, m)
  {
  }

  /** From one image up, with the same draw, more images never shorten the
      estimate. */
  lemma EstimateGrowsWithImages(options: OptionsDialog.Options, n: nat, m: nat, random: real)
    requires n <= m && 0.0 <= random < 1.0
    ensures Estimate(options, true, n, random) <= Estimate(options, true, m, random)
  {
    BaseGrowsWithImages(options, n, m);
    ScaledMonotone(BaseEstimate(options, true, n), BaseEstimate(options, true, m), RandomFactor(random));
  }

  /** `calculateEstimatedTime` (lines 73-107), with `Math.random()` given as
      `random`. */
  method CalculateEstimatedTime(options: OptionsDialog.Options, hasImages: bool, imageCount: nat, random: real)
    returns (seconds: int)
    requires 0.0 <= random < 1.0
    ensures seconds == Estimate(options, hasImages, imageCount, random)
  {
    var baseTime := 60.0;
    baseTime := baseTime * QualityMultiplier(options.quality);
    if options.tier == "Regular" {
      baseTime := baseTime * 1.2;
    }
    if options.useHyper {
      baseTime := baseTime * 1.3;
    }
    if hasImages {
      baseTime := baseTime + imageCount as real * 15.0;
    } else {
      baseTime := baseTime + 30.0;
    }
    assert baseTime == BaseEstimate(options, hasImages, imageCount);
    var randomFactor := RandomFactor(random);
    seconds := Scaled(baseTime, randomFactor);
  }

  /** The elapsed seconds shown while loading (lines 109-125), read at time
      `now` (milliseconds): whole seconds since `startTime` while loading
      with a start time, and 0 otherwise. A start time of 0 counts as none,
      as in the source's truthiness test. */
  function ElapsedSeconds(isLoading: bool, startTime: Option<int>, now: int): (e: int)
    ensures !(isLoading && startTime.Some? && startTime.value != 0) ==> e == 0
    ensures isLoading && startTime.Some? && startTime.value != 0 ==>
              e * 1000 <= now - startTime.value < (e + 1) * 1000
  {
    if isLoading && startTime.Some? && startTime.value != 0 then (now - startTime.value) / 1000 else 0
  }

  /** The option fields a submission sends, in the order of lines 156-165;
      the mesh settings are fixed. */
  function OptionEntries(options: OptionsDialog.Options): seq<FormEntry> {
    [ FormEntry("condition_mode", Text(options.conditionMode)),
      FormEntry("geometry_file_format", Text(options.geometryFileFormat)),
      FormEntry("material", Text(options.material)),
      FormEntry("quality", Text(options.quality)),
      FormEntry("use_hyper", Text(BoolText(options.useHyper))),
      FormEntry("tier", Text(options.tier)),
      FormEntry("TAPose", Text(BoolText(options.taPose))),
      FormEntry("mesh_mode", Text("Quad")),
      FormEntry("mesh_simplify", Text("true")),
      FormEntry("mesh_smooth", Text("true")) ]
  }

  /** `flag.toString()` */
  function BoolText(b: bool): string {
    if b then "true" else "false"
  }

  /** The images of a submission as form entries, in order. */
  function ImageEntries(images: seq<File>): (r: seq<FormEntry>)
    ensures |r| == |images|
    ensures forall i :: 0 <= i < |images| ==> r[i] == FormEntry("images", Blob(images[i]))
  {
    seq(|images|, i requires 0 <= i < |images| => FormEntry("images", Blob(images[i])))
  }

  /** The form a submission sends (lines 144-165): the images, the prompt
      when it is not empty, then the option fields. */
  function Payload(values: FormValues, options: OptionsDialog.Options): seq<FormEntry> {
    ImageEntries(values.images) + PromptEntries(values.prompt) + OptionEntries(options)
  }

  /** The prompt entry, sent only for a non-empty prompt (lines 152-154). */
  function PromptEntries(prompt: string): seq<FormEntry> {
    if prompt != "" then [FormEntry("prompt", Text(prompt))] else []
  }

  /** The option entries carry the ten field names the server forwards,
      in the server's order. */
  lemma OptionKeys(options: OptionsDialog.Options)
    ensures |OptionEntries(options)| == |RodinRoute.OtherFields|
    ensures forall j :: 0 <= j < |RodinRoute.OtherFields| ==>
              OptionEntries(options)[j].key == RodinRoute.OtherFields[j] && OptionEntries(options)[j].value.Text?
  {
  }

  /** How a payload is laid out: the images, then the prompt if any, then
      the ten option fields. (Stated apart from `Payload` so that uses of
      `Payload` that need none of this do not pay for it.) */
  lemma PayloadLayout(values: FormValues, options: OptionsDialog.Options)
    ensures var p := Payload(values, options);
            var off := |values.images| + |PromptEntries(values.prompt)|;
            |p| == off + |RodinRoute.OtherFields| &&
            (forall j :: 0 <= j < |values.images| ==> p[j] == FormEntry("images", Blob(values.images[j]))) &&
            (values.prompt != "" ==> p[|values.images|] == FormEntry("prompt", Text(values.prompt))) &&
            (forall j :: 0 <= j < off ==> p[j].key == "images" || p[j].key == "prompt") &&
            (forall j :: 0 <= j < |RodinRoute.OtherFields| ==> p[off + j] == OptionEntries(options)[j]) &&
            (forall j :: 0 <= j < |RodinRoute.OtherFields| ==> p[off + j].key == RodinRoute.OtherFields[j])
  {
    OptionKeys(options);
  }

  /** In a form whose entries from `off` on are named by distinct `keys`,
      and whose earlier entries use none of them, `get` finds each key at
      its own place. */
  lemma FormGetAfterPrefix(p: seq<FormEntry>, off: nat, keys: seq<string>, k: nat)
    requires k < |keys| && off + |keys| <= |p|
    requires forall j :: 0 <= j < off ==> p[j].key !in keys
    requires forall j :: 0 <= j < |keys| ==> p[off + j].key == keys[j]
    requires forall a, b :: 0 <= a < b < |keys| ==> keys[a] != keys[b]
    ensures FormGet(p, keys[k]) == Some(p[off + k].value)
  {
    forall j | 0 <= j < off + k ensures p[j].key != keys[k] {
      if j >= off {
        assert p[off + (j - off)].key == keys[j - off];
      }
    }
    FormGetFirst(p, keys[k], off + k);
  }

  /** The ten forwarded field names are distinct, and none of them is
      "images" or "prompt". */
  lemma OtherFieldsDistinct()
    ensures forall a, b :: 0 <= a < b < |RodinRoute.OtherFields| ==> RodinRoute.OtherFields[a] != RodinRoute.OtherFields[b]
    ensures "images" !in RodinRoute.OtherFields && "prompt" !in RodinRoute.OtherFields
  {
  }

  /** Each option field appears in a payload with the value the page's
      options give it. */
  lemma PayloadOption(values: FormValues, options: OptionsDialog.Options, k: nat)
    requires k < |RodinRoute.OtherFields|
    ensures FormGet(Payload(values, options), RodinRoute.OtherFields[k]) == Some(OptionEntries(options)[k].value)
  {
    var off := |values.images| + |PromptEntries(values.prompt)|;
    PayloadLayout(values, options);
    OtherFieldsDistinct();
    FormGetAfterPrefix(Payload(values, options), off, RodinRoute.OtherFields, k);
  }

  /** The payload always carries the fixed mesh settings. */
  lemma PayloadMeshSettings(values: FormValues, options: OptionsDialog.Options)
    ensures FormGet(Payload(values, options), "mesh_mode") == Some(Text("Quad"))
    ensures FormGet(Payload(values, options), "mesh_simplify") == Some(Text("true"))
    ensures FormGet(Payload(values, options), "mesh_smooth") == Some(Text("true"))
  {
    PayloadOption(values, options, 7);
    PayloadOption(values, options, 8);
    PayloadOption(values, options, 9);
  }

  /** The payload carries a prompt exactly when the prompt is not empty. */
  lemma PayloadPrompt(values: FormValues, options: OptionsDialog.Options)
    ensures FormGet(Payload(values, options), "prompt") ==
            if values.prompt != "" then Some(Text(values.prompt)) else None
  {
    var p := Payload(values, options);
    PayloadLayout(values, options);
    if values.prompt != "" {
      FormGetFirst(p, "prompt", |values.images|);
    } else {
      forall i | 0 <= i < |p| ensures p[i].key != "prompt" {
        if i >= |values.images| {
          assert p[|values.images| + (i - |values.images|)].key == RodinRoute.OtherFields[i - |values.images|];
        }
      }
    }
  }

  /** In a form whose first `n` entries, and only those, are named `key`,
      `getAll` returns their values in order. */
  lemma {:induction false} FormGetAllPrefix(p: seq<FormEntry>, n: nat, key: string)
    requires n <= |p|
    requires forall j :: 0 <= j < n ==> p[j].key == key
    requires forall j :: n <= j < |p| ==> p[j].key != key
    ensures |FormGetAll(p, key)| == n
    ensures forall i :: 0 <= i < n ==> FormGetAll(p, key)[i] == p[i].value
  {
    if n > 0 {
      FormGetAllPrefix(p[1..], n - 1, key);
    }
  }

  /** The payload's images are the submitted files, in order. */
  lemma PayloadImages(values: FormValues, options: OptionsDialog.Options)
    ensures |FormGetAll(Payload(values, options), "images")| == |values.images|
    ensures forall i :: 0 <= i < |values.images| ==> FormGetAll(Payload(values, options), "images")[i] == Blob(values.images[i])
  {
    var p := Payload(values, options);
    var off := |values.images| + |PromptEntries(values.prompt)|;
    PayloadLayout(values, options);
    OtherFieldsDistinct();
    forall j | |values.images| <= j < |p| ensures p[j].key != "images" {
      if j >= off {
        assert p[off + (j - off)].key == RodinRoute.OtherFields[j - off];
      }
    }
    FormGetAllPrefix(p, |values.images|, "images");
  }

  /** A submission from this page passes the server's presence check
      unless it has no images and a prompt made only of whitespace. */
  lemma PayloadMeetsPresenceCheck(values: FormValues, options: OptionsDialog.Options)
    ensures var p := Payload(values, options);
            RodinRoute.NothingToGenerate(FormGetAll(p, "images"), FormGet(p, "prompt")) <==>
            values.images == [] && forall i :: 0 <= i < |values.prompt| ==> IsWhitespace(values.prompt[i])
  {
    PayloadPrompt(values, options);
    PayloadImages(values, options);
  }

  /** `e` is the text entry named `field` that `get` finds in `p`. */
  predicate Answers(p: seq<FormEntry>, field: string, e: FormEntry) {
    e.key == field && e.value.Text? && FormGet(p, field) == Some(e.value)
  }

  /** A field that `get`s the text of `e` is copied as `e` itself. */
  lemma AnsweredEntry(p: seq<FormEntry>, field: string, e: FormEntry)
    requires Answers(p, field, e)
    ensures RodinRoute.OptionEntry(p, field) == [e]
  {
  }

  /** In a form where each of `fields` `get`s the text of the matching
      entry of `entries`, the server forwards exactly `entries`. */
  lemma {:induction false} ForwardedExactly(p: seq<FormEntry>, fields: seq<string>, entries: seq<FormEntry>)
    requires |fields| == |entries|
    requires forall j :: 0 <= j < |entries| ==> Answers(p, fields[j], entries[j])
    ensures RodinRoute.ForwardedOptions(p, fields) == entries
  {
    if fields != [] {
      var n := |fields| - 1;
      forall j | 0 <= j < n ensures Answers(p, fields[..n][j], entries[..n][j]) {
        assert Answers(p, fields[j], entries[j]);
      }
      ForwardedExactly(p, fields[..n], entries[..n]);
      assert Answers(p, fields[n], entries[n]);
      AnsweredEntry(p, fields[n], entries[n]);
      assert entries == entries[..n] + [entries[n]];
    }
  }

  /** What the server forwards of a submission from this page is exactly
      the page's ten option entries: every option reaches the service,
      unchanged and in order. */
  lemma PayloadForwardedUnchanged(values: FormValues, options: OptionsDialog.Options)
    ensures RodinRoute.ForwardedOptions(Payload(values, options), RodinRoute.OtherFields) == OptionEntries(options)
  {
    var p := Payload(values, options);
    var entries := OptionEntries(options);
    OptionKeys(options);
    forall j | 0 <= j < |entries| ensures Answers(p, RodinRoute.OtherFields[j], entries[j]) {
      PayloadOption(values, options, j);
    }
    ForwardedExactly(p, RodinRoute.OtherFields, entries);
  }

  /** Lines 144-165: the form a submission sends, built entry by entry. */
  method BuildPayload(values: FormValues, options: OptionsDialog.Options) returns (payload: seq<FormEntry>)
    ensures payload == Payload(values, options)
  {
    payload := [];
    var i := 0;
    while i < |values.images|
      invariant 0 <= i <= |values.images|
      invariant payload == ImageEntries(values.images[..i])
    {
      assert ImageEntries(values.images[..i + 1]) == ImageEntries(values.images[..i]) + [FormEntry("images", Blob(values.images[i]))];
      payload := payload + [FormEntry("images", Blob(values.images[i]))];
      i := i + 1;
    }
    assert values.images[..i] == values.images;
    if values.prompt != "" {
      payload := payload + [FormEntry("prompt", Text(values.prompt))];
    }
    payload := payload + OptionEntries(options);
  }

  /** The service's answer names what status checking needs:
      `data.jobs.subscription_key` and `data.uuid` are both truthy. */
  function HasStatusKeys(data: Json): (r: bool)
    ensures r <==> data.JObject? && "jobs" in data.fields && "uuid" in data.fields &&
                   data.fields["jobs"].JObject? && "subscription_key" in data.fields["jobs"].fields &&
                   Truthy(Some(data.fields["jobs"].fields["subscription_key"])) &&
                   Truthy(Some(data.fields["uuid"]))
  {
    Truthy(Get(data, "jobs")) && Truthy(Get(Get(data, "jobs").value, "subscription_key")) && Truthy(Get(data, "uuid"))
  }

  /** The banner text for a thrown value (line 180). */
  function ErrorText(e: Thrown): (t: string)
    ensures e.ErrorValue? ==> t == e.message
    ensures e.OtherValue? ==> t == UnknownError
  {
    match e
    case ErrorValue(message, _) => message
    case OtherValue(_) => UnknownError
  }

  /** An answer carrying a subscription key and a task id as strings is
      usable exactly when neither string is empty. */
  lemma StatusKeysOfStrings(k: string, u: string, extra: map<string, Json>)
    ensures HasStatusKeys(JObject(extra["jobs" := JObject(map["subscription_key" := JString(k)])]["uuid" := JString(u)]))
            <==> k != "" && u != ""
  {
  }

  class Session {
    var isLoading: bool
    var error: Option<string>
    var result: Json
    var isPolling: bool
    var modelUrl: Option<string>
    var downloadUrl: Option<string>
    var jobStatuses: seq<StatusIndicator.JobStatus>
    var showOptions: bool
    var showPromptContainer: bool
    var options: OptionsDialog.Options
    var isDefaultModel: bool
    var estimatedTime: int
    var startTime: Option<int>
    var elapsedTime: int

    /** The state the page starts in (lines 20-44). */
    constructor ()
      ensures !isLoading && error == None && result == JNull && !isPolling
      ensures modelUrl == Some(DefaultModelUrl) && downloadUrl == None && jobStatuses == []
      ensures !showOptions && !showPromptContainer && options == InitialOptions && isDefaultModel
      ensures estimatedTime == 0 && startTime == None && elapsedTime == 0
    {
      isLoading, error, result, isPolling := false, None, JNull, false;
      modelUrl, downloadUrl, jobStatuses := Some(DefaultModelUrl), None, [];
      showOptions, showPromptContainer, options, isDefaultModel := false, false, InitialOptions, true;
      estimatedTime, startTime, elapsedTime := 0, None, 0;
    }

    /** `handleOptionsChange` (lines 69-71). */
    method HandleOptionsChange(newOptions: OptionsDialog.Options)
      modifies this`options
      ensures options == newOptions
    {
      options := newOptions;
    }

    /** The elapsed-time effect (lines 109-125) observed at time `now`. */
    method RefreshElapsed(now: int)
      modifies this`elapsedTime
      ensures elapsedTime == ElapsedSeconds(isLoading, startTime, now)
    {
      if isLoading && startTime.Some? && startTime.value != 0 {
        elapsedTime := (now - startTime.value) / 1000;
      } else {
        elapsedTime := 0;
      }
    }

    /** Lines 128-141, before the request: clear the previous run, start
        loading and the clock, and estimate the time. */
    method BeginSubmission(values: FormValues, random: real, now: int)
      requires 0.0 <= random < 1.0
      modifies this
      ensures isLoading && error == None && result == JNull
      ensures modelUrl == None && downloadUrl == None && jobStatuses == [] && !isDefaultModel
      ensures estimatedTime == Estimate(options, values.images != [], |values.images|, random)
      ensures startTime == Some(now)
      ensures options == old(options) && showOptions == old(showOptions)
      ensures showPromptContainer == old(showPromptContainer) && isPolling == old(isPolling)
      ensures elapsedTime == old(elapsedTime)
    {
      isLoading := true;
      error := None;
      result := JNull;
      modelUrl := None;
      downloadUrl := None;
      jobStatuses := [];
      isDefaultModel := false;

      var hasImages := |values.images| > 0;
      var imageCount := if hasImages then |values.images| else 0;
      var estimated := CalculateEstimatedTime(options, hasImages, imageCount, random);
      estimatedTime := estimated;
      startTime := Some(now);
    }

    /** Lines 167-183: what the submission wrapper returned or threw
        decides the result, the error and whether loading goes on. */
    method SettleSubmission(outcome: Completion<Json>)
      modifies this`result, this`error, this`isLoading, this`startTime
      ensures match outcome
              case Throw(e) =>
                result == old(result) && error == Some(ErrorText(e)) && !isLoading && startTime == None
              case Normal(data) =>
                result == data &&
                if data == JNull then
                  error == Some(NullDataMessage) && !isLoading && startTime == None
                else if HasStatusKeys(data) then
                  error == old(error) && isLoading == old(isLoading) && startTime == old(startTime)
                else
                  error == Some(MissingDataError) && !isLoading && startTime == None
    {
      match outcome {
        case Throw(e) =>
          error := Some(ErrorText(e));
          isLoading := false;
          startTime := None;
        case Normal(data) =>
          result := data;
          if data == JNull {
            // reading `data.jobs` throws, and the catch reports it
            error := Some(NullDataMessage);
            isLoading := false;
            startTime := None;
          } else if HasStatusKeys(data) {
            // the status check it hands over to is an empty function
          } else {
            error := Some(MissingDataError);
            isLoading := false;
            startTime := None;
          }
      }
    }

    /** `handleSubmit` (lines 127-184): `random` is `Math.random()`, `now`
        is `Date.now()`, and `fetched` is how the request to the
        submission route completed. Returns the form that was sent. A
        successful submission stays loading, since nothing ever checks
        the job's status. */
    method HandleSubmit(values: FormValues, random: real, now: int, fetched: Completion<Response>)
      returns (payload: seq<FormEntry>)
      requires 0.0 <= random < 1.0
      modifies this
      ensures payload == Payload(values, options)
      ensures options == old(options) && showOptions == old(showOptions)
      ensures showPromptContainer == old(showPromptContainer) && isPolling == old(isPolling)
      ensures elapsedTime == old(elapsedTime)
      ensures modelUrl == None && downloadUrl == None && jobStatuses == [] && !isDefaultModel
      ensures estimatedTime == Estimate(options, values.images != [], |values.images|, random)
      ensures match ApiService.SubmitRodinJob(fetched)
              case Throw(e) =>
                result == JNull && error == Some(ErrorText(e)) && !isLoading && startTime == None
              case Normal(data) =>
                result == data &&
                if data == JNull then
                  error == Some(NullDataMessage) && !isLoading && startTime == None
                else if HasStatusKeys(data) then
                  error == None && isLoading && startTime == Some(now)
                else
                  error == Some(MissingDataError) && !isLoading && startTime == None
    {
      BeginSubmission(values, random, now);
      payload := BuildPayload(values, options);
      var outcome := ApiService.SubmitRodinJob(fetched);
      SettleSubmission(outcome);
    }

    /** `handleBack` (lines 192-196): shows the prompt again over the
        default model, and changes nothing else. */
    method HandleBack()
      modifies this
      ensures showPromptContainer && modelUrl == Some(DefaultModelUrl) && isDefaultModel
      ensures isLoading == old(isLoading) && error == old(error) && result == old(result)
      ensures isPolling == old(isPolling) && downloadUrl == old(downloadUrl) && jobStatuses == old(jobStatuses)
      ensures showOptions == old(showOptions) && options == old(options) && estimatedTime == old(estimatedTime)
      ensures startTime == old(startTime) && elapsedTime == old(elapsedTime)
    {
      showPromptContainer := true;
      modelUrl := Some(DefaultModelUrl);
      isDefaultModel := true;
    }

    /** `handleStartGeneration` (lines 198-200). */
    method HandleStartGeneration()
      modifies this`showPromptContainer
      ensures showPromptContainer
    {
      showPromptContainer := true;
    }
  }
}
