/** The values the handlers exchange with the platform: JSON values and
    JavaScript truthiness, thrown values, files and form entries, HTTP
    responses. Platform operations (fetch, JSON parsing, reading a request
    body) are never computed here: their outcomes are inputs of the
    operations that use them. */
module Web {
  import opened Strings

  datatype Option<+T> = None | Some(value: T)

  /** A value decoded from JSON text. */
  datatype Json =
    | JNull
    | JBool(b: bool)
    | JNumber(n: real)
    | JString(s: string)
    | JArray(items: seq<Json>)
    | JObject(fields: map<string, Json>)

  /** A property read `v[key]` on a decoded value; `None` is `undefined`.
      Reading a property of `null` throws, so callers test for `JNull`
      before calling this where the source would throw. */
  function Get(v: Json, key: string): (r: Option<Json>)
    ensures r.Some? <==> v.JObject? && key in v.fields
  {
    if v.JObject? && key in v.fields then Some(v.fields[key]) else None
  }

  /** JavaScript truthiness of a property value: `undefined`, `null`,
      `false`, `0` and `""` are falsy, everything else (arrays and objects
      included) is truthy. */
  function Truthy(p: Option<Json>): (t: bool)
    ensures t ==> p.Some? && !p.value.JNull?
    ensures p.Some? && (p.value.JArray? || p.value.JObject?) ==> t
    ensures p.Some? && p.value.JString? ==> (t <==> p.value.s != "")
    ensures p.Some? && p.value.JBool? ==> (t <==> p.value.b)
    ensures p.Some? && p.value.JNumber? ==> (t <==> p.value.n != 0.0)
  {
    match p
    case None => false
    case Some(JNull) => false
    case Some(JBool(b)) => b
    case Some(JNumber(n)) => n != 0.0
    case Some(JString(s)) => s != ""
    case Some(_) => true
  }

  /** A value thrown by `throw`: an `Error` object (with its message and its
      stack trace text) or any other value (with its `String(value)`). */
  datatype Thrown = ErrorValue(message: string, stack: string) | OtherValue(text: string)

  /** How an expression or platform call completes: with a value, or by
      throwing. */
  datatype Completion<+T> = Normal(value: T) | Throw(error: Thrown)

  /** An uploaded file, as far as the handlers look at it. */
  datatype File = File(name: string, size: nat, mimeType: string)

  /** A value of a multipart form: a text field or a file. */
  datatype FormValue = Text(s: string) | Blob(file: File)

  datatype FormEntry = FormEntry(key: string, value: FormValue)

  /** `formData.get(key)`: the value of the first entry named `key`
      (`FormGetFirst` says which entry that is). */
  function FormGet(form: seq<FormEntry>, key: string): (r: Option<FormValue>)
    ensures r.None? <==> forall i :: 0 <= i < |form| ==> form[i].key != key
    ensures r.Some? ==> FormEntry(key, r.value) in form
  {
    if form == [] then None
    else if form[0].key == key then Some(form[0].value)
    else
      var r := FormGet(form[1..], key);
      assert forall i :: 0 < i < |form| ==> form[i] == form[1..][i - 1];
      r
  }

  /** The first entry named `key` decides what `get` returns. */
  lemma {:induction false} FormGetFirst(form: seq<FormEntry>, key: string, i: nat)
    requires i < |form| && form[i].key == key
    requires forall j :: 0 <= j < i ==> form[j].key != key
    ensures FormGet(form, key) == Some(form[i].value)
  {
    if i > 0 {
      assert form[0].key != key;
      assert form[1..][i - 1] == form[i];
      FormGetFirst(form[1..], key, i - 1);
    }
  }

  /** `formData.getAll(key)`: the values of all entries named `key`, in
      order. */
  function FormGetAll(form: seq<FormEntry>, key: string): (r: seq<FormValue>)
    ensures |r| <= |form|
    ensures r == [] <==> forall i :: 0 <= i < |form| ==> form[i].key != key
    ensures forall j :: 0 <= j < |r| ==> FormEntry(key, r[j]) in form
  {
    if form == [] then []
    else
      var rest := FormGetAll(form[1..], key);
      assert forall i :: 0 < i < |form| ==> form[i] == form[1..][i - 1];
      if form[0].key == key then [form[0].value] + rest else rest
  }

  /** Getting all values of a form made of two parts gets those of the
      first part, then those of the second: with the one-entry case this
      says every matching entry is taken once, in form order. */
  lemma {:induction false} FormGetAllConcat(a: seq<FormEntry>, b: seq<FormEntry>, key: string)
    ensures FormGetAll(a + b, key) == FormGetAll(a, key) + FormGetAll(b, key)
    decreases |a|
  {
    if a == [] {
      assert a + b == b;
    } else {
      assert (a + b)[0] == a[0];
      assert (a + b)[1..] == a[1..] + b;
      FormGetAllConcat(a[1..], b, key);
    }
  }

  /** An HTTP response: status, `content-type` header (absent or not), the
      body as text, and the outcome of decoding that text as JSON. */
  datatype Response = Response(status: nat, contentType: Option<string>, text: string, json: Completion<Json>)
  {
    /** `response.ok`: the status is in the range 200 to 299. */
    predicate Ok() { 200 <= status <= 299 }
  }

  /** `!contentType || !contentType.includes("application/json")`, negated. */
  function IsJsonContentType(contentType: Option<string>): (r: bool)
    ensures r <==> contentType.Some? && Contains(contentType.value, "application/json")
  {
    contentType.Some? && contentType.value != "" && Contains(contentType.value, "application/json")
  }

  /** A reply built with `NextResponse.json(body, { status })`. */
  datatype Reply = Reply(status: nat, body: Json)

  /** The body `{ error }` of a rejection. */
  function ErrorBody(error: string): Json {
    JObject(map["error" := JString(error)])
  }

  /** The body `{ error, details }` of a failure report. */
  function ErrorDetailsBody(error: Json, details: string): Json {
    JObject(map["error" := error, "details" := JString(details)])
  }
}
