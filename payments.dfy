/**
 * The payment-service client of lib/payments.ts: how a response (status
 * code, body text and the outcome of parsing it) becomes either a value or a
 * thrown error, and the two endpoints that go through that classification.
 * `fetch` and `JSON.parse` are inputs: `parsed` is `None` when parsing throws.
 */
module Payments {
  import opened JsStrings
  import opened JsValues

  const ApiBase: string := "https://payment-services-d0x2.onrender.com"
  const PreviewLength: nat := 180

  /** `res.ok`: a status in 200..299. */
  predicate IsOk(status: int) {
    200 <= status <= 299
  }

  function HttpStatusText(status: int): string {
    "HTTP " + IntToString(status)
  }

  function NonJsonMessage(status: int, text: string): string {
    "Non-JSON response (" + IntToString(status) + "): " + Prefix(text, PreviewLength)
  }

  /** `data?.detail || data?.error || \`HTTP ${status}\``, as the text `new Error(msg)` carries. */
  function FailureMessage(data: Json, status: int): (msg: string)
    ensures Truthy(Field(data, "detail")) ==> msg == JsString(data.fields["detail"])
    ensures !Truthy(Field(data, "detail")) && Truthy(Field(data, "error")) ==> msg == JsString(data.fields["error"])
    ensures !Truthy(Field(data, "detail")) && !Truthy(Field(data, "error")) ==> msg == HttpStatusText(status)
  {
    var m := Or(Field(data, "detail"), Field(data, "error"));
    if Truthy(m) then JsString(m.value) else HttpStatusText(status)
  }

  /** `parseJsonOrThrow(res)`. */
  function ParseJsonOrThrow(status: int, text: string, parsed: Option<Json>): (r: Result<Json, Thrown>)
    ensures text == "" && IsOk(status) ==> r == Ok(JNull)
    ensures text != "" && parsed.None? ==> r == Err(ErrorWithMessage(NonJsonMessage(status, text)))
    ensures (text == "" || parsed.Some?) && !IsOk(status) ==>
              r == Err(ErrorWithMessage(FailureMessage(if text == "" then JNull else parsed.value, status)))
    ensures text != "" && parsed.Some? && IsOk(status) ==> r == Ok(parsed.value)
  {
    if text != "" && parsed.None? then Err(ErrorWithMessage(NonJsonMessage(status, text)))
    else
      var data := if text == "" then JNull else parsed.value;
      if !IsOk(status) then Err(ErrorWithMessage(FailureMessage(data, status)))
      else Ok(data)
  }

  /** A request as handed to `fetch`. */
  datatype Request = Request(httpMethod: string, url: string, contentTypeJson: bool, body: Option<Json>)

  /** The arguments of `createPaymentLink`; optional fields are left out of the JSON body when absent. */
  datatype LinkParams = LinkParams(
    referenceId: string, amount: int, name: Option<string>, email: Option<string>,
    contact: Option<string>, callbackUrl: Option<string>)

  function AddIfPresent(m: map<string, Json>, key: string, v: Option<string>): (r: map<string, Json>)
    ensures v.Some? ==> r == m[key := JStr(v.value)]
    ensures v.None? ==> r == m
  {
    if v.Some? then m[key := JStr(v.value)] else m
  }

  /** `JSON.stringify(params)`: keys with an `undefined` value are omitted. */
  function LinkBody(p: LinkParams): (body: Json)
    ensures body.JObj?
    ensures "referenceId" in body.fields && body.fields["referenceId"] == JStr(p.referenceId)
    ensures "amount" in body.fields && body.fields["amount"] == JNum(p.amount)
    ensures ("name" in body.fields <==> p.name.Some?) && ("callbackUrl" in body.fields <==> p.callbackUrl.Some?)
    ensures ("email" in body.fields <==> p.email.Some?) && ("contact" in body.fields <==> p.contact.Some?)
    ensures p.name.Some? ==> body.fields["name"] == JStr(p.name.value)
    ensures p.email.Some? ==> body.fields["email"] == JStr(p.email.value)
    ensures p.contact.Some? ==> body.fields["contact"] == JStr(p.contact.value)
    ensures p.callbackUrl.Some? ==> body.fields["callbackUrl"] == JStr(p.callbackUrl.value)
    ensures body.fields.Keys <= {"referenceId", "amount", "name", "email", "contact", "callbackUrl"}
  {
    var base := map["referenceId" := JStr(p.referenceId), "amount" := JNum(p.amount)];
    JObj(AddIfPresent(AddIfPresent(AddIfPresent(AddIfPresent(base, "name", p.name), "email", p.email),
                                   "contact", p.contact), "callbackUrl", p.callbackUrl))
  }

  function CreateLinkUrl(): string {
    ApiBase + "/api/payments/create-link"
  }

  function StatusUrl(referenceId: string): (url: string)
    ensures StartsWith(url, ApiBase + "/api/payments/status/")
    ensures url[|ApiBase + "/api/payments/status/"|..] == referenceId
  {
    ApiBase + "/api/payments/status/" + referenceId
  }

  /** `createPaymentLink(params)`: the request it sends and what it resolves or rejects with. */
  function CreatePaymentLink(p: LinkParams, status: int, text: string, parsed: Option<Json>): (r: (Request, Result<Json, Thrown>))
    ensures r.0 == Request("POST", CreateLinkUrl(), true, Some(LinkBody(p)))
    ensures r.1 == ParseJsonOrThrow(status, text, parsed)
  {
    (Request("POST", CreateLinkUrl(), true, Some(LinkBody(p))), ParseJsonOrThrow(status, text, parsed))
  }

  /** `fetchPaymentStatus(referenceId)`: a GET with default options. */
  function FetchPaymentStatus(referenceId: string, status: int, text: string, parsed: Option<Json>): (r: (Request, Result<Json, Thrown>))
    ensures r.0 == Request("GET", StatusUrl(referenceId), false, None)
    ensures r.1 == ParseJsonOrThrow(status, text, parsed)
  {
    (Request("GET", StatusUrl(referenceId), false, None), ParseJsonOrThrow(status, text, parsed))
  }

  // ---------------------------------------------------------------------------
  // Properties
  // ---------------------------------------------------------------------------

  /** An empty body is never parsed: the outcome does not depend on the parser. */
  lemma EmptyBodySkipsParse(status: int, p: Option<Json>, q: Option<Json>)
    ensures ParseJsonOrThrow(status, "", p) == ParseJsonOrThrow(status, "", q)
  {
  }

  /** An unparseable body wins over the status check: even a 200 throws the preview. */
  lemma ParseFailureBeatsStatus(s1: int, s2: int, text: string)
    requires text != "" && IsOk(s1) && !IsOk(s2)
    ensures ParseJsonOrThrow(s1, text, None).Err? && ParseJsonOrThrow(s2, text, None).Err?
    ensures ParseJsonOrThrow(s2, text, None).error.message == NonJsonMessage(s2, text)
  {
  }

  /** The preview holds at most 180 characters of the body, taken from its start. */
  lemma PreviewIsBodyPrefix(status: int, text: string)
    ensures var pre := "Non-JSON response (" + IntToString(status) + "): ";
            StartsWith(NonJsonMessage(status, text), pre) &&
            |NonJsonMessage(status, text)| - |pre| <= PreviewLength &&
            StartsWith(text, NonJsonMessage(status, text)[|pre|..])
  {
    var pre := "Non-JSON response (" + IntToString(status) + "): ";
    var m := NonJsonMessage(status, text);
    assert m == pre + Prefix(text, PreviewLength);
    assert m[|pre|..] == Prefix(text, PreviewLength);
    assert m[..|pre|] == pre;
  }

  /** `detail` is preferred to `error`, and a server error with neither reports the status. */
  lemma DetailBeforeError(status: int, detail: string, error: string)
    requires !IsOk(status) && detail != ""
    ensures var body := JObj(map["detail" := JStr(detail), "error" := JStr(error)]);
            ParseJsonOrThrow(status, "{...}", Some(body)) == Err(ErrorWithMessage(detail))
    ensures ParseJsonOrThrow(status, "{}", Some(JObj(map[]))) == Err(ErrorWithMessage(HttpStatusText(status)))
  {
    var body := JObj(map["detail" := JStr(detail), "error" := JStr(error)]);
    assert Field(body, "detail") == Some(JStr(detail));
  }

  /** Two status requests go to the same URL only for the same reference id. */
  lemma StatusUrlInjective(a: string, b: string)
    requires StatusUrl(a) == StatusUrl(b)
    ensures a == b
  {
  }
}
