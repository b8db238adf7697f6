/**
 * The backend helper `api` of lib/api.ts: the configuration check, the
 * request options, lenient JSON parsing and the choice between the value
 * returned and the message thrown. `fetch` and `JSON.parse` are inputs:
 * `parsed` is `None` when parsing throws.
 */
module Api {
  import opened JsStrings
  import opened JsValues

  /** The options a caller may pass; `None` is a key the caller left out. */
  datatype Init = Init(httpMethod: Option<string>, headers: Option<map<string, string>>, body: Option<string>)

  /** The options `fetch` receives. */
  datatype Options = Options(httpMethod: string, headers: map<string, string>, body: Option<string>)

  /** `{ method: "GET", headers: { "Content-Type": "application/json" }, ...init }`: each given key replaces the default whole. */
  function RequestOptions(init: Init): (o: Options)
    ensures init.httpMethod.None? ==> o.httpMethod == "GET"
    ensures init.httpMethod.Some? ==> o.httpMethod == init.httpMethod.value
    ensures init.headers.None? ==> o.headers == map["Content-Type" := "application/json"]
    ensures init.headers.Some? ==> o.headers == init.headers.value
    ensures o.body == init.body
  {
    Options(
      if init.httpMethod.Some? then init.httpMethod.value else "GET",
      if init.headers.Some? then init.headers.value else map["Content-Type" := "application/json"],
      init.body)
  }

  /** `tryParseJson(raw)`: the parsed value, or `null` when parsing throws. */
  function TryParseJson(parsed: Option<Json>): (v: Json)
    ensures parsed.None? ==> v == JNull
    ensures parsed.Some? ==> v == parsed.value
  {
    if parsed.Some? then parsed.value else JNull
  }

  /** `raw ? tryParseJson(raw) : null`. */
  function AsJson(raw: string, parsed: Option<Json>): (v: Json)
    ensures raw == "" ==> v == JNull
    ensures raw != "" ==> v == TryParseJson(parsed)
  {
    if raw == "" then JNull else TryParseJson(parsed)
  }

  /**
   * The message of a failed response, before `String(...)`:
   * `(asJson && (asJson.error || asJson.message)) || (raw?.trim() ? raw : \`HTTP ${status}\`)`.
   */
  function ErrorValue(status: int, raw: string, asJson: Json): (m: Json)
  {
    var fromJson := if Truthy(Some(asJson)) then Or(Field(asJson, "error"), Field(asJson, "message")) else Some(asJson);
    if Truthy(fromJson) then fromJson.value
    else if Trim(raw) != "" then JStr(raw)
    else JStr("HTTP " + IntToString(status))
  }

  /** `String(msg)`: the text of the error thrown for a failed response. */
  function ErrorMessage(status: int, raw: string, asJson: Json): (msg: string)
    ensures Truthy(Field(asJson, "error")) ==> msg == JsString(asJson.fields["error"])
    ensures !Truthy(Field(asJson, "error")) && Truthy(Field(asJson, "message")) ==> msg == JsString(asJson.fields["message"])
    ensures !Truthy(Field(asJson, "error")) && !Truthy(Field(asJson, "message")) && Trim(raw) != "" ==> msg == raw
    ensures !Truthy(Field(asJson, "error")) && !Truthy(Field(asJson, "message")) && Trim(raw) == "" ==>
              msg == "HTTP " + IntToString(status)
  {
    JsString(ErrorValue(status, raw, asJson))
  }

  /** `res.ok`: a status in 200..299. */
  predicate IsOk(status: int) {
    200 <= status <= 299
  }

  /** The outcome of `api(path, init)` once the response is in. */
  function Classify(status: int, raw: string, parsed: Option<Json>): (r: Result<Json, Thrown>)
    ensures !IsOk(status) ==> r == Err(ErrorWithMessage(ErrorMessage(status, raw, AsJson(raw, parsed))))
    ensures IsOk(status) && AsJson(raw, parsed) != JNull ==> r == Ok(AsJson(raw, parsed))
    ensures IsOk(status) && AsJson(raw, parsed) == JNull ==> r == Ok(JObj(map[]))
  {
    var asJson := AsJson(raw, parsed);
    if !IsOk(status) then Err(ErrorWithMessage(ErrorMessage(status, raw, asJson)))
    else if asJson == JNull then Ok(JObj(map[]))
    else Ok(asJson)
  }

  /** What calling `api` amounts to: a thrown configuration error, or one request and its outcome. */
  datatype Call =
    | NotConfigured(error: Thrown)
    | Sent(url: string, options: Options, outcome: Result<Json, Thrown>)

  /** `api(path, init)` against the configured backend URL and the response it gets. */
  function CallApi(backendUrl: string, path: string, init: Init, status: int, raw: string, parsed: Option<Json>): (c: Call)
    ensures backendUrl == "" <==> c.NotConfigured?
    ensures c.NotConfigured? ==> c.error == ErrorWithMessage("BACKEND_URL is not configured")
    ensures c.Sent? ==> c.url == backendUrl + path && c.options == RequestOptions(init) &&
                        c.outcome == Classify(status, raw, parsed)
  {
    if backendUrl == "" then NotConfigured(ErrorWithMessage("BACKEND_URL is not configured"))
    else Sent(backendUrl + path, RequestOptions(init), Classify(status, raw, parsed))
  }

  // ---------------------------------------------------------------------------
  // Properties
  // ---------------------------------------------------------------------------

  /** A successful call always yields a value: an empty or unparseable body becomes `{}`. */
  lemma OkNeverYieldsNull(status: int, raw: string, parsed: Option<Json>)
    requires IsOk(status)
    ensures Classify(status, raw, parsed).Ok? && Classify(status, raw, parsed).value != JNull
    ensures raw == "" || parsed.None? || parsed == Some(JNull) ==> Classify(status, raw, parsed) == Ok(JObj(map[]))
  {
  }

  /** `error` beats `message`: a body carrying both reports `error`. */
  lemma ErrorFieldFirst(status: int, e: string, m: string)
    requires !IsOk(status) && e != ""
    ensures var body := JObj(map["error" := JStr(e), "message" := JStr(m)]);
            Classify(status, "{...}", Some(body)) == Err(ErrorWithMessage(e))
  {
    var body := JObj(map["error" := JStr(e), "message" := JStr(m)]);
    assert Field(body, "error") == Some(JStr(e));
  }

  /** A non-JSON error body is reported as sent, surrounding whitespace included. */
  lemma RawBodyUntrimmed(status: int)
    requires !IsOk(status)
    ensures Classify(status, " Bad Gateway\n", None) == Err(ErrorWithMessage(" Bad Gateway\n"))
  {
    var raw := " Bad Gateway\n";
    assert Trim(raw) != "" by {
      TrimShape(raw);
      assert !IsSpace(raw[1]);
    }
  }

  /** A blank error body falls through to the status text. */
  lemma BlankBodyGivesStatus(status: int)
    requires !IsOk(status)
    ensures Classify(status, " ", None) == Err(ErrorWithMessage("HTTP " + IntToString(status)))
  {
    assert Trim(" ") == "" by {
      TrimShape(" ");
    }
  }

  /** A falsy JSON body (`0`, `false`, `""`) is not consulted for fields: its raw text is the message. */
  lemma FalsyJsonUsesRaw(status: int)
    requires !IsOk(status)
    ensures Classify(status, "0", Some(JNum(0))) == Err(ErrorWithMessage("0"))
  {
    assert Trim("0") != "" by {
      TrimShape("0");
    }
  }

  /** Caller options replace the defaults; the headers object is replaced as a whole, not merged. */
  lemma PostKeepsJsonHeader(body: string)
    ensures RequestOptions(Init(Some("POST"), None, Some(body))) ==
            Options("POST", map["Content-Type" := "application/json"], Some(body))
    ensures RequestOptions(Init(None, Some(map["X" := "1"]), None)).headers == map["X" := "1"]
  {
  }
}
