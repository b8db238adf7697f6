/**
 * JavaScript values as the app sees them: an optional value (`undefined` /
 * `null` versus present), a parsed JSON value with JavaScript truthiness and
 * `String(...)` conversion, optional property access (`v?.key`), and the
 * values a `catch` clause can receive.
 */
module JsValues {
  import opened JsStrings

  datatype Option<+T> = None | Some(value: T)

  datatype Result<+T, +E> = Ok(value: T) | Err(error: E)

  /** A value produced by `JSON.parse`. Numbers are restricted to integers. */
  datatype Json =
    | JNull
    | JBool(b: bool)
    | JNum(n: int)
    | JStr(s: string)
    | JArr(elems: seq<Json>)
    | JObj(fields: map<string, Json>)

  /** JavaScript truthiness of a value that may be `undefined` (`None`). */
  predicate Truthy(v: Option<Json>) {
    match v
    case None => false
    case Some(JNull) => false
    case Some(JBool(b)) => b
    case Some(JNum(n)) => n != 0
    case Some(JStr(s)) => s != ""
    case Some(JArr(_)) => true
    case Some(JObj(_)) => true
  }

  /** `v?.key`: only objects carry named properties; everything else gives `undefined`. */
  function Field(v: Json, key: string): (r: Option<Json>)
    ensures r.Some? ==> v.JObj? && key in v.fields && r.value == v.fields[key]
    ensures v.JObj? && key in v.fields ==> r.Some?
  {
    if v.JObj? && key in v.fields then Some(v.fields[key]) else None
  }

  /** `a || b` on possibly-undefined values. */
  function Or(a: Option<Json>, b: Option<Json>): (r: Option<Json>)
    ensures Truthy(a) ==> r == a
    ensures !Truthy(a) ==> r == b
  {
    if Truthy(a) then a else b
  }

  /** `String(v)`: strings stay as they are; arrays join their elements with ","; objects print as `[object Object]`. */
  function JsString(v: Json): string
    decreases v
  {
    match v
    case JNull => "null"
    case JBool(b) => if b then "true" else "false"
    case JNum(n) => IntToString(n)
    case JStr(s) => s
    case JArr(es) => Join(seq(|es|, i requires 0 <= i < |es| => if es[i] == JNull then "" else JsString(es[i])), ",")
    case JObj(_) => "[object Object]"
  }

  /** What a `catch` clause receives. Errors thrown by the app's own code carry a string message. */
  datatype Thrown =
    | ErrorWithMessage(message: string)
    | StringValue(s: string)
    /** Any other thrown value, with its `JSON.stringify(e, null, 2)` text. */
    | OtherValue(json: string)

  /** `e?.message || fallback`. */
  function MessageOr(e: Thrown, fallback: string): (r: string)
    ensures e.ErrorWithMessage? && e.message != "" ==> r == e.message
    ensures !(e.ErrorWithMessage? && e.message != "") ==> r == fallback
  {
    if e.ErrorWithMessage? && e.message != "" then e.message else fallback
  }
}
