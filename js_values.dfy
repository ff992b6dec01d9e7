/** Values as the JavaScript code sees them: properties that may be missing,
    JSON payloads, truthiness, and the request records that cross the wire
    between the browser client and the same-origin proxy route. */
module JsValues {

  /** A property that is `undefined`/`null` (None) or holds a value. */
  datatype Option<+T> = None | Some(value: T) {
    /** `x || fallback` for a property whose every present value is truthy. */
    function GetOr(default: T): T {
      match this
      case Some(v) => v
      case None => default
    }
  }

  /** A JSON payload; numbers are restricted to integers. Object fields keep
      their key order, as JavaScript objects do. */
  datatype Json =
    | JNull
    | JBool(b: bool)
    | JNum(n: int)
    | JStr(s: string)
    | JArr(items: seq<Json>)
    | JObj(fields: seq<(string, Json)>)

  /** JavaScript truthiness of a JSON value: null, false, 0 and "" are falsy. */
  predicate Truthy(j: Json) {
    match j
    case JNull => false
    case JBool(b) => b
    case JNum(n) => n != 0
    case JStr(s) => s != ""
    case _ => true
  }

  /** Truthiness of a property holding JSON; `undefined` is falsy. */
  predicate TruthyOpt(o: Option<Json>) {
    o.Some? && Truthy(o.value)
  }

  /** Truthiness of a property holding a string: present and non-empty. */
  predicate Present(o: Option<string>) {
    o.Some? && o.value != ""
  }

  /** A header object whose values are all strings (as it arrives in JSON). */
  type Headers = map<string, string>

  /** Reading `h[k]` from a header object. */
  function Lookup(h: Headers, k: string): Option<string> {
    if k in h then Some(h[k]) else None
  }

  /** The `options` object of a request: `method` (here `verb`, since `method`
      is a Dafny keyword), `headers`, `body` and `params`. */
  datatype FetchOptions = FetchOptions(
    verb: Option<string>,
    headers: Option<Headers>,
    body: Option<Json>,
    params: Option<Json>)

  /** The JSON body the proxy route reads: `{ endPoint, options }`. */
  datatype ProxyBody = ProxyBody(endPoint: Option<string>, options: Option<FetchOptions>)
}
