/** The browser-side API client `ApiService` (utils/ApiService.js): default
    headers, the success and error interpreters that feed the toast sink, the
    proxied `request`, and the per-verb option shapes. The toast sink is the
    returned sequence of toasts; the network call is an explicit outcome. */
module ApiService {
  import opened JsValues
  import opened Envelope

  /** One toast: its colour ("success" / "error") and its text. */
  datatype Toast = Toast(color: string, message: string)

  /** Success messages that are never shown. */
  const IgnoredMessages: seq<string> := ["Done!", "Done"]

  /** The same-origin proxy route every request goes through. */
  const ProxyPath := "/api/handleRequest"

  /** A header record as the client builds it; None is an `undefined` value. */
  type HeaderRecord = map<string, Option<string>>

  /** `setHeader()`: `Accept` always, `Authorization` a Bearer token only when
      the stored token is truthy (else the key holds `undefined`). */
  function SetHeader(token: Option<string>): (h: HeaderRecord)
    ensures h.Keys == {"Accept", "Authorization"}
    ensures h["Accept"] == Some("application/json")
    ensures h["Authorization"].Some? <==> Present(token)
    ensures Present(token) ==> h["Authorization"] == Some("Bearer " + token.value)
  {
    map["Accept" := Some("application/json"),
        "Authorization" := if Present(token) then Some("Bearer " + token.value) else None]
  }

  /** Caller headers as a header record. */
  function Lift(h: Option<Headers>): (r: HeaderRecord)
    ensures h.None? ==> r == map[]
    ensures h.Some? ==> r.Keys == h.value.Keys && forall k :: k in h.value ==> r[k] == Some(h.value[k])
  {
    if h.None? then map[] else map k | k in h.value :: Some(h.value[k])
  }

  /** `{ ...setHeader(), ...options.headers }`: the caller's headers win. */
  function RequestHeaders(token: Option<string>, caller: Option<Headers>): (h: HeaderRecord)
    ensures h.Keys == {"Accept", "Authorization"} + (if caller.Some? then caller.value.Keys else {})
    ensures caller.Some? ==> forall k :: k in caller.value ==> h[k] == Some(caller.value[k])
    ensures forall k :: k in SetHeader(token) && (caller.None? || k !in caller.value) ==> h[k] == SetHeader(token)[k]
  {
    SetHeader(token) + Lift(caller)
  }

  /** True when `handleSuccess` shows the response's message. */
  predicate Announces(response: Body) {
    && response.meta.Some?
    && response.meta.value.status == Some(true)
    && Present(response.meta.value.message)
    && response.meta.value.message.value !in IgnoredMessages
  }

  /** `handleSuccess(response)`: at most one success toast, carrying the
      envelope's message, and only for a truthy status-true message that is
      not on the ignore list. */
  function HandleSuccess(response: Body): (r: seq<Toast>)
    ensures |r| <= 1
    ensures r != [] <==> Announces(response)
    ensures r != [] ==> r == [Toast("success", response.meta.value.message.value)]
  {
    if Announces(response) then [Toast("success", response.meta.value.message.value)] else []
  }

  /** One error toast per message, in order. */
  function ErrorToasts(msgs: seq<string>): (r: seq<Toast>)
    ensures |r| == |msgs|
    ensures forall i :: 0 <= i < |msgs| ==> r[i] == Toast("error", msgs[i])
  {
    seq(|msgs|, i requires 0 <= i < |msgs| => Toast("error", msgs[i]))
  }

  /** The texts of a sequence of toasts. */
  function Messages(ts: seq<Toast>): (r: seq<string>)
    ensures |r| == |ts|
    ensures forall i :: 0 <= i < |ts| ==> r[i] == ts[i].message
  {
    seq(|ts|, i requires 0 <= i < |ts| => ts[i].message)
  }

  /** `handleError(error)`: every toast is an error toast; with a `meta`, the
      flattened field errors when `errors` has keys, else the meta message if
      truthy, else nothing; without a `meta`, exactly one toast with the
      error's own message or the fallback. */
  function HandleError(e: ApiError): (r: seq<Toast>)
    ensures forall i :: 0 <= i < |r| ==> r[i].color == "error"
    ensures ErrorMeta(e).None? ==>
      r == [Toast("error", if Present(e.message) then e.message.value else FallbackMessage)]
    ensures ErrorMeta(e).Some? && |ErrorMeta(e).value.errors| > 0 ==>
      Messages(r) == Flatten(ErrorMeta(e).value.errors)
    ensures ErrorMeta(e).Some? && |ErrorMeta(e).value.errors| == 0 ==>
      r == (if Present(ErrorMeta(e).value.message) then [Toast("error", ErrorMeta(e).value.message.value)] else [])
  {
    match ErrorMeta(e)
    case None =>
      [Toast("error", if Present(e.message) then e.message.value else FallbackMessage)]
    case Some(meta) =>
      if |meta.errors| > 0 then ErrorToasts(Flatten(meta.errors))
      else if Present(meta.message) then [Toast("error", meta.message.value)]
      else []
  }

  /** The error handler is silent exactly when a `meta` is present and
      neither branch finds anything: `errors` has keys whose lists are all
      empty, or `errors` is empty and the message is falsy. */
  lemma HandleErrorSilent(e: ApiError)
    ensures HandleError(e) == [] <==>
      && ErrorMeta(e).Some?
      && (forall i :: 0 <= i < |ErrorMeta(e).value.errors| ==> ErrorMeta(e).value.errors[i].1 == [])
      && (|ErrorMeta(e).value.errors| > 0 || !Present(ErrorMeta(e).value.message))
  {
    if ErrorMeta(e).Some? {
      var meta := ErrorMeta(e).value;
      FlattenEmpty(meta.errors);
      if |meta.errors| > 0 {
        assert |HandleError(e)| == |Flatten(meta.errors)|;
      }
    }
  }

  /** The call `request` makes: a POST to the proxy route with the merged
      headers and the body `{ endPoint, options }`. */
  datatype ProxyCall = ProxyCall(path: string, verb: string, headers: HeaderRecord, body: ProxyBody)

  /** How the call to the proxy settled. */
  datatype Settled = Resolved(response: Body) | Failed(error: ApiError)

  /** What `request` hands back to its caller: the response, or the same error
      re-raised. */
  datatype Completion = Returned(response: Body) | Raised(error: ApiError)

  /** The call `request(endpoint, options)` makes with the stored token
      `token`: a POST to the proxy route, the caller's headers over the
      defaults, and the body `{ endPoint, options }` with the options whole. */
  function RequestCall(endpoint: string, options: FetchOptions, token: Option<string>): (c: ProxyCall)
    ensures c.path == ProxyPath && c.verb == "POST"
    ensures c.headers == RequestHeaders(token, options.headers)
    ensures c.body.endPoint == Some(endpoint) && c.body.options == Some(options)
  {
    ProxyCall(ProxyPath, "POST", RequestHeaders(token, options.headers), ProxyBody(Some(endpoint), Some(options)))
  }

  /** `request(endpoint, options)` given the network outcome: the toasts
      shown and the completion. A response is returned unchanged after the
      success handler; a failure is re-raised unchanged after the error
      handler. */
  function Settle(outcome: Settled): (r: (seq<Toast>, Completion))
    ensures outcome.Resolved? ==> r == (HandleSuccess(outcome.response), Returned(outcome.response))
    ensures outcome.Failed? ==> r == (HandleError(outcome.error), Raised(outcome.error))
    ensures forall i :: 0 <= i < |r.0| ==> r.0[i].color == (if outcome.Resolved? then "success" else "error")
  {
    match outcome
    case Resolved(response) => (HandleSuccess(response), Returned(response))
    case Failed(error) => (HandleError(error), Raised(error))
  }

  /** `get(endpoint, params)` */
  function GetOptions(params: Json): (o: FetchOptions)
    ensures o.verb == Some("GET") && o.params == Some(params) && o.body.None? && o.headers.None?
  {
    FetchOptions(Some("GET"), None, None, Some(params))
  }

  /** `post(endpoint, data)` */
  function PostOptions(data: Json): (o: FetchOptions)
    ensures o.verb == Some("POST") && o.body == Some(data) && o.params.None? && o.headers.None?
  {
    FetchOptions(Some("POST"), None, Some(data), None)
  }

  /** `put(endpoint, data)` */
  function PutOptions(data: Json): (o: FetchOptions)
    ensures o.verb == Some("PUT") && o.body == Some(data) && o.params.None? && o.headers.None?
  {
    FetchOptions(Some("PUT"), None, Some(data), None)
  }

  /** `delete(endpoint)` */
  function DeleteOptions(): (o: FetchOptions)
    ensures o.verb == Some("DELETE") && o.body.None? && o.params.None? && o.headers.None?
  {
    FetchOptions(Some("DELETE"), None, None, None)
  }

  /** The verb helpers fix the method and place their argument: `get` in
      `params`, `post` and `put` in `body`, `delete` nowhere; none of them
      adds caller headers, so the request headers are the defaults. */
  lemma VerbPlacement(payload: Json, token: Option<string>)
    ensures GetOptions(payload).verb == Some("GET") && GetOptions(payload).params == Some(payload)
         && GetOptions(payload).body.None?
    ensures PostOptions(payload).verb == Some("POST") && PostOptions(payload).body == Some(payload)
         && PostOptions(payload).params.None?
    ensures PutOptions(payload).verb == Some("PUT") && PutOptions(payload).body == Some(payload)
         && PutOptions(payload).params.None?
    ensures DeleteOptions().verb == Some("DELETE") && DeleteOptions().body.None? && DeleteOptions().params.None?
    ensures forall o :: o in {GetOptions(payload), PostOptions(payload), PutOptions(payload), DeleteOptions()} ==>
      RequestHeaders(token, o.headers) == SetHeader(token)
  {
  }
}
