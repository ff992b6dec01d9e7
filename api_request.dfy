/** The second client helper, `apiRequest` (utils/apiRequest.js): header merge,
    placement of the target url in `query` or `body`, and `handleGlobalError`,
    which overwrites the core store's `errors`. The `useFetch` call is an
    explicit outcome. */
module ApiRequest {
  import opened JsValues
  import opened Envelope
  import opened Core
  import ApiService

  /** The merged headers of `apiRequest`: `Accept`, a Bearer `Authorization`
      when the token is truthy (else `undefined`), then the caller's headers. */
  function MergedHeaders(token: Option<string>, caller: Option<Headers>): (h: ApiService.HeaderRecord)
    ensures h.Keys == {"Accept", "Authorization"} + (if caller.Some? then caller.value.Keys else {})
    ensures caller.Some? ==> forall k :: k in caller.value ==> h[k] == Some(caller.value[k])
  {
    var defaults := map["Accept" := Some("application/json"),
                        "Authorization" := if Present(token) then Some("Bearer " + token.value) else None];
    if caller.None? then defaults else defaults + map k | k in caller.value :: Some(caller.value[k])
  }

  /** The two client helpers build their headers alike: defaults from the
      token, overridden key by key by the caller's headers. */
  lemma SameHeadersAsApiService(token: Option<string>, caller: Option<Headers>)
    ensures MergedHeaders(token, caller) == ApiService.RequestHeaders(token, caller)
    ensures MergedHeaders(token, caller)["Accept"] ==
      (if caller.Some? && "Accept" in caller.value then Some(caller.value["Accept"]) else Some("application/json"))
    ensures caller.None? || "Authorization" !in caller.value ==>
      (MergedHeaders(token, caller)["Authorization"].Some? <==> Present(token))
  {
  }

  /** The body of a non-GET call: `{ url, options }`. */
  datatype UrlBody = UrlBody(url: string, options: FetchOptions)

  /** The options handed to `useFetch("/api/handleRequest", ...)`: the
      caller's options spread, then `method`, `headers`, `query`, `body`. */
  datatype UseFetchCall = UseFetchCall(
    path: string,
    verb: string,
    headers: ApiService.HeaderRecord,
    query: Option<string>,
    body: Option<UrlBody>,
    params: Option<Json>)

  /** The call `apiRequest(url, options)` makes. `query` is `{ url }` exactly
      when the caller's `method` is the string "GET"; otherwise the body is
      `{ url, options }`, even though the method then defaults to GET. */
  function FetchCallFor(url: string, options: FetchOptions, token: Option<string>): (c: UseFetchCall)
    ensures c.path == ApiService.ProxyPath
    ensures c.verb == if Present(options.verb) then options.verb.value else "GET"
    ensures c.headers == MergedHeaders(token, options.headers)
    ensures c.query.Some? <==> options.verb == Some("GET")
    ensures c.query.Some? != c.body.Some?
    ensures c.query.Some? ==> c.query.value == url
    ensures c.body.Some? ==> c.body.value == UrlBody(url, options)
    ensures c.params == options.params
  {
    UseFetchCall(
      ApiService.ProxyPath,
      if Present(options.verb) then options.verb.value else "GET",
      MergedHeaders(token, options.headers),
      if options.verb == Some("GET") then Some(url) else None,
      if options.verb != Some("GET") then Some(UrlBody(url, options)) else None,
      options.params)
  }

  /** Without a `method`, the request goes out as a GET that nevertheless
      carries the `{ url, options }` body and no `query`. */
  lemma OmittedMethodSendsBody(url: string, options: FetchOptions, token: Option<string>)
    requires options.verb.None?
    ensures FetchCallFor(url, options, token).verb == "GET"
    ensures FetchCallFor(url, options, token).body == Some(UrlBody(url, options))
    ensures FetchCallFor(url, options, token).query.None?
  {
  }

  /** The messages `handleGlobalError(error)` stores: the flattened field
      errors when `meta.errors` has keys, else the truthy meta message, and
      the fallback message whenever that leaves nothing. */
  function ErrorMessages(e: ApiError): (msgs: seq<string>)
    ensures |msgs| > 0
    ensures ErrorMeta(e).Some? && Flatten(ErrorMeta(e).value.errors) != [] ==>
      msgs == Flatten(ErrorMeta(e).value.errors)
    ensures ErrorMeta(e).Some? && |ErrorMeta(e).value.errors| == 0 && Present(ErrorMeta(e).value.message) ==>
      msgs == [ErrorMeta(e).value.message.value]
    ensures ErrorMeta(e).None? ==> msgs == [FallbackMessage]
    ensures (&& ErrorMeta(e).Some? && Flatten(ErrorMeta(e).value.errors) == []
             && (|ErrorMeta(e).value.errors| > 0 || !Present(ErrorMeta(e).value.message))) ==>
      msgs == [FallbackMessage]
  {
    var found :=
      match ErrorMeta(e)
      case None => []
      case Some(meta) =>
        if |meta.errors| > 0 then Flatten(meta.errors)
        else if Present(meta.message) then [meta.message.value]
        else [];
    if found == [] then [FallbackMessage] else found
  }

  /** What the store keeps and what the toast handler shows agree whenever
      the toast handler shows something for a `meta`; where it shows nothing,
      the store holds the fallback; and without a `meta` the store holds the
      fallback even when the toast shows the error's own message. */
  lemma {:induction false} StoredMatchesToasts(e: ApiError)
    ensures ErrorMeta(e).Some? && ApiService.HandleError(e) != [] ==>
      ErrorMessages(e) == ApiService.Messages(ApiService.HandleError(e))
    ensures ErrorMeta(e).Some? && ApiService.HandleError(e) == [] ==> ErrorMessages(e) == [FallbackMessage]
    ensures ErrorMeta(e).None? ==> ErrorMessages(e) == [FallbackMessage]
  {
    if ErrorMeta(e).Some? {
      var meta := ErrorMeta(e).value;
      if |meta.errors| > 0 {
        var toasts := ApiService.HandleError(e);
        assert ApiService.Messages(toasts) == Flatten(meta.errors);
        if toasts == [] {
          assert Flatten(meta.errors) == [];
        }
      }
    }
  }

  /** `handleGlobalError(error)`: clear the store's errors, collect the
      messages, fall back to the default, and store them. */
  method HandleGlobalError(core: CoreStore, e: ApiError)
    modifies core`errors
    ensures core.errors == ErrorMessages(e)
  {
    core.errors := [];
    var errorMessages: seq<string> := [];
    match ErrorMeta(e) {
      case None =>
      case Some(meta) =>
        if |meta.errors| > 0 {
          errorMessages := Flatten(meta.errors);
        } else if Present(meta.message) {
          errorMessages := [meta.message.value];
        }
    }
    if |errorMessages| == 0 {
      errorMessages := errorMessages + [FallbackMessage];
    }
    core.errors := core.errors + errorMessages;
  }

  /** How `useFetch` came back: settled with `data` and `error` refs, or
      threw. */
  datatype FetchOutcome = Completed(data: Option<Json>, error: Option<ApiError>) | Threw(thrown: ApiError)

  /** What `apiRequest` returns: `{ data, error }` (`refresh` is left out). */
  datatype ApiResult = ApiResult(data: Option<Json>, error: Option<ApiError>)

  /** `apiRequest(url, options)`: the call it makes, what it returns, and the
      store's errors, rewritten only when an error surfaced. */
  method Request(core: CoreStore, url: string, options: FetchOptions, outcome: FetchOutcome)
    returns (call: UseFetchCall, result: ApiResult)
    modifies core`errors
    ensures call == FetchCallFor(url, options, core.authToken)
    ensures outcome.Completed? ==> result == ApiResult(outcome.data, outcome.error)
    ensures outcome.Completed? && outcome.error.Some? ==> core.errors == ErrorMessages(outcome.error.value)
    ensures outcome.Completed? && outcome.error.None? ==> core.errors == old(core.errors)
    ensures outcome.Threw? ==> result == ApiResult(None, Some(outcome.thrown)) && core.errors == ErrorMessages(outcome.thrown)
  {
    var token := core.GetToken();
    call := FetchCallFor(url, options, token);
    match outcome {
      case Completed(data, error) =>
        if error.Some? {
          HandleGlobalError(core, error.value);
        }
        result := ApiResult(data, error);
      case Threw(thrown) =>
        HandleGlobalError(core, thrown);
        result := ApiResult(None, Some(thrown));
    }
  }
}
