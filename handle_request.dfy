/** The same-origin proxy route (server/api/handleRequest.js): validate the
    posted `{ endPoint, options }`, forward to the backend base URL with the
    caller's or the inbound `Authorization`, and relay status and body. The
    configured base URL, the inbound `authorization` header and the upstream
    outcome are parameters. */
module HandleRequest {
  import opened JsValues

  /** The body returned when the upstream error carries none. */
  const FallbackBody := JObj([("message", JStr("An unexpected error occurred."))])

  /** What the backend did with the forwarded request. */
  datatype Upstream =
    | Answered(status: int, data: Option<Json>)              // `response.status`, `response._data`
    | Failed(errorStatus: Option<int>, errorData: Option<Json>) // `error.response?.status`, `error.data`

  /** The forwarded request: target URL and fetch options. */
  datatype Outgoing = Outgoing(url: string, options: FetchOptions)

  /** The route's answer: a 400 raised before any upstream call, or the
      forwarded request with the status and body relayed back. */
  datatype Reply =
    | BadRequest(statusCode: int, statusMessage: string)
    | Relayed(sent: Outgoing, statusCode: int, body: Option<Json>)

  /** The posted body is usable: present, with a truthy `endPoint` and `options`. */
  predicate Accepts(body: Option<ProxyBody>): (ok: bool)
    ensures ok <==> body.Some? && body.value.endPoint.Some? && body.value.endPoint.value != ""
                    && body.value.options.Some?
  {
    body.Some? && Present(body.value.endPoint) && body.value.options.Some?
  }

  /** The outgoing headers: a copy of the caller's, plus the inbound
      `authorization` header when the caller's `Authorization` is falsy and
      the inbound one is truthy. */
  function ForwardHeaders(caller: Option<Headers>, inbound: Option<string>): (h: Headers)
    ensures var c := caller.GetOr(map[]);
      && (Present(Lookup(c, "Authorization")) ==> h == c)
      && (!Present(Lookup(c, "Authorization")) && Present(inbound) ==> h == c["Authorization" := inbound.value])
      && (!Present(Lookup(c, "Authorization")) && !Present(inbound) ==> h == c)
    ensures forall k :: k != "Authorization" ==> Lookup(h, k) == Lookup(caller.GetOr(map[]), k)
    ensures "Authorization" in h ==> "Authorization" in caller.GetOr(map[]) || Present(inbound)
  {
    var headers := caller.GetOr(map[]);
    if !Present(Lookup(headers, "Authorization")) && Present(inbound) then
      headers["Authorization" := inbound.value]
    else
      headers
  }

  /** The status and body sent back: the upstream's own on an answer; on a
      failure the upstream status unless absent or 0 (then 500) and the
      upstream body unless falsy (then the fallback message). */
  function Relay(up: Upstream): (r: (int, Option<Json>))
    ensures up.Answered? ==> r == (up.status, up.data)
    ensures up.Failed? ==> r.0 != 0 && TruthyOpt(r.1)
    ensures up.Failed? ==> (r.0 == 500 <==> up.errorStatus.None? || up.errorStatus.value in {0, 500})
    ensures up.Failed? && up.errorStatus.Some? && up.errorStatus.value != 0 ==> r.0 == up.errorStatus.value
    ensures up.Failed? && TruthyOpt(up.errorData) ==> r.1 == up.errorData
    ensures up.Failed? && !TruthyOpt(up.errorData) ==> r.1 == Some(FallbackBody)
  {
    match up
    case Answered(status, data) => (status, data)
    case Failed(status, data) =>
      (if status.Some? && status.value != 0 then status.value else 500,
       if TruthyOpt(data) then data else Some(FallbackBody))
  }

  /** The whole route: reject with 400 exactly when the body is unusable
      (no upstream request exists then); otherwise forward to
      `baseUrl + endPoint` with the caller's options, only `headers`
      replaced, and relay the upstream outcome. */
  function Handle(baseUrl: string, body: Option<ProxyBody>, inbound: Option<string>, up: Upstream): (r: Reply)
    ensures r.BadRequest? <==> !Accepts(body)
    ensures r.BadRequest? ==> r.statusCode == 400
    ensures r.Relayed? ==> var options := body.value.options.value;
      && r.sent.url == baseUrl + body.value.endPoint.value
      && r.sent.options == options.(headers := Some(ForwardHeaders(options.headers, inbound)))
      && (r.statusCode, r.body) == Relay(up)
  {
    if !Accepts(body) then
      BadRequest(400, "Invalid request parameters")
    else
      var params := body.value;
      var options := params.options.value;
      Relayed(Outgoing(baseUrl + params.endPoint.value,
                       options.(headers := Some(ForwardHeaders(options.headers, inbound)))),
              Relay(up).0, Relay(up).1)
  }

  /** An upstream answer is relayed verbatim; a failure carrying a non-zero
      status relays that status; a transport failure without status or body
      becomes a 500 with the fallback message. */
  lemma RelayVerbatim(baseUrl: string, body: Option<ProxyBody>, inbound: Option<string>, status: int, data: Option<Json>)
    requires Accepts(body)
    ensures var r := Handle(baseUrl, body, inbound, Failed(Some(status), data));
      r.Relayed? && (status != 0 ==> r.statusCode == status) && (TruthyOpt(data) ==> r.body == data)
    ensures var r := Handle(baseUrl, body, inbound, Answered(status, data));
      r.Relayed? && r.statusCode == status && r.body == data
    ensures var r := Handle(baseUrl, body, inbound, Failed(None, None));
      r.Relayed? && r.statusCode == 500 && r.body == Some(FallbackBody)
  {
  }

  /** The server response whose status code the handler assigns. */
  class ServerResponse {
    var statusCode: int

    constructor ()
      ensures statusCode == 200
    {
      statusCode := 200;
    }
  }

  /** The event handler, step by step: the local `headers` copy gains an
      `Authorization` in place and `event.res.statusCode` is assigned. A
      rejected request leaves the status to the framework's 400. */
  method HandleEvent(res: ServerResponse, baseUrl: string, body: Option<ProxyBody>, inbound: Option<string>, up: Upstream)
    returns (r: Reply)
    modifies res
    ensures r == Handle(baseUrl, body, inbound, up)
    ensures r.Relayed? ==> res.statusCode == r.statusCode
    ensures r.BadRequest? ==> res.statusCode == old(res.statusCode)
  {
    if body.None? || !Present(body.value.endPoint) || body.value.options.None? {
      return BadRequest(400, "Invalid request parameters");
    }
    var postParams := body.value;
    var url := baseUrl + postParams.endPoint.value;
    var headers := postParams.options.value.headers.GetOr(map[]);
    if !Present(Lookup(headers, "Authorization")) {
      if Present(inbound) {
        headers := headers["Authorization" := inbound.value];
      }
    }
    var fetchOptions := postParams.options.value.(headers := Some(headers));
    match up {
      case Answered(status, data) =>
        res.statusCode := status;
        r := Relayed(Outgoing(url, fetchOptions), status, data);
      case Failed(status, data) =>
        res.statusCode := if status.Some? && status.value != 0 then status.value else 500;
        r := Relayed(Outgoing(url, fetchOptions), res.statusCode, if TruthyOpt(data) then data else Some(FallbackBody));
    }
  }
}
