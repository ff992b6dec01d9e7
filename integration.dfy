/** How the pieces fit together: what the proxy route does with the bodies the
    two client helpers send, and what the route guard does after the session
    actions. */
module Integration {
  import opened JsValues
  import ApiService
  import ApiRequest
  import HandleRequest
  import AuthSession
  import RouteGuard

  /** The body `ApiService.request(endpoint, options)` posts to the proxy. */
  function ApiServiceBody(endpoint: string, options: FetchOptions, token: Option<string>): ProxyBody {
    ApiService.RequestCall(endpoint, options, token).body
  }

  /** Every `ApiService` request with a non-empty endpoint passes the proxy's
      validation and is forwarded to `baseUrl + endpoint` with the caller's
      options; an empty endpoint is rejected with 400. */
  lemma ApiServiceRequestsForwarded(endpoint: string, options: FetchOptions, token: Option<string>,
                                    baseUrl: string, inbound: Option<string>, up: HandleRequest.Upstream)
    ensures var r := HandleRequest.Handle(baseUrl, Some(ApiServiceBody(endpoint, options, token)), inbound, up);
      && (r.BadRequest? <==> endpoint == "")
      && (r.Relayed? ==> r.sent.url == baseUrl + endpoint && r.sent.options.(headers := options.headers) == options)
  {
  }

  /** The upstream request of each verb helper: `get` forwards its params,
      `post`/`put` their body, `delete` neither; since the helpers add no
      caller headers, the only forwarded header is the proxy's inbound
      `authorization`, copied when truthy. */
  lemma {:induction false} VerbsForwarded(endpoint: string, payload: Json, token: Option<string>,
                                          baseUrl: string, inbound: Option<string>, up: HandleRequest.Upstream)
    requires endpoint != ""
    ensures var auth := if Present(inbound) then map["Authorization" := inbound.value] else map[];
      && HandleRequest.Handle(baseUrl, Some(ApiServiceBody(endpoint, ApiService.GetOptions(payload), token)), inbound, up).sent
           == HandleRequest.Outgoing(baseUrl + endpoint, FetchOptions(Some("GET"), Some(auth), None, Some(payload)))
      && HandleRequest.Handle(baseUrl, Some(ApiServiceBody(endpoint, ApiService.PostOptions(payload), token)), inbound, up).sent
           == HandleRequest.Outgoing(baseUrl + endpoint, FetchOptions(Some("POST"), Some(auth), Some(payload), None))
      && HandleRequest.Handle(baseUrl, Some(ApiServiceBody(endpoint, ApiService.PutOptions(payload), token)), inbound, up).sent
           == HandleRequest.Outgoing(baseUrl + endpoint, FetchOptions(Some("PUT"), Some(auth), Some(payload), None))
      && HandleRequest.Handle(baseUrl, Some(ApiServiceBody(endpoint, ApiService.DeleteOptions(), token)), inbound, up).sent
           == HandleRequest.Outgoing(baseUrl + endpoint, FetchOptions(Some("DELETE"), Some(auth), None, None))
  {
    var empty: Headers := map[];
    assert HandleRequest.ForwardHeaders(None, inbound) ==
      (if Present(inbound) then empty["Authorization" := inbound.value] else empty);
  }

  /** What the proxy reads from an `apiRequest` call: a GET carries no body
      at all; any other call carries `{ url, options }`, which has no
      `endPoint` property. */
  function ReceivedBody(c: ApiRequest.UseFetchCall): Option<ProxyBody> {
    if c.body.Some? then Some(ProxyBody(None, Some(c.body.value.options))) else None
  }

  /** The proxy rejects every call `apiRequest` makes with 400: it reads only
      `endPoint`, never the `url` that `apiRequest` sends. */
  lemma ApiRequestCallsRejected(url: string, options: FetchOptions, token: Option<string>,
                                baseUrl: string, inbound: Option<string>, up: HandleRequest.Upstream)
    ensures var c := ApiRequest.FetchCallFor(url, options, token);
      HandleRequest.Handle(baseUrl, ReceivedBody(c), inbound, up) == HandleRequest.BadRequest(400, "Invalid request parameters")
  {
  }

  /** After `logout()` from any state (and so after a failed token check),
      the guard sends every route but the login page to the login page. */
  lemma {:induction false} GuardAfterLogout(s: AuthSession.Session, to: Option<string>)
    ensures var r := RouteGuard.Guard(false, AuthSession.Logout(s).authenticated, to);
      r == (if to == Some(RouteGuard.LoginRoute) then None else Some(AuthSession.LoginPath))
    ensures var r := RouteGuard.Guard(false, AuthSession.CheckAuth(s, AuthSession.Rejected).authenticated, to);
      r == (if to == Some(RouteGuard.LoginRoute) then None else Some(AuthSession.LoginPath))
  {
    AuthSession.CheckAuthFailureIsLogout(s);
  }

  /** After a login the backend accepted, the guard turns the login page away
      to the home page the login navigated to, and lets every other route
      through. */
  lemma GuardAfterLogin(s: AuthSession.Session, data: AuthSession.AuthData, to: Option<string>)
    ensures var after := AuthSession.Login(s, AuthSession.Resolved(Some(data)));
      && after.navigations[|after.navigations| - 1] == RouteGuard.HomePath
      && RouteGuard.Guard(false, after.authenticated, to) ==
           (if to == Some(RouteGuard.LoginRoute) then Some(RouteGuard.HomePath) else None)
  {
  }
}
