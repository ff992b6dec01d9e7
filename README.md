# Nuxt admin client: request proxy and session store, modelled in Dafny

This project models the core of a thin Nuxt admin client. The browser never
calls the real backend. It posts `{ endPoint, options }` to a same-origin
proxy route, and that route forwards the call with a bearer token and relays
the status and body back. Around the proxy sit these parts:

- two client helpers (`ApiService` and `apiRequest`) that build headers and
  request bodies, and turn the backend's envelope `{ meta: { status, message,
  errors }, data }` into toasts or stored error messages;
- the auth store, a state machine over the token, the profile, the OTP and
  password-reset forms and a countdown timer;
- the route guard;
- the query-watching composable.

The files, one module each:

| file | module | models |
|---|---|---|
| js_values.dfy | JsValues | optional properties, JSON payloads, JavaScript truthiness, the request `options` and proxy body records |
| envelope.dfy | Envelope | the response envelope, raised errors, flattening of `meta.errors` |
| api_service.dfy | ApiService | utils/ApiService.js |
| core_store.dfy | Core | the `auth_token` cookie slot and `errors` of stores/core.js, as a class |
| api_request.dfy | ApiRequest | utils/apiRequest.js |
| handle_request.dfy | HandleRequest | server/api/handleRequest.js |
| auth_session.dfy | AuthSession | stores/auth.js: one function per action from old session to new, and the lemmas about them |
| auth_store.dfy | AuthStore | stores/auth.js: the store as a class whose methods update its fields in place, each proved to follow its AuthSession function |
| route_guard.dfy | RouteGuard | middleware/auth.js |
| watch_query.dfy | WatchQuery | composables/useWatchQuery.js |
| integration.dfy | Integration | what the proxy does with each helper's bodies, and what the guard does after the session actions |

The model replaces external effects with explicit inputs and outputs:

- Network calls become explicit outcome parameters: the backend's verdict, an
  upstream answer or failure, or a `useFetch` result.
- Toasts become a returned sequence of `(colour, message)` pairs.
- `navigateTo` becomes a log of target paths.
- `setInterval` gives numbered handles. The set of still-running intervals is
  part of the state, and one firing of an interval is the `Tick` action.
- The proxy's configured backend base URL and its inbound `authorization`
  header are parameters.

JavaScript `undefined` and `null` are both `None`. A string property counts as
truthy when it is present and non-empty. Every `method` property is called
`verb`, because `method` is a Dafny keyword. Interval handles are numbered
from 1, as browsers do, so a stored handle is always truthy.

### Behaviour worth knowing

- **Proxy input.** The route reads only `endPoint` and `options` from a
  posted body. `apiRequest` sends `{ url, options }`, or no body at all
  with a `query` for a GET, so none of its calls is ever forwarded upstream
  (`Integration.ApiRequestCallsRejected`).
- **Countdown.** `startTimer` does not clear an earlier interval. A second
  successful `sendOtp` leaves two intervals decrementing the same timer. At
  zero, the older interval clears only the newer handle, and so does
  `resetOtpState`, so the older one is never cleared
  (`AuthSession.RepeatedSendLeaksCountdown`,
  `AuthSession.ResetAfterRepeatedSendLeaks`).
- **Logout.** `logout` leaves the OTP and password fields as they were
  (`AuthSession.Logout` ensures `SameForm`).
- **Authentication without a token.** `checkAuth` marks the store
  authenticated with whatever the cookie holds, possibly nothing, so
  "authenticated implies a token" does not hold
  (`AuthSession.AuthenticatedWithoutToken`). The converse, "a token implies
  authenticated", is part of `AuthSession.Valid` and every action preserves it.
- **Error handler fallback.** `handleError` shows nothing at all when a
  `meta` is present but yields no message (`ApiService.HandleErrorSilent`).
  With a `meta`, only `handleGlobalError` falls back to the generic message
  (`ApiRequest.StoredMatchesToasts`).

## Model

| member | source | states |
|---|---|---|
| Envelope.Flatten | utils/ApiService.js:40 | no fields give no messages; otherwise the first field's messages lead the list |
| Envelope.FlattenAppend | utils/ApiService.js:40 | flattening `meta.errors` keeps field order: the messages of earlier fields come first |
| Envelope.FlattenMembers | utils/apiRequest.js:57 | a message appears in the flattened list exactly when some field lists it |
| Envelope.FlattenEmpty | utils/apiRequest.js:55-67 | the flattened list is empty exactly when every field's list is empty, even if `errors` has keys |
| ApiService.SetHeader | utils/ApiService.js:8-15 | `Accept` is always `application/json`; `Authorization` is `Bearer <token>` if and only if the token is truthy, otherwise the key is undefined |
| ApiService.RequestHeaders | utils/ApiService.js:67 | every caller header overrides the default of the same name; defaults the caller does not name are kept |
| ApiService.HandleSuccess | utils/ApiService.js:21-28 | at most one toast. It is a success toast with the meta message, shown if and only if status is exactly true, the message is truthy and it is not "Done!" or "Done" |
| ApiService.ErrorToasts | utils/ApiService.js:40-42 | one error toast per message, in order |
| ApiService.HandleError | utils/ApiService.js:34-52 | all toasts are error toasts. With `meta` and keyed `errors`: the toast texts are the flattened field errors, in order. With `meta`, no keys and a truthy message: exactly that one toast; otherwise none. Without `meta`: exactly one toast with the error's message or "An unexpected error occurred." |
| ApiService.HandleErrorSilent | utils/ApiService.js:37-47 | the handler shows nothing if and only if `meta` is present and neither branch finds a message |
| ApiService.RequestCall | utils/ApiService.js:60-69 | `request` POSTs to `/api/handleRequest` with the merged headers and the body `{endPoint, options}`, the options passed whole |
| ApiService.Settle | utils/ApiService.js:70-76 | a response is returned unchanged after the success toasts; a failure is re-raised unchanged after the error toasts |
| ApiService.GetOptions | utils/ApiService.js:85-87 | `get` sends method GET with its argument as `params`, no body and no caller headers |
| ApiService.PostOptions | utils/ApiService.js:95-97 | `post` sends method POST with its argument as `body`, no params and no caller headers |
| ApiService.PutOptions | utils/ApiService.js:105-107 | `put` sends method PUT with its argument as `body`, no params and no caller headers |
| ApiService.DeleteOptions | utils/ApiService.js:114-116 | `delete` sends method DELETE with no body, no params and no caller headers |
| ApiService.VerbPlacement | utils/ApiService.js:85-116 | `get` puts params in `params` with GET; `post`/`put` put data in `body`; `delete` carries neither; none adds caller headers |
| Core.CoreStore.constructor | stores/core.js:5-31 | the store starts with the browser's cookie as its token. `errors` is not declared in the store and starts undefined; the model starts it as `[]`, since `handleGlobalError` resets it before anything reads it |
| Core.CoreStore.GetToken | stores/core.js:9-11 | reading returns the last value saved |
| Core.CoreStore.SaveToken | stores/core.js:13-20 | saving replaces the cookie value |
| Core.CoreStore.DestroyToken | stores/core.js:22-24 | destroying sets the cookie to null |
| ApiRequest.MergedHeaders | utils/apiRequest.js:14-18 | the header keys are `Accept`, `Authorization` and the caller's; every caller header overrides the default |
| ApiRequest.SameHeadersAsApiService | utils/apiRequest.js:14-18 | `apiRequest`'s headers equal `ApiService`'s merge for every token and caller. `Accept` defaults unless overridden; without a caller `Authorization`, a Bearer value is present if and only if the token is truthy |
| ApiRequest.FetchCallFor | utils/apiRequest.js:21-27 | the method is the caller's truthy method or GET. `query = {url}` if and only if the caller's method is "GET", otherwise `body = {url, options}`, so exactly one of them is set. Params pass through and the headers are the merged ones |
| ApiRequest.OmittedMethodSendsBody | utils/apiRequest.js:23-26 | with no method, the call goes out as GET yet carries the `{url, options}` body and no query |
| ApiRequest.ErrorMessages | utils/apiRequest.js:48-67 | the list is never empty. A non-empty flattening of keyed `errors` is the list; with no keys, a truthy message gives exactly `[message]`; otherwise the list is the fallback |
| ApiRequest.StoredMatchesToasts | utils/apiRequest.js:52-67 | with `meta`: the stored messages equal the toast texts whenever `handleError` shows any, and are the fallback when it shows none. Without `meta`: the fallback, whatever the error's own message |
| ApiRequest.HandleGlobalError | utils/apiRequest.js:45-71 | afterwards the store's `errors` are exactly the computed messages; earlier contents are discarded |
| ApiRequest.Request | utils/apiRequest.js:11-38 | returns `{data, error}` as settled; a thrown error gives `{data: null, error: e}`. The store's errors are rewritten exactly when an error surfaced |
| HandleRequest.Accepts | server/api/handleRequest.js:8 | a body is usable exactly when it is present, `endPoint` is a non-empty string and `options` is present |
| HandleRequest.ForwardHeaders | server/api/handleRequest.js:18-28 | a truthy caller `Authorization` is kept unchanged. Otherwise a truthy inbound header is copied verbatim. Otherwise nothing is added. No other header changes |
| HandleRequest.Relay | server/api/handleRequest.js:36-47 | an upstream answer's status and body are relayed unchanged. On failure: the upstream status, or 500 when it is absent or 0; the upstream body, or `{message: "An unexpected error occurred."}` when it is falsy |
| HandleRequest.Handle | server/api/handleRequest.js:8-46 | 400 with no outgoing request if and only if the body, `endPoint` or `options` is missing or falsy. Otherwise the target is `baseURL + endPoint` and the outgoing options are the caller's with only `headers` replaced |
| HandleRequest.RelayVerbatim | server/api/handleRequest.js:41-46 | an accepted request relays the upstream status and body; a failure with a non-zero status relays that status and any truthy body; a transport failure without status or body gives 500 and the fallback body |
| HandleRequest.HandleEvent | server/api/handleRequest.js:1-48 | the handler, with the header copy updated in place, returns what `Handle` specifies and assigns the relayed status to the response; a rejected request leaves the status alone |
| AuthSession.Initial | stores/auth.js:9-29 | the store starts unauthenticated with no token, the cookie it finds, the blank profile, empty form fields, step 1, timer 0, no interval and no navigation |
| AuthSession.InitialValid | stores/auth.js:9-29 | the initial store is unauthenticated, runs no interval and satisfies the store invariant |
| AuthSession.StartTimer | stores/auth.js:32-38 | the timer is 120 and a new interval runs alongside any earlier one, so the number of running intervals grows by one; phone, code, `otpSent`, password, confirmation, step and authentication are unchanged |
| AuthSession.ClearInterval | stores/auth.js:44 | only the last stored handle leaves the running set; nothing else changes |
| AuthSession.Tick | stores/auth.js:34-37 | a running interval decrements a positive timer by one, otherwise clears the stored handle; a cleared interval changes nothing; the timer never goes negative and the invariant is kept |
| AuthSession.ResetOtpState | stores/auth.js:40-45 | `otpSent` is false, `otpCode` is "" and `timer` is 0. The stored interval, if any, stops running, and no other interval does. Phone, password, confirmation, step, the stored handle and authentication are unchanged |
| AuthSession.ResetFormState | stores/auth.js:47-56 | phone, code, password and confirmation are "", `otpSent` is false, step is 1 and timer is 0. The stored interval, if any, stops running, and no other interval does. The stored handle and authentication are unchanged |
| AuthSession.OtpRequest | stores/auth.js:61 | `sendOtp` POSTs `{mobile}` with the phone number to `/login-register` |
| AuthSession.SendOtp | stores/auth.js:59-67 | success sets `otpSent` and the timer to 120, starts a new interval next to any running one, stores its handle, and keeps phone, code, password, confirmation and step; failure changes nothing |
| AuthSession.OtpLoginRequest | stores/auth.js:71 | `handleLogin` POSTs `{mobile, code}` to `/otp` |
| AuthSession.PasswordLoginRequest | stores/auth.js:82 | `loginWithPassword` POSTs `{mobile, password}` to `/login` |
| AuthSession.SetAuthData | stores/auth.js:136-141 | token and profile are the arguments and the store is authenticated; cookie, navigations and the form fields are unchanged, and the invariant is kept |
| AuthSession.Login | stores/auth.js:69-89 | with response `data`: cookie and token are `data.token`, authenticated, profile is `data.user`, and one navigation to "/". A rejection, or a body without `data`, changes nothing. Form fields are never touched |
| AuthSession.ForgotPasswordRequest | stores/auth.js:93 | `sendForgotPasswordOtp` POSTs `{mobile}` to `/password/forgot` |
| AuthSession.SendForgotPasswordOtp | stores/auth.js:91-100 | success sets `otpSent`, step 2 and timer 120, starts a new interval next to any running one and stores its handle; phone, code, password and confirmation are unchanged. Failure changes nothing |
| AuthSession.ResetPasswordRequest | stores/auth.js:104-109 | `resetPassword` POSTs mobile, the OTP code as `token`, password and `password_confirmation` to `/password/reset` |
| AuthSession.ResetPassword | stores/auth.js:102-114 | success has exactly the effect of `resetFormState`; failure changes nothing |
| AuthSession.Logout | stores/auth.js:116-122 | from any state: no cookie, no token, not authenticated, no profile, one navigation to "/auth/login"; OTP and form fields untouched |
| AuthSession.CheckTokenRequest | stores/auth.js:126 | `checkAuth` GETs `/check-token` with no payload |
| AuthSession.CheckAuth | stores/auth.js:124-133 | with response `data`: authenticated, token from the cookie, profile is `data.user` or `{}`; form fields are untouched |
| AuthSession.CheckAuthFailureIsLogout | stores/auth.js:124-133 | a rejected check, or a body without `data`, has exactly the effect of `logout` |
| AuthSession.LogoutFromAnyState | stores/auth.js:116-122 | logout always yields an anonymous session; logging out again changes only the navigation log |
| AuthSession.ResetPasswordIsFormReset | stores/auth.js:102-114 | a successful reset equals `resetFormState`, and resetting the form twice equals resetting once, apart from the intervals |
| AuthSession.AuthenticatedWithoutToken | stores/auth.js:124-129 | a check the backend accepts while the cookie is empty leaves the store authenticated with no token |
| AuthSession.CountdownRunsDown | stores/auth.js:32-37 | with one interval running, each firing lowers the timer by one down to 0, and the next firing clears the interval |
| AuthSession.RepeatedSendLeaksCountdown | stores/auth.js:32-38 | two successful `sendOtp` calls leave two intervals running; both decrement the timer, and at 0 the older one clears only the newer |
| AuthSession.ResetAfterRepeatedSendLeaks | stores/auth.js:40-45 | after two successful sends, `resetOtpState` clears only the newer interval; the older one keeps running |
| AuthSession.OtpLoginScenario | stores/auth.js:59-78 | send OTP, then log in with token t: the countdown shows 120 after sending; afterwards cookie and token hold t, the store is authenticated, and "/" was navigated to exactly once |
| AuthStore.AuthStore.constructor | stores/auth.js:8-29 | the store's fields start as the initial session |
| AuthStore.AuthStore.SetInterval | stores/auth.js:34 | a fresh handle is returned and its interval runs |
| AuthStore.AuthStore.ClearStoredInterval | stores/auth.js:44 | the state changes as `ClearInterval` says |
| AuthStore.AuthStore.StartTimer | stores/auth.js:32-38 | the state changes as `StartTimer` says |
| AuthStore.AuthStore.Tick | stores/auth.js:34-37 | the state changes as `Tick` says |
| AuthStore.AuthStore.ResetOtpState | stores/auth.js:40-45 | the state changes as `ResetOtpState` says |
| AuthStore.AuthStore.ResetFormState | stores/auth.js:47-56 | the state changes as `ResetFormState` says |
| AuthStore.AuthStore.SendOtp | stores/auth.js:59-67 | posts `{mobile}` to `/login-register`; the state changes as `SendOtp` says |
| AuthStore.AuthStore.SetAuthData | stores/auth.js:136-141 | token, authenticated and profile are set from the arguments |
| AuthStore.AuthStore.CompleteLogin | stores/auth.js:72-74 | the cookie is written through the core store; the state changes as `Login` says |
| AuthStore.AuthStore.HandleLogin | stores/auth.js:69-78 | posts `{mobile, code}` to `/otp`; the state changes as `Login` says |
| AuthStore.AuthStore.LoginWithPassword | stores/auth.js:80-89 | posts `{mobile, password}` to `/login`; the state changes as `Login` says |
| AuthStore.AuthStore.SendForgotPasswordOtp | stores/auth.js:91-100 | posts `{mobile}` to `/password/forgot`; the state changes as `SendForgotPasswordOtp` says |
| AuthStore.AuthStore.ResetPassword | stores/auth.js:102-114 | posts mobile, token, password and confirmation to `/password/reset`; the state changes as `ResetPassword` says |
| AuthStore.AuthStore.Logout | stores/auth.js:116-122 | the cookie is destroyed; the state changes as `Logout` says |
| AuthStore.AuthStore.CheckAuth | stores/auth.js:124-133 | GETs `/check-token`; the state changes as `CheckAuth` says, including the partial update before a missing `data` throws |
| RouteGuard.Guard | middleware/auth.js:3-14 | never redirects on the server. An unauthenticated visit to any route but 'auth-login' goes to "/auth/login"; an authenticated visit to 'auth-login' goes to "/". Every other case: no redirect |
| RouteGuard.RedirectSettles | middleware/auth.js:7-13 | following a redirect never triggers another one for the same authentication status |
| WatchQuery.Filtered | composables/useWatchQuery.js:7-25 | no ignored key remains. With `watchOnly` non-empty, only those keys remain, so a key in both lists is dropped. Retained keys keep their values, and every key the lists allow is retained |
| WatchQuery.FilterUnconfigured | composables/useWatchQuery.js:8-24 | with both lists empty the result is the route query itself |
| WatchQuery.GetQuery | composables/useWatchQuery.js:7-25 | deleting each ignored key from a copy, then filtering by `watchOnly`, computes `Filtered` |
| WatchQuery.Notifications | composables/useWatchQuery.js:28-36 | `onChange` is called only with a new filtered query that differs from the old, at most once per route change |
| WatchQuery.ChangeReachesOnChange | composables/useWatchQuery.js:30-34 | a route change calls `onChange(new, old)` with the filtered queries if and only if they differ |
| WatchQuery.NotificationsAreTheChanges | composables/useWatchQuery.js:28-36 | over a sequence of route queries, every call is a change of the filtered query between consecutive queries, and every such change is a call |
| WatchQuery.UnwatchedChangesAreSilent | composables/useWatchQuery.js:10-33 | route changes confined to ignored or unwatched keys never reach `onChange` |
| Integration.ApiServiceRequestsForwarded | server/api/handleRequest.js:8-34 | the proxy rejects an `ApiService` request if and only if its endpoint is empty; otherwise it forwards to base + endpoint with the caller's options |
| Integration.VerbsForwarded | utils/ApiService.js:85-116 | upstream, `get` carries its params, `post`/`put` their data and `delete` neither; the only forwarded header is the inbound `authorization` when truthy |
| Integration.ApiRequestCallsRejected | utils/apiRequest.js:21-27 | with `readBody` giving no body for a GET, the proxy answers every `apiRequest` call with its 400, so none is ever forwarded upstream |
| Integration.GuardAfterLogout | middleware/auth.js:7-9 | after logout, or a failed token check, every route but the login page redirects to the login page |
| Integration.GuardAfterLogin | middleware/auth.js:11-13 | after an accepted login, the last navigation is "/"; the guard turns the login page away to "/" and lets every other route through |

## Left out

- Network I/O (`$fetch`, `$fetch.raw`, `useFetch`, `readBody`, `getHeader`, `createError`) becomes explicit inputs and outcomes. The 400 is a returned value rather than a thrown error.
- The transport of the client's headers is not modelled: which headers reach the proxy as its inbound `authorization`, and how the fetch library sends a header whose value is `undefined`. The inbound header is a parameter of the proxy model.
- `getHeader` matches header names case-insensitively; the model receives the inbound header's value directly. The caller's `options.headers.Authorization` is matched case-sensitively, as in the code.
- async/await interleaving, double submission, and the timing of `setInterval` and `watchDebounced`. Ticks are explicit actions, and the watcher sees a sequence of route queries.
- `console.log` / `console.error`, the toast library behind `showToast`, and `navigateTo` beyond recording the target path.
- Cookie attributes (`path`, `sameSite`, `secure`, `NODE_ENV`) and runtime configuration. The backend base URL is an opaque parameter.
- The store's `loading` ref is declared but never written by any action, so it is not modelled.
- `refresh` in `apiRequest`'s result is not modelled.
- The auth actions' toasts are not part of the auth model: each action receives its call's outcome after `ApiService` has interpreted it.
- Non-object response bodies are not modelled. A null response makes `handleSuccess` throw a runtime `TypeError` whose text is not modelled.
- Values of unexpected JSON types are not modelled: a non-array field in `meta.errors`, a non-boolean `status`, a non-string message, a truthy non-object `options`, and spreading a string or array.
- Only integer numbers are modelled.
- Maps compare structurally, so `JSON.stringify` key order in the change check is not modelled.
- `route.query` values are a type parameter.
- Route names are strings or absent; Nuxt's naming of pages (`auth-login`, `index`) is taken as given.
- The route reads an `apiRequest` GET, which carries only a `query`, as having no body. Two framework behaviours are not modelled: whether `readBody` throws on such a request instead, and whether `fetch` refuses a GET that carries a body, as `apiRequest` builds when the method is omitted. Either way, no such call reaches the backend.
