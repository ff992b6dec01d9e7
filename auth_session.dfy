/** The auth store's behaviour (stores/auth.js) as a function per action from
    the old session to the new one. Every action that talks to the backend
    takes the backend's outcome as a parameter. `setInterval` handles are
    numbered; `running` holds the intervals the runtime still fires, and a
    tick of one of them is the action `Tick`. Navigation is recorded as the
    list of paths passed to `navigateTo`. */
module AuthSession {
  import opened JsValues

  /** A user profile object. */
  type Profile = map<string, Json>

  const CountdownSeconds := 120
  const HomePath := "/"
  const LoginPath := "/auth/login"

  /** The profile the store starts with: every field the empty string. */
  const BlankProfile: Profile := map[
    "firstname" := JStr(""), "lastname" := JStr(""), "email" := JStr(""), "mobile" := JStr(""),
    "phone" := JStr(""), "national_code" := JStr(""), "address" := JStr(""), "postal_code" := JStr("")]

  /** The `data` of a login or token-check response: `token` and `user`. */
  datatype AuthData = AuthData(token: Option<string>, user: Option<Profile>)

  /** How the backend call of an action settled: rejected (the client raised
      after its error toasts), or resolved with a body whose `data` may be
      missing. */
  datatype Reply = Rejected | Resolved(data: Option<AuthData>)

  /** A backend call an action makes: method, endpoint and payload fields. */
  datatype Call = Call(verb: string, endpoint: string, payload: seq<(string, string)>)

  datatype Session = Session(
    cookie: Option<string>,          // the `auth_token` cookie in the core store
    token: Option<string>,
    authenticated: bool,
    profile: Option<Profile>,
    phoneNumber: string,
    otpCode: string,
    otpSent: bool,
    timer: int,
    password: string,
    passwordConfirmation: string,
    forgetPasswordStep: int,
    timerInterval: Option<nat>,      // the last handle `startTimer` stored
    running: set<nat>,               // intervals not yet cleared
    nextHandle: nat,                 // the handle the next `setInterval` returns
    navigations: seq<string>)

  /** The store as created, with whatever cookie the browser already holds.
      Browsers number intervals from 1, so the first handle is truthy. */
  function Initial(cookie: Option<string>): (r: Session)
    ensures r.cookie == cookie && r.token.None? && !r.authenticated && r.profile == Some(BlankProfile)
    ensures r.phoneNumber == "" && r.otpCode == "" && !r.otpSent && r.timer == 0
    ensures r.password == "" && r.passwordConfirmation == "" && r.forgetPasswordStep == 1
    ensures r.timerInterval.None? && r.running == {} && r.navigations == []
  {
    Session(cookie, None, false, Some(BlankProfile), "", "", false, 0, "", "", 1, None, {}, 1, [])
  }

  /** What every reachable session satisfies. */
  ghost predicate Valid(s: Session) {
    && 0 <= s.timer <= CountdownSeconds
    && s.forgetPasswordStep in {1, 2}
    && (s.token.Some? ==> s.authenticated)
    && 0 < s.nextHandle
    && (forall h :: h in s.running ==> 0 < h < s.nextHandle)
    && (s.timerInterval.Some? ==> 0 < s.timerInterval.value < s.nextHandle)
    && (s.timerInterval.None? ==> s.running == {})
  }

  /** The OTP, form and countdown fields of two sessions agree. */
  ghost predicate SameForm(a: Session, b: Session) {
    && a.phoneNumber == b.phoneNumber && a.otpCode == b.otpCode && a.otpSent == b.otpSent
    && a.timer == b.timer && a.password == b.password && a.passwordConfirmation == b.passwordConfirmation
    && a.forgetPasswordStep == b.forgetPasswordStep
    && a.timerInterval == b.timerInterval && a.running == b.running && a.nextHandle == b.nextHandle
  }

  /** The authentication fields and the navigation log of two sessions agree. */
  ghost predicate SameAuth(a: Session, b: Session) {
    && a.cookie == b.cookie && a.token == b.token && a.authenticated == b.authenticated
    && a.profile == b.profile && a.navigations == b.navigations
  }

  lemma InitialValid(cookie: Option<string>)
    ensures Valid(Initial(cookie)) && !Initial(cookie).authenticated && Initial(cookie).running == {}
  {
  }

  /** `startTimer()`: the countdown restarts at 120 and a new interval starts;
      an interval started earlier is not cleared and keeps running. */
  function StartTimer(s: Session): (r: Session)
    ensures Valid(s) ==> Valid(r)
    ensures r.timer == CountdownSeconds
    ensures r.timerInterval == Some(s.nextHandle) && r.running == s.running + {s.nextHandle}
    ensures Valid(s) ==> s.nextHandle !in s.running && |r.running| == |s.running| + 1
    ensures r.phoneNumber == s.phoneNumber && r.otpCode == s.otpCode && r.otpSent == s.otpSent
    ensures r.password == s.password && r.passwordConfirmation == s.passwordConfirmation
    ensures r.forgetPasswordStep == s.forgetPasswordStep
    ensures SameAuth(s, r)
  {
    s.(timer := CountdownSeconds, timerInterval := Some(s.nextHandle),
       running := s.running + {s.nextHandle}, nextHandle := s.nextHandle + 1)
  }

  /** `if (timerInterval) clearInterval(timerInterval)`: only the last stored
      handle is cleared, and nothing else changes. */
  function ClearInterval(s: Session): (r: Session)
    ensures Valid(s) ==> Valid(r)
    ensures s.timerInterval.Some? ==> r == s.(running := s.running - {s.timerInterval.value})
    ensures s.timerInterval.None? ==> r == s
  {
    if s.timerInterval.Some? then s.(running := s.running - {s.timerInterval.value}) else s
  }

  /** One firing of interval `h`: decrement while positive, else clear the
      last stored interval (which need not be `h`). A cleared interval never
      fires. */
  function Tick(s: Session, h: nat): (r: Session)
    ensures Valid(s) ==> Valid(r)
    ensures h !in s.running ==> r == s
    ensures h in s.running && s.timer > 0 ==> r == s.(timer := s.timer - 1)
    ensures h in s.running && s.timer <= 0 ==> r == ClearInterval(s)
    ensures s.timer >= 0 ==> r.timer >= 0
    ensures SameAuth(s, r)
  {
    if h !in s.running then s
    else if s.timer > 0 then s.(timer := s.timer - 1)
    else ClearInterval(s)
  }

  /** `resetOtpState()`: OTP fields cleared, countdown stopped; phone,
      password, step and authentication untouched. */
  function ResetOtpState(s: Session): (r: Session)
    ensures Valid(s) ==> Valid(r)
    ensures !r.otpSent && r.otpCode == "" && r.timer == 0
    ensures r.phoneNumber == s.phoneNumber && r.password == s.password
    ensures r.passwordConfirmation == s.passwordConfirmation && r.forgetPasswordStep == s.forgetPasswordStep
    ensures s.timerInterval.Some? ==> r.running == s.running - {s.timerInterval.value}
    ensures s.timerInterval.None? ==> r.running == s.running
    ensures r.timerInterval == s.timerInterval && r.nextHandle == s.nextHandle
    ensures SameAuth(s, r)
  {
    ClearInterval(s.(otpSent := false, otpCode := "", timer := 0))
  }

  /** `resetFormState()`: every form field back to its initial value and the
      countdown stopped; authentication untouched. */
  function ResetFormState(s: Session): (r: Session)
    ensures Valid(s) ==> Valid(r)
    ensures r.phoneNumber == "" && r.otpCode == "" && r.password == "" && r.passwordConfirmation == ""
    ensures !r.otpSent && r.forgetPasswordStep == 1 && r.timer == 0
    ensures s.timerInterval.Some? ==> r.running == s.running - {s.timerInterval.value}
    ensures s.timerInterval.None? ==> r.running == s.running
    ensures r.timerInterval == s.timerInterval && r.nextHandle == s.nextHandle
    ensures SameAuth(s, r)
  {
    ClearInterval(s.(phoneNumber := "", otpCode := "", password := "", passwordConfirmation := "",
                     otpSent := false, forgetPasswordStep := 1, timer := 0))
  }

  /** The request `sendOtp` posts. */
  function OtpRequest(s: Session): (c: Call)
    ensures c.verb == "POST" && c.endpoint == "/login-register" && c.payload == [("mobile", s.phoneNumber)]
  {
    Call("POST", "/login-register", [("mobile", s.phoneNumber)])
  }

  /** `sendOtp()` with the backend's verdict `ok`. */
  function SendOtp(s: Session, ok: bool): (r: Session)
    ensures Valid(s) ==> Valid(r)
    ensures !ok ==> r == s
    ensures ok ==> r.otpSent && r.timer == CountdownSeconds && r.phoneNumber == s.phoneNumber
    ensures ok ==> r.otpCode == s.otpCode && r.password == s.password && r.forgetPasswordStep == s.forgetPasswordStep
    ensures ok ==> r.passwordConfirmation == s.passwordConfirmation
    ensures ok ==> r.timerInterval == Some(s.nextHandle) && r.running == s.running + {s.nextHandle}
    ensures SameAuth(s, r)
  {
    if ok then StartTimer(s.(otpSent := true)) else s
  }

  /** The request `handleLogin` posts. */
  function OtpLoginRequest(s: Session): (c: Call)
    ensures c.verb == "POST" && c.endpoint == "/otp"
    ensures c.payload == [("mobile", s.phoneNumber), ("code", s.otpCode)]
  {
    Call("POST", "/otp", [("mobile", s.phoneNumber), ("code", s.otpCode)])
  }

  /** The request `loginWithPassword` posts. */
  function PasswordLoginRequest(s: Session): (c: Call)
    ensures c.verb == "POST" && c.endpoint == "/login"
    ensures c.payload == [("mobile", s.phoneNumber), ("password", s.password)]
  {
    Call("POST", "/login", [("mobile", s.phoneNumber), ("password", s.password)])
  }

  /** `setAuthData(user, authToken)` */
  function SetAuthData(s: Session, user: Option<Profile>, authToken: Option<string>): (r: Session)
    ensures Valid(s) ==> Valid(r)
    ensures r.token == authToken && r.authenticated && r.profile == user
    ensures r.cookie == s.cookie && r.navigations == s.navigations && SameForm(s, r)
  {
    s.(token := authToken, authenticated := true, profile := user)
  }

  /** `handleLogin()` / `loginWithPassword()` once the backend replied: on a
      body with `data`, save `data.token` to the cookie, record it as the
      token, authenticate, take `data.user` as the profile and navigate home
      once. A rejection, or a body without `data` (reading `data.token`
      throws), changes nothing. */
  function Login(s: Session, reply: Reply): (r: Session)
    ensures Valid(s) ==> Valid(r)
    ensures reply.Rejected? || reply.data.None? ==> r == s
    ensures reply.Resolved? && reply.data.Some? ==>
      && r.cookie == reply.data.value.token && r.token == reply.data.value.token
      && r.authenticated && r.profile == reply.data.value.user
      && r.navigations == s.navigations + [HomePath]
    ensures SameForm(s, r)
  {
    match reply
    case Rejected => s
    case Resolved(None) => s
    case Resolved(Some(data)) =>
      SetAuthData(s.(cookie := data.token), data.user, data.token).(navigations := s.navigations + [HomePath])
  }

  /** The request `sendForgotPasswordOtp` posts. */
  function ForgotPasswordRequest(s: Session): (c: Call)
    ensures c.verb == "POST" && c.endpoint == "/password/forgot" && c.payload == [("mobile", s.phoneNumber)]
  {
    Call("POST", "/password/forgot", [("mobile", s.phoneNumber)])
  }

  /** `sendForgotPasswordOtp()` with the backend's verdict `ok`. */
  function SendForgotPasswordOtp(s: Session, ok: bool): (r: Session)
    ensures Valid(s) ==> Valid(r)
    ensures !ok ==> r == s
    ensures ok ==> r.otpSent && r.forgetPasswordStep == 2 && r.timer == CountdownSeconds
    ensures ok ==> r.phoneNumber == s.phoneNumber && r.otpCode == s.otpCode
    ensures ok ==> r.password == s.password && r.passwordConfirmation == s.passwordConfirmation
    ensures ok ==> r.timerInterval == Some(s.nextHandle) && r.running == s.running + {s.nextHandle}
    ensures SameAuth(s, r)
  {
    if ok then StartTimer(s.(otpSent := true, forgetPasswordStep := 2)) else s
  }

  /** The request `resetPassword` posts: the OTP code goes out as `token`. */
  function ResetPasswordRequest(s: Session): (c: Call)
    ensures c.verb == "POST" && c.endpoint == "/password/reset"
    ensures c.payload == [("mobile", s.phoneNumber), ("token", s.otpCode),
                          ("password", s.password), ("password_confirmation", s.passwordConfirmation)]
  {
    Call("POST", "/password/reset", [("mobile", s.phoneNumber), ("token", s.otpCode),
                                     ("password", s.password), ("password_confirmation", s.passwordConfirmation)])
  }

  /** `resetPassword()` with the backend's verdict `ok`. */
  function ResetPassword(s: Session, ok: bool): (r: Session)
    ensures Valid(s) ==> Valid(r)
    ensures !ok ==> r == s
    ensures ok ==> r == ResetFormState(s)
  {
    if ok then ResetFormState(s) else s
  }

  /** `logout()`: destroy the cookie, drop token, authentication and profile,
      navigate to the login page once; OTP and form fields are untouched. */
  function Logout(s: Session): (r: Session)
    ensures Valid(s) ==> Valid(r)
    ensures r.cookie.None? && r.token.None? && !r.authenticated && r.profile.None?
    ensures r.navigations == s.navigations + [LoginPath]
    ensures SameForm(s, r)
  {
    s.(cookie := None, token := None, authenticated := false, profile := None,
       navigations := s.navigations + [LoginPath])
  }

  /** The request `checkAuth` makes. */
  function CheckTokenRequest(): (c: Call)
    ensures c.verb == "GET" && c.endpoint == "/check-token" && c.payload == []
  {
    Call("GET", "/check-token", [])
  }

  /** `checkAuth()`: on a body with `data`, authenticate with the cookie's
      token and take `data.user || {}` as the profile. On a rejection,
      `logout()`. On a body without `data`, the store is first marked
      authenticated with the cookie's token, then reading `data.user` throws
      and `logout()` runs. */
  function CheckAuth(s: Session, reply: Reply): (r: Session)
    ensures Valid(s) ==> Valid(r)
    ensures reply.Resolved? && reply.data.Some? ==>
      r == s.(authenticated := true, token := s.cookie, profile := Some(reply.data.value.user.GetOr(map[])))
    ensures SameForm(s, r)
  {
    match reply
    case Rejected => Logout(s)
    case Resolved(data) =>
      var marked := s.(authenticated := true, token := s.cookie);
      if data.None? then Logout(marked) else marked.(profile := Some(data.value.user.GetOr(map[])))
  }

  // ---------------------------------------------------------------------
  // Properties relating several actions

  /** A failed token check, whether rejected by the backend or answered
      without `data`, has exactly the effect of `logout()`. */
  lemma CheckAuthFailureIsLogout(s: Session)
    ensures CheckAuth(s, Rejected) == Logout(s)
    ensures CheckAuth(s, Resolved(None)) == Logout(s)
  {
  }

  /** From any state, logging out leaves an anonymous session; a second
      logout changes nothing but the navigation log. */
  lemma LogoutFromAnyState(s: Session)
    ensures var r := Logout(s); !r.authenticated && r.token.None? && r.profile.None? && r.cookie.None?
    ensures Logout(Logout(s)) == Logout(s).(navigations := s.navigations + [LoginPath, LoginPath])
  {
  }

  /** A successful password reset has exactly the effect of `resetFormState()`,
      and resetting the form twice is the same as resetting it once. */
  lemma ResetPasswordIsFormReset(s: Session)
    ensures ResetPassword(s, true) == ResetFormState(s)
    ensures ResetFormState(ResetFormState(s)).(running := {}) == ResetFormState(s).(running := {})
  {
  }

  /** The converse of the stored invariant fails: the token check can leave
      the store authenticated with no token, when the backend accepts the
      check while the cookie is empty. */
  lemma AuthenticatedWithoutToken(s: Session)
    requires s.cookie.None?
    ensures var r := CheckAuth(s, Resolved(Some(AuthData(None, None))));
      r.authenticated && r.token.None? && r.profile == Some(map[])
  {
  }

  /** `n` firings of interval `h`, stopping early once `h` is cleared. */
  function Run(s: Session, h: nat, n: nat): Session
    decreases n
  {
    if n == 0 || h !in s.running then s else Run(Tick(s, h), h, n - 1)
  }

  /** With `h` the only running interval and the stored one, the countdown
      drops by one per firing down to 0, and the firing after that clears `h`:
      after `timer + 1` firings nothing runs and the timer reads 0. */
  lemma {:induction false} CountdownRunsDown(s: Session, h: nat, n: nat)
    requires s.running == {h} && s.timerInterval == Some(h) && s.timer >= 0
    ensures n <= s.timer ==> Run(s, h, n) == s.(timer := s.timer - n)
    ensures n > s.timer ==> Run(s, h, n) == s.(timer := 0, running := {})
    decreases n
  {
    if n > 0 {
      if s.timer > 0 {
        CountdownRunsDown(s.(timer := s.timer - 1), h, n - 1);
      } else {
        assert Tick(s, h) == s.(running := {});
        assert Run(s, h, n) == Run(s.(running := {}), h, n - 1);
      }
    }
  }

  /** Two successful `sendOtp` calls leave two intervals running, both
      decrementing the same timer; when it reaches 0, a firing of the older
      one clears only the newer one, so the older interval is never cleared. */
  lemma {:induction false} RepeatedSendLeaksCountdown(s: Session)
    requires Valid(s) && s.running == {}
    ensures var twice := SendOtp(SendOtp(s, true), true);
      && twice.running == {s.nextHandle, s.nextHandle + 1}
      && Tick(Tick(twice, s.nextHandle), s.nextHandle + 1).timer == CountdownSeconds - 2
      && Tick(twice.(timer := 0), s.nextHandle).running == {s.nextHandle}
  {
    var once := SendOtp(s, true);
    assert once.running == {s.nextHandle};
    var twice := SendOtp(once, true);
    assert twice.running == {s.nextHandle} + {s.nextHandle + 1};
    assert twice.timerInterval == Some(s.nextHandle + 1);
    assert Tick(twice.(timer := 0), s.nextHandle).running == twice.running - {s.nextHandle + 1};
  }

  /** Resetting the OTP state after two successful sends clears only the
      newer interval: the older one keeps running. */
  lemma {:induction false} ResetAfterRepeatedSendLeaks(s: Session)
    requires Valid(s) && s.running == {}
    ensures ResetOtpState(SendOtp(SendOtp(s, true), true)).running == {s.nextHandle}
  {
    var twice := SendOtp(SendOtp(s, true), true);
    assert twice.running == {s.nextHandle} + {s.nextHandle + 1};
    assert twice.timerInterval == Some(s.nextHandle + 1);
  }

  /** The OTP login flow end to end: after the code is sent the countdown
      reads 120; after the backend accepts the code with token `t`, the
      cookie and the store hold `t`, the store is authenticated and the
      browser was sent home exactly once. */
  lemma OtpLoginScenario(s: Session, phone: string, code: string, t: string, user: Profile)
    requires Valid(s) && !s.authenticated
    ensures var sent := SendOtp(s.(phoneNumber := phone), true);
      && sent.otpSent && sent.timer == CountdownSeconds && !sent.authenticated
      && OtpLoginRequest(sent.(otpCode := code)) == Call("POST", "/otp", [("mobile", phone), ("code", code)])
      && var done := Login(sent.(otpCode := code), Resolved(Some(AuthData(Some(t), Some(user)))));
         done.cookie == Some(t) && done.token == Some(t) && done.authenticated && done.profile == Some(user)
         && done.navigations == s.navigations + [HomePath]
  {
  }
}
