/** The auth store itself (stores/auth.js): its refs are fields updated in
    place, the cookie lives in the shared core store, and every action is
    proved to move the store's state exactly as its AuthSession function
    says. */
module AuthStore {
  import opened JsValues
  import opened Core
  import opened AuthSession

  class AuthStore {
    const core: CoreStore
    var token: Option<string>
    var authenticated: bool
    var profile: Option<Profile>
    var phoneNumber: string
    var otpCode: string
    var otpSent: bool
    var timer: int
    var password: string
    var passwordConfirmation: string
    var forgetPasswordStep: int
    var timerInterval: Option<nat>
    var running: set<nat>
    var nextHandle: nat
    var navigations: seq<string>

    /** The store's state as a session value. */
    function State(): Session
      reads this, core
    {
      Session(core.authToken, token, authenticated, profile, phoneNumber, otpCode, otpSent, timer,
              password, passwordConfirmation, forgetPasswordStep, timerInterval, running, nextHandle,
              navigations)
    }

    constructor (core: CoreStore)
      ensures this.core == core
      ensures State() == Initial(core.authToken) && Valid(State())
    {
      this.core := core;
      token := None;
      authenticated := false;
      profile := Some(BlankProfile);
      phoneNumber, otpCode, otpSent, timer := "", "", false, 0;
      password, passwordConfirmation, forgetPasswordStep := "", "", 1;
      timerInterval, running, nextHandle := None, {}, 1;
      navigations := [];
    }

    /** `setInterval(...)`: a new running interval and its handle. */
    method SetInterval() returns (h: nat)
      modifies this`running, this`nextHandle
      ensures h == old(nextHandle) && running == old(running) + {h} && nextHandle == h + 1
    {
      h := nextHandle;
      running := running + {h};
      nextHandle := nextHandle + 1;
    }

    /** `clearInterval(timerInterval)` for the stored handle, if any. */
    method ClearStoredInterval()
      modifies this`running
      ensures State() == ClearInterval(old(State()))
    {
      if timerInterval.Some? {
        running := running - {timerInterval.value};
      }
    }

    method StartTimer()
      modifies this
      ensures State() == AuthSession.StartTimer(old(State()))
    {
      timer := CountdownSeconds;
      var h := SetInterval();
      timerInterval := Some(h);
    }

    /** One firing of interval `h`. */
    method Tick(h: nat)
      modifies this
      ensures State() == AuthSession.Tick(old(State()), h)
    {
      if h in running {
        if timer > 0 {
          timer := timer - 1;
        } else {
          ClearStoredInterval();
        }
      }
    }

    method ResetOtpState()
      modifies this
      ensures State() == AuthSession.ResetOtpState(old(State()))
    {
      otpSent := false;
      otpCode := "";
      timer := 0;
      assert State() == old(State()).(otpSent := false, otpCode := "", timer := 0);
      ClearStoredInterval();
    }

    method ResetFormState()
      modifies this
      ensures State() == AuthSession.ResetFormState(old(State()))
    {
      phoneNumber := "";
      otpCode := "";
      password := "";
      passwordConfirmation := "";
      otpSent := false;
      forgetPasswordStep := 1;
      timer := 0;
      assert State() == old(State()).(phoneNumber := "", otpCode := "", password := "", passwordConfirmation := "",
                                      otpSent := false, forgetPasswordStep := 1, timer := 0);
      ClearStoredInterval();
    }

    method SendOtp(ok: bool) returns (call: Call)
      modifies this
      ensures call == OtpRequest(old(State()))
      ensures State() == AuthSession.SendOtp(old(State()), ok)
    {
      call := OtpRequest(State());
      if ok {
        otpSent := true;
        StartTimer();
      }
    }

    method SetAuthData(user: Option<Profile>, authToken: Option<string>)
      modifies this
      ensures State() == AuthSession.SetAuthData(old(State()), user, authToken)
    {
      token := authToken;
      authenticated := true;
      profile := user;
    }

    /** The part `handleLogin` and `loginWithPassword` share once the backend
      replied. */
    method CompleteLogin(reply: Reply)
      modifies this, core`authToken
      ensures State() == Login(old(State()), reply)
    {
      if reply.Resolved? && reply.data.Some? {
        var data := reply.data.value;
        core.SaveToken(data.token);
        SetAuthData(data.user, data.token);
        navigations := navigations + [HomePath];
      }
    }

    method HandleLogin(reply: Reply) returns (call: Call)
      modifies this, core`authToken
      ensures call == OtpLoginRequest(old(State()))
      ensures State() == Login(old(State()), reply)
    {
      call := OtpLoginRequest(State());
      CompleteLogin(reply);
    }

    method LoginWithPassword(reply: Reply) returns (call: Call)
      modifies this, core`authToken
      ensures call == PasswordLoginRequest(old(State()))
      ensures State() == Login(old(State()), reply)
    {
      call := PasswordLoginRequest(State());
      CompleteLogin(reply);
    }

    method SendForgotPasswordOtp(ok: bool) returns (call: Call)
      modifies this
      ensures call == ForgotPasswordRequest(old(State()))
      ensures State() == AuthSession.SendForgotPasswordOtp(old(State()), ok)
    {
      call := ForgotPasswordRequest(State());
      if ok {
        otpSent := true;
        forgetPasswordStep := 2;
        StartTimer();
      }
    }

    method ResetPassword(ok: bool) returns (call: Call)
      modifies this
      ensures call == ResetPasswordRequest(old(State()))
      ensures State() == AuthSession.ResetPassword(old(State()), ok)
    {
      call := ResetPasswordRequest(State());
      if ok {
        ResetFormState();
      }
    }

    method Logout()
      modifies this, core`authToken
      ensures State() == AuthSession.Logout(old(State()))
    {
      core.DestroyToken();
      token := None;
      authenticated := false;
      profile := None;
      navigations := navigations + [LoginPath];
    }

    method CheckAuth(reply: Reply) returns (call: Call)
      modifies this, core`authToken
      ensures call == CheckTokenRequest()
      ensures State() == AuthSession.CheckAuth(old(State()), reply)
    {
      call := CheckTokenRequest();
      match reply {
        case Rejected =>
          Logout();
        case Resolved(data) =>
          authenticated := true;
          token := core.GetToken();
          if data.None? {
            // reading `data.user` throws; the catch logs out
            Logout();
          } else {
            profile := Some(data.value.user.GetOr(map[]));
          }
      }
    }
  }
}
