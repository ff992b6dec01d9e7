/** The global route middleware (middleware/auth.js): on the client, send an
    anonymous visitor to the login page and an authenticated one away from
    it; on the server, never redirect. */
module RouteGuard {
  import opened JsValues
  import AuthSession

  /** The name Nuxt gives the login page (pages/auth/login). */
  const LoginRoute := "auth-login"
  /** The name Nuxt gives the home page (pages/index). */
  const HomeRoute := "index"
  /** The paths the guard redirects to are the ones the auth store navigates to. */
  const LoginPath := AuthSession.LoginPath
  const HomePath := AuthSession.HomePath

  /** The redirect the guard returns for navigation to the route named `to`,
      or None to let navigation proceed. */
  function Guard(isServer: bool, authenticated: bool, to: Option<string>): (r: Option<string>)
    ensures isServer ==> r.None?
    ensures r == Some(LoginPath) <==> !isServer && !authenticated && to != Some(LoginRoute)
    ensures r == Some(HomePath) <==> !isServer && authenticated && to == Some(LoginRoute)
    ensures r.None? <==>
      isServer || (!authenticated && to == Some(LoginRoute)) || (authenticated && to != Some(LoginRoute))
  {
    if isServer then None
    else if !authenticated && to != Some(LoginRoute) then Some(LoginPath)
    else if authenticated && to == Some(LoginRoute) then Some(HomePath)
    else None
  }

  /** The route name the path of a redirect resolves to. */
  function RouteNameOf(path: string): Option<string> {
    if path == LoginPath then Some(LoginRoute)
    else if path == HomePath then Some(HomeRoute)
    else None
  }

  /** Following a redirect never triggers another: the guard lets the
      redirect target through for the same authentication status. */
  lemma RedirectSettles(authenticated: bool, to: Option<string>)
    ensures var r := Guard(false, authenticated, to);
      r.Some? ==> Guard(false, authenticated, RouteNameOf(r.value)).None?
  {
  }
}
