/**
 * The route guard (`middleware`): from the request path and whether the
 * request carries a valid session, either a redirect to the login page, a
 * redirect to the dashboard, or passing the request on. Verifying the
 * session token is a parameter: `verify` says whether a cookie value is a
 * valid token.
 */
module Middleware {
  import opened Wrappers
  import opened Text

  datatype Decision = RedirectToLogin | RedirectToDashboard | Pass

  const LoginPath: string := "/login"
  const DashboardPath: string := "/dashboard"
  const ApiPrefix: string := "/api"

  /** `publicPaths.some(path => pathname.startsWith(path))` with the one public path '/login'. */
  predicate IsPublic(pathname: string)
  {
    StartsWith(pathname, LoginPath)
  }

  /** A session exists when the `session` cookie is present and its value verifies. */
  function HasSession(cookie: Option<string>, verify: string -> bool): (b: bool)
    ensures cookie.None? ==> !b
  {
    cookie.Some? && verify(cookie.value)
  }

  /** The decision of `middleware`. */
  function Decide(session: bool, pathname: string): Decision
  {
    if !session && !IsPublic(pathname) && !StartsWith(pathname, ApiPrefix) then RedirectToLogin
    else if session && pathname == LoginPath then RedirectToDashboard
    else Pass
  }

  /**
   * Redirected to the login page exactly without a session on a path that
   * neither starts with '/login' nor with '/api'; to the dashboard exactly
   * with a session on '/login' itself; passed on otherwise.
   */
  lemma DecideCases(session: bool, pathname: string)
    ensures Decide(session, pathname) == RedirectToLogin <==>
      !session && !StartsWith(pathname, "/login") && !StartsWith(pathname, "/api")
    ensures Decide(session, pathname) == RedirectToDashboard <==> session && pathname == "/login"
    ensures Decide(session, pathname) == Pass <==>
      (session && pathname != "/login") || (!session && (StartsWith(pathname, "/login") || StartsWith(pathname, "/api")))
  {
  }

  /** API paths are never sent to the login page, with or without a session. */
  lemma ApiNeverToLogin(session: bool, pathname: string)
    requires StartsWith(pathname, ApiPrefix)
    ensures Decide(session, pathname) != RedirectToLogin
  {
  }

  /** Every path that merely begins with '/login', such as '/login-help', is public. */
  lemma LoginPrefixIsPublic(rest: string)
    ensures IsPublic(LoginPath + rest)
    ensures Decide(false, LoginPath + rest) == Pass
  {
    assert (LoginPath + rest)[..|LoginPath|] == LoginPath;
  }

  /** Following a redirect never redirects again: the guard cannot loop. */
  lemma RedirectsSettle(session: bool, pathname: string)
    ensures Decide(session, pathname) == RedirectToLogin ==> Decide(session, LoginPath) == Pass
    ensures Decide(session, pathname) == RedirectToDashboard ==> Decide(session, DashboardPath) == Pass
  {
    assert StartsWith(LoginPath, LoginPath);
    assert DashboardPath != LoginPath by {
      assert DashboardPath[1] != LoginPath[1];
    }
  }

  /** Without the cookie there is no session, whatever the verifier. */
  lemma NoCookieNoSession(verify: string -> bool, pathname: string)
    ensures Decide(HasSession(None, verify), pathname) != RedirectToDashboard
  {
  }
}
