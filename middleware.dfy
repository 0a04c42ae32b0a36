/** The admin gate. A request whose path starts with "/admin" passes only with the
    `admin-session` cookie set to "authenticated"; otherwise it is redirected to the login
    page with its path in the `redirect` parameter. The gate is only installed on the paths
    the route matcher lists. */
module Middleware {
  import Text
  import opened Values

  const SessionCookie: string := "admin-session"
  const SessionValue: string := "authenticated"

  datatype Decision = Next | RedirectToLogin(redirect: string)

  /** The decision, from the pathname and the value of the session cookie (`None` when the
      cookie is absent). */
  function Gate(pathname: string, session: Option<string>): (d: Decision)
    ensures !Text.StartsWith(pathname, "/admin") ==> d == Next
    ensures Text.StartsWith(pathname, "/admin") ==>
      (d == Next <==> session == Some(SessionValue))
    ensures d.RedirectToLogin? ==> d.redirect == pathname
  {
    if Text.StartsWith(pathname, "/admin") && (session.None? || session.value != SessionValue) then
      RedirectToLogin(pathname)
    else Next
  }

  /** The request's session cookie, read from all its cookies. */
  function SessionOf(cookies: map<string, string>): (s: Option<string>)
    ensures s.Some? <==> SessionCookie in cookies
    ensures s.Some? ==> s.value == cookies[SessionCookie]
  {
    if SessionCookie in cookies then Some(cookies[SessionCookie]) else None
  }

  /** The route matcher: "/admin" with any further path segments, and the login endpoint. */
  predicate Matched(pathname: string) {
    pathname == "/admin" || Text.StartsWith(pathname, "/admin/") || pathname == "/api/auth/login"
  }

  /** What a request meets: the gate on matched paths, nothing elsewhere. */
  function Handle(pathname: string, cookies: map<string, string>): (d: Decision)
    ensures !Matched(pathname) ==> d == Next
    ensures Matched(pathname) ==> d == Gate(pathname, SessionOf(cookies))
  {
    if Matched(pathname) then Gate(pathname, SessionOf(cookies)) else Next
  }

  // -----------------------------------------------------------------------------------------
  // Properties

  /** The decision depends on the pathname and the session cookie alone. */
  lemma {:induction false} OnlySessionCookieMatters(pathname: string, c1: map<string, string>, c2: map<string, string>)
    requires SessionOf(c1) == SessionOf(c2)
    ensures Handle(pathname, c1) == Handle(pathname, c2)
  {
  }

  /** The gate is a raw prefix test: "/administrator" is gated by it, but the matcher does
      not route that path through the gate, so the request passes. */
  lemma {:induction false} AdministratorPath()
    ensures Gate("/administrator", None) == RedirectToLogin("/administrator")
    ensures Handle("/administrator", map[]) == Next
  {
    assert Text.StartsWith("/administrator", "/admin");
    assert !Text.StartsWith("/administrator", "/admin/") by {
      assert "/administrator"[6] != '/';
    }
  }

  /** Every matched admin path is gated. */
  lemma {:induction false} MatchedAdminPathsGated(pathname: string, cookies: map<string, string>)
    requires pathname == "/admin" || Text.StartsWith(pathname, "/admin/")
    ensures Handle(pathname, cookies) == Next <==> SessionOf(cookies) == Some(SessionValue)
  {
    assert Text.StartsWith(pathname, "/admin") by {
      assert pathname[..6] == "/admin";
    }
  }
}
