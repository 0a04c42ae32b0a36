/** The login route: the submitted password is compared with the configured secret and, when
    they agree, the session cookie the admin gate looks for is issued for one day. */
module Login {
  import opened Values
  import Middleware

  /** The attributes of a cookie the route sets. */
  datatype Cookie = Cookie(name: string, value: string, httpOnly: bool, secure: bool,
                           sameSite: string, maxAge: int, path: string)

  datatype Response = LoggedIn(cookie: Cookie) | Unauthorized | LoginFailed

  function Status(r: Response): (code: int)
    ensures code == 200 <==> r.LoggedIn?
    ensures code == 401 <==> r.Unauthorized?
    ensures code == 500 <==> r.LoginFailed?
  {
    match r
    case LoggedIn(_) => 200
    case Unauthorized => 401
    case LoginFailed => 500
  }

  /** The secret: the environment value when set and non-empty, else the built-in
      fallback. */
  function ConfiguredSecret(env: Option<string>, fallback: string): (secret: string)
    ensures env.Some? && env.value != "" ==> secret == env.value
    ensures env.None? || env.value == "" ==> secret == fallback
  {
    if env.Some? && env.value != "" then env.value else fallback
  }

  /** The session cookie: one day long, HTTP-only, same-site lax, for the whole site, and
      secure in production. */
  function SessionCookie(production: bool): (c: Cookie)
    ensures c.name == Middleware.SessionCookie && c.value == Middleware.SessionValue
    ensures c.maxAge == 24 * 60 * 60 && c.httpOnly && c.secure == production
    ensures c.sameSite == "lax" && c.path == "/"
  {
    Cookie("admin-session", "authenticated", true, production, "lax", 60 * 60 * 24, "/")
  }

  /** POST. `body` is `None` when the request body cannot be parsed as JSON. Destructuring a
      `null` body throws; any other body is read for its password, which must be truthy and
      equal to the secret. */
  function Post(body: Option<Json>, secret: string, production: bool): (r: Response)
    ensures DestructureThrows(body) ==> r == LoginFailed
    ensures !DestructureThrows(body) ==>
      var b := ReadFields(body.value);
      && (r.LoggedIn? <==> TruthyAt(b, "password") && b["password"] == JStr(secret))
      && (!r.LoggedIn? ==> r == Unauthorized)
    ensures r.LoggedIn? ==> r.cookie == SessionCookie(production)
  {
    if DestructureThrows(body) then LoginFailed
    else
      var b := ReadFields(body.value);
      if !TruthyAt(b, "password") || b["password"] != JStr(secret) then Unauthorized
      else LoggedIn(SessionCookie(production))
  }

  // -----------------------------------------------------------------------------------------
  // Properties

  /** A successful login requires a non-empty password: an empty secret admits nobody. */
  lemma {:induction false} EmptyPasswordNeverLogsIn(body: Object, production: bool)
    ensures Post(Some(JObject(body)), "", production) == Unauthorized
  {
  }

  /** The password is compared exactly: any other value, wrong type included, is refused. */
  lemma {:induction false} OnlyTheSecretLogsIn(body: Object, secret: string, production: bool)
    requires "password" in body && body["password"] != JStr(secret)
    ensures Post(Some(JObject(body)), secret, production) == Unauthorized
  {
  }

  /** The cookie issued on login is exactly the one the admin gate lets through, on every
      admin path. */
  lemma {:induction false} IssuedCookieOpensGate(body: Object, secret: string, production: bool, pathname: string,
                              cookies: map<string, string>)
    requires Post(Some(JObject(body)), secret, production).LoggedIn?
    ensures var c := Post(Some(JObject(body)), secret, production).cookie;
      Middleware.Handle(pathname, cookies[c.name := c.value]) == Middleware.Next
  {
  }

  /** A body that parses to a number, a string, a boolean or an array has no password, so it
      is refused with 401 rather than failing. */
  lemma {:induction false} NonObjectBodyUnauthorized(body: Json, secret: string, production: bool)
    requires !body.JObject? && !body.JNull?
    ensures Post(Some(body), secret, production) == Unauthorized
  {
  }

  /** A `null` body fails with 500. */
  lemma {:induction false} NullBodyFails(secret: string, production: bool)
    ensures Post(Some(JNull), secret, production) == LoginFailed
  {
  }
}
