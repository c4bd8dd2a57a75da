/**
 * `POST /api/auth/login`: checks the submitted credentials against the
 * administrator account configured in the environment and, on success,
 * opens a 24-hour session and sets its cookie. The session store is not
 * part of this model: the route's effect on it is the list of
 * `createSession` calls it makes.
 */
module LoginRoute {
  import opened Wrappers
  import opened Env
  import opened Clock
  import opened Crypto
  import opened Json

  const DEFAULT_USERNAME: string := "admin"
  const SESSION_HOURS: int := 24
  const SESSION_COOKIE: string := "session"

  /** The `session` cookie as the response sets it. */
  datatype Cookie = Cookie(name: string, value: string, httpOnly: bool, secure: bool,
                           sameSite: string, expires: int, path: string)

  datatype LoginResponse = LoginResponse(status: int, success: bool, error: Option<string>, cookie: Option<Cookie>)

  /** A call on the session store. */
  datatype SessionCall = CreateSession(token: string, expiresAt: int)

  /** `username !== adminUsername || password !== adminPassword`, with strict equality on strings. */
  predicate CredentialsMatch(body: Body, username: string, password: string) {
    MapGet(body, "username") == Some(Str(username)) && MapGet(body, "password") == Some(Str(password))
  }

  /**
   * `POST`. `body` is `None` when the request body cannot be read as a JSON
   * object (the handler's catch); `random` stands for the 32 bytes of
   * `randomBytes(32)`, hex-encoded into the session token.
   */
  function Login(body: Option<Body>, env: Environment, crypto: Primitives, random: Bytes, now: int): (r: (LoginResponse, seq<SessionCall>))
    ensures body.None? ==> r == (LoginResponse(500, false, Some("Login failed"), None), [])
    ensures body.Some? && !IsSet(env, "ADMIN_PASSWORD") ==>
      r == (LoginResponse(500, false, Some("Server not configured. Set ADMIN_PASSWORD."), None), [])
    ensures body.Some? && IsSet(env, "ADMIN_PASSWORD")
            && !CredentialsMatch(body.value, GetOr(env, "ADMIN_USERNAME", DEFAULT_USERNAME), env["ADMIN_PASSWORD"]) ==>
      r == (LoginResponse(401, false, Some("Invalid username or password"), None), [])
    ensures r.0.success ==> r.0.status == 200 && r.0.error == None && r.0.cookie.Some?
  {
    match body
    case None => (LoginResponse(500, false, Some("Login failed"), None), [])
    case Some(b) =>
      var adminUsername := GetOr(env, "ADMIN_USERNAME", DEFAULT_USERNAME);
      if !IsSet(env, "ADMIN_PASSWORD") then
        (LoginResponse(500, false, Some("Server not configured. Set ADMIN_PASSWORD."), None), [])
      else if !CredentialsMatch(b, adminUsername, env["ADMIN_PASSWORD"]) then
        (LoginResponse(401, false, Some("Invalid username or password"), None), [])
      else
        var token := crypto.hex(random);
        var expiresAt := AddHours(now, SESSION_HOURS);
        var cookie := Cookie(SESSION_COOKIE, token, true, MapGet(env, "NODE_ENV") == Some("production"), "lax", expiresAt, "/");
        (LoginResponse(200, true, None, Some(cookie)), [CreateSession(token, expiresAt)])
  }

  /**
   * A session is opened exactly when the password is configured and both
   * submitted values equal the configured account (the username 'admin'
   * unless ADMIN_USERNAME says otherwise); then exactly one session is
   * created, 24 hours long, and the cookie carries its token and expiry.
   */
  lemma SessionOnlyForValidCredentials(body: Body, env: Environment, crypto: Primitives, random: Bytes, now: int)
    ensures var r := Login(Some(body), env, crypto, random, now);
      && (r.0.success <==>
            IsSet(env, "ADMIN_PASSWORD")
            && CredentialsMatch(body, GetOr(env, "ADMIN_USERNAME", DEFAULT_USERNAME), env["ADMIN_PASSWORD"]))
      && (r.1 != [] <==> r.0.success)
      && (r.0.success ==>
            && |r.1| == 1
            && r.1[0].token == r.0.cookie.value.value
            && r.1[0].expiresAt == r.0.cookie.value.expires
            && r.1[0].expiresAt - now == SESSION_HOURS * MS_PER_HOUR
            && r.0.cookie.value.name == SESSION_COOKIE && r.0.cookie.value.httpOnly
            && (r.0.cookie.value.secure <==> MapGet(env, "NODE_ENV") == Some("production")))
  {
  }

  /** With ADMIN_USERNAME unset, only the name 'admin' can log in. */
  lemma DefaultUsername(password: string, env: Environment, crypto: Primitives, random: Bytes, now: int)
    requires !IsSet(env, "ADMIN_USERNAME") && IsSet(env, "ADMIN_PASSWORD")
    ensures Login(Some(map["username" := Str("admin"), "password" := Str(env["ADMIN_PASSWORD"])]), env, crypto, random, now).0.success
    ensures password != env["ADMIN_PASSWORD"] ==>
      !Login(Some(map["username" := Str("admin"), "password" := Str(password)]), env, crypto, random, now).0.success
  {
  }
}
