/**
 * The request gate in front of every page and API route: public paths pass,
 * everything else needs a `session` cookie. The cookie's value is not
 * checked against the session store here.
 */
module Middleware {
  import opened Wrappers
  import opened Strings

  /** `publicPaths`, matched as prefixes. */
  const PUBLIC_PATHS: seq<string> := ["/login", "/api/auth/login", "/api/auth/logout", "/.well-known/acme-challenge"]

  datatype Decision =
    | Next
    | RedirectToLogin              // a redirect to `/login` on the request's own origin
    | Unauthorized                 // status 401 with `{ success: false, error: 'Unauthorized' }`

  /** `prefixes.some(p => pathname.startsWith(p))`. */
  function AnyPrefix(prefixes: seq<string>, pathname: string): (r: bool)
    ensures r <==> exists i :: 0 <= i < |prefixes| && StartsWith(pathname, prefixes[i])
    decreases |prefixes|
  {
    if |prefixes| == 0 then false
    else if StartsWith(pathname, prefixes[0]) then true
    else
      var r := AnyPrefix(prefixes[1..], pathname);
      assert forall i :: 1 <= i < |prefixes| ==> prefixes[i] == prefixes[1..][i - 1];
      if r then
        var i :| 0 <= i < |prefixes[1..]| && StartsWith(pathname, prefixes[1..][i]);
        assert StartsWith(pathname, prefixes[i + 1]);
        r
      else r
  }

  predicate IsPublicPath(pathname: string) {
    AnyPrefix(PUBLIC_PATHS, pathname)
  }

  /** `!sessionToken`: no cookie, or an empty one. */
  predicate HasSessionCookie(sessionCookie: Option<string>) {
    sessionCookie.Some? && sessionCookie.value != ""
  }

  /** `middleware`: the routing decision for a request path and its `session` cookie. */
  function Route(pathname: string, sessionCookie: Option<string>): (d: Decision)
    ensures d == Next <==> IsPublicPath(pathname) || HasSessionCookie(sessionCookie)
    ensures d == RedirectToLogin <==>
      !IsPublicPath(pathname) && !HasSessionCookie(sessionCookie) && !StartsWith(pathname, "/api/")
    ensures d == Unauthorized <==>
      !IsPublicPath(pathname) && !HasSessionCookie(sessionCookie) && StartsWith(pathname, "/api/")
  {
    if IsPublicPath(pathname) then Next
    else if !HasSessionCookie(sessionCookie) then
      if !StartsWith(pathname, "/api/") then RedirectToLogin else Unauthorized
    else Next
  }

  /** Every path under a public prefix passes without a cookie, the ACME challenge files included. */
  lemma PublicPrefixPasses(pathname: string, i: int)
    requires 0 <= i < |PUBLIC_PATHS| && StartsWith(pathname, PUBLIC_PATHS[i])
    ensures Route(pathname, None) == Next
  {
  }

  /** The HTTP-01 challenge files are reachable by the certificate authority. */
  lemma AcmeChallengeIsPublic(token: string)
    ensures Route("/.well-known/acme-challenge/" + token, None) == Next
  {
    var p := "/.well-known/acme-challenge/" + token;
    assert p[..|PUBLIC_PATHS[3]|] == PUBLIC_PATHS[3];
    PublicPrefixPasses(p, 3);
  }

  /** Matching is by prefix only: a path that merely begins with "/login" is public. */
  lemma PrefixMatchIsLoose()
    ensures Route("/loginx", None) == Next
    ensures Route("/api/auth/logoutAll", None) == Next
  {
    assert "/loginx"[..|PUBLIC_PATHS[0]|] == PUBLIC_PATHS[0];
    PublicPrefixPasses("/loginx", 0);
    assert "/api/auth/logoutAll"[..|PUBLIC_PATHS[2]|] == PUBLIC_PATHS[2];
    PublicPrefixPasses("/api/auth/logoutAll", 2);
  }

  /** Any non-empty cookie value is let through, whatever session it names. */
  lemma AnyCookiePasses(pathname: string, token: string)
    requires token != ""
    ensures Route(pathname, Some(token)) == Next
  {
  }

  /** Without a cookie, pages are redirected and API routes are refused. */
  lemma NoCookieExamples()
    ensures Route("/", None) == RedirectToLogin
    ensures Route("/api/certificates", None) == Unauthorized
  {
    assert !StartsWith("/", "/api/");
    assert forall i :: 0 <= i < |PUBLIC_PATHS| ==> |PUBLIC_PATHS[i]| > 1;
    assert "/api/certificates"[..5] == "/api/";
    assert "/api/certificates"[..|PUBLIC_PATHS[0]|] != PUBLIC_PATHS[0] by {
      assert "/api/certificates"[1] != PUBLIC_PATHS[0][1];
    }
    assert "/api/certificates"[..|PUBLIC_PATHS[1]|] != PUBLIC_PATHS[1] by {
      assert "/api/certificates"[5] != PUBLIC_PATHS[1][5];
    }
    assert "/api/certificates"[..|PUBLIC_PATHS[2]|] != PUBLIC_PATHS[2] by {
      assert "/api/certificates"[5] != PUBLIC_PATHS[2][5];
    }
    assert |PUBLIC_PATHS[3]| > |"/api/certificates"|;
  }
}
