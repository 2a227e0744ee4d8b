// The edge middleware: a path under /admin without an `idToken` cookie is
// redirected to /login; everything else passes through. The token is not
// verified here.
module Middleware {
  import opened Results
  import opened Strings

  /** The parts of the request URL the redirect keeps or changes. */
  datatype Url = Url(origin: string, pathname: string, search: string)

  datatype Response = Next | Redirect(location: Url)

  const AdminPrefix: string := "/admin"
  const LoginPath: string := "/login"

  /** A cookie value counts only when it is non-empty (an empty string is
      falsy). */
  predicate TokenPresent(idToken: Option<string>) {
    idToken.Some? && idToken.value != ""
  }

  /** The middleware's decision for a request to `url` carrying the
      `idToken` cookie value `idToken`. */
  function Decide(url: Url, idToken: Option<string>): (r: Response)
    ensures r.Redirect? <==> StartsWith(url.pathname, AdminPrefix) && !TokenPresent(idToken)
    ensures r.Redirect? ==> r.location == url.(pathname := LoginPath)
    ensures !StartsWith(url.pathname, AdminPrefix) ==> r == Next
    ensures TokenPresent(idToken) ==> r == Next
  {
    if StartsWith(url.pathname, AdminPrefix) && !TokenPresent(idToken) then
      Redirect(url.(pathname := LoginPath))
    else Next
  }

  /** Any cookie value at all lets an /admin request through: a forged token
      passes just as a real one. */
  lemma AnyTokenPasses(url: Url, forged: string, genuine: string)
    requires forged != "" && genuine != ""
    ensures Decide(url, Some(forged)) == Decide(url, Some(genuine)) == Next
  {
  }

  /** The test is a bare prefix test: "/administrator" is treated as an
      admin path. */
  lemma AdministratorIsGated(origin: string, search: string)
    ensures Decide(Url(origin, "/administrator", search), None) == Redirect(Url(origin, LoginPath, search))
  {
    assert "/administrator"[..6] == AdminPrefix;
  }

  /** The configured matcher `/admin/:path*`: the path /admin itself and
      every path below it. */
  function MatcherMatches(pathname: string): (matched: bool)
    ensures matched ==> StartsWith(pathname, AdminPrefix)
    ensures StartsWith(pathname, AdminPrefix) && !matched ==> |pathname| > |AdminPrefix| && pathname[|AdminPrefix|] != '/'
    ensures |pathname| > |AdminPrefix| && pathname[|AdminPrefix|] != '/' ==> !matched
  {
    if pathname == AdminPrefix then true
    else
      var matched := StartsWith(pathname, AdminPrefix + "/");
      assert matched ==> pathname[..|AdminPrefix|] == (AdminPrefix + "/")[..|AdminPrefix|];
      matched
  }

  /** What a request gets end to end: the middleware runs only on paths the
      matcher selects. */
  function Serve(url: Url, idToken: Option<string>): (r: Response)
    ensures MatcherMatches(url.pathname) ==> r == Decide(url, idToken)
    ensures !MatcherMatches(url.pathname) ==> r == Next
  {
    if MatcherMatches(url.pathname) then Decide(url, idToken) else Next
  }

  /** On every path the matcher selects, the middleware's own prefix test
      holds, so there a request is redirected exactly when it has no token. */
  lemma MatchedPathsAreGated(url: Url, idToken: Option<string>)
    requires MatcherMatches(url.pathname)
    ensures Serve(url, idToken).Redirect? <==> !TokenPresent(idToken)
  {
    if url.pathname != AdminPrefix {
      assert url.pathname[..|AdminPrefix|] == (AdminPrefix + "/")[..|AdminPrefix|];
    }
  }

  /** Because of the matcher, the "/administrator" case never reaches the
      middleware: that request passes without a token. */
  lemma AdministratorNotMatched(origin: string, search: string)
    ensures Serve(Url(origin, "/administrator", search), None) == Next
  {
    assert "/administrator"[6] != '/';
  }
}
