/**
 The request gate of middleware.ts. Every request that passes the framework's
 static-asset matcher is classified by its pathname against two fixed route
 lists, and the presence of a session cookie decides whether it continues,
 is sent to the sign-in page (carrying the page it wanted as `callbackUrl`),
 or, for a signed-in user on a sign-in style page, is sent on to that
 `callbackUrl` or to the home page.
 */
module RouteGate {
  import opened JsValues
  import opened SearchParams

  /** Pages only meant for users without a session. */
  const AuthRoutes: seq<string> := ["/sign-in", "/forget-password", "/reset-password", "/two-factor"]

  /** Pages open to everybody. */
  const PublicRoutes: seq<string> := ["/", "/about", "/contact"]

  const SignInPath: string := "/sign-in"
  const HomePath: string := "/"
  const CallbackParam: string := "callbackUrl"

  /** What the gate reads from a request: the path of its URL, the session
      cookie's value as the cookie helper returns it (`None` for null), and
      the URL's query parameters. */
  datatype Request = Request(pathname: string, sessionCookie: Option<string>, query: Query)

  /** Where a redirect points. `Url` is a URL string still to be resolved
      against the request's own URL; `PathWithQuery` is a path on the same
      origin together with its query parameters. */
  datatype Target = Url(raw: string) | PathWithQuery(path: string, query: Query)

  /** `NextResponse.next()` or `NextResponse.redirect(target)`. */
  datatype Decision = Next | Redirect(target: Target)

  /** The three classes a pathname falls into. */
  datatype RouteClass = Public | AuthOnly | Protected

  /** `list.includes(x)` on an array of strings: a scan from the front that
      compares whole strings. */
  function Includes(list: seq<string>, x: string): (r: bool)
    ensures r <==> x in list
  {
    if list == [] then false
    else if list[0] == x then true
    else
      var r := Includes(list[1..], x);
      assert list == [list[0]] + list[1..];
      r
  }

  /** `!!cookie`: a missing or empty cookie value means "not signed in";
      what a non-empty value holds plays no part. */
  function IsLoggedIn(sessionCookie: Option<string>): (b: bool)
    ensures sessionCookie.None? ==> !b
    ensures sessionCookie == Some("") ==> !b
    ensures sessionCookie.Some? && sessionCookie.value != "" ==> b
  {
    Truthy(sessionCookie)
  }

  /** The class of a pathname, by exact membership in the two lists. */
  function Classify(pathname: string): (c: RouteClass)
    ensures c == Public <==> pathname in PublicRoutes
    ensures c == AuthOnly <==> pathname in AuthRoutes
    ensures c == Protected <==> pathname !in PublicRoutes && pathname !in AuthRoutes
  {
    if pathname in PublicRoutes then Public
    else if pathname in AuthRoutes then AuthOnly
    else Protected
  }

  /** The redirect sending a signed-out user to sign in and back: a fresh URL
      for the sign-in page whose only query parameter is `callbackUrl`. */
  function SignInRedirect(pathname: string): (t: Target)
    ensures t.PathWithQuery? && t.path == SignInPath
    ensures Get(t.query, CallbackParam) == Some(pathname)
    ensures |t.query| == 1
  {
    var q := SetParam([], CallbackParam, pathname);
    GetSetSame([], CallbackParam, pathname);
    PathWithQuery(SignInPath, q)
  }

  /** `searchParams.get("callbackUrl") || "/"`. */
  function CallbackOrHome(query: Query): (url: string)
    ensures url != ""
    ensures Truthy(Get(query, CallbackParam)) ==> url == Get(query, CallbackParam).value
    ensures !Truthy(Get(query, CallbackParam)) ==> url == HomePath
  {
    OrElse(Get(query, CallbackParam), HomePath)
  }

  /** The gate. Its contract is the policy per route class and session state. */
  function Middleware(request: Request): (d: Decision)
    // Public pages continue whether or not there is a session.
    ensures Classify(request.pathname) == Public ==> d == Next
    // Signed in, on a sign-in style page: off to callbackUrl, or home.
    ensures Classify(request.pathname) == AuthOnly && IsLoggedIn(request.sessionCookie) ==>
              d == Redirect(Url(CallbackOrHome(request.query)))
    // Signed out, on a sign-in style page: continue.
    ensures Classify(request.pathname) == AuthOnly && !IsLoggedIn(request.sessionCookie) ==>
              d == Next
    // Signed in, on any other page: continue.
    ensures Classify(request.pathname) == Protected && IsLoggedIn(request.sessionCookie) ==>
              d == Next
    // Signed out, on any other page: to sign-in, remembering the page.
    ensures Classify(request.pathname) == Protected && !IsLoggedIn(request.sessionCookie) ==>
              d == Redirect(SignInRedirect(request.pathname))
  {
    var pathname := request.pathname;
    var isAuthRoute := Includes(AuthRoutes, pathname);
    var isPublicRoute := Includes(PublicRoutes, pathname);
    var isLoggedIn := IsLoggedIn(request.sessionCookie);
    if isPublicRoute then Next
    else if isLoggedIn && isAuthRoute then Redirect(Url(CallbackOrHome(request.query)))
    else if !isLoggedIn && !isAuthRoute then Redirect(SignInRedirect(pathname))
    else Next
  }

  /** The two lists share no path, so the order in which the gate tests them
      only matters through the public check coming first. */
  lemma RouteListsDisjoint()
    ensures forall p | p in PublicRoutes :: p !in AuthRoutes
  {
  }

  /** Membership is whole-string equality, not a prefix test: every path
      one or more segments below a listed page is protected, and a signed-out
      user there is sent to sign in. */
  lemma NoPrefixMatching(page: string, rest: string, cookie: Option<string>, query: Query)
    requires page in PublicRoutes || page in AuthRoutes
    ensures Classify(page + "/" + rest) == Protected
    ensures !IsLoggedIn(cookie) ==>
              Middleware(Request(page + "/" + rest, cookie, query)) ==
              Redirect(SignInRedirect(page + "/" + rest))
  {
    var path := page + "/" + rest;
    assert |path| > |page| && path[|page|] == '/';
  }

  /** The sign-in page the gate redirects to is itself a sign-in style page,
      so a signed-out user who follows the redirect is let through: no loop. */
  lemma SignedOutReachesFixpoint(request: Request)
    requires !IsLoggedIn(request.sessionCookie)
    ensures Middleware(request).Redirect? ==>
              var t := Middleware(request).target;
              t.PathWithQuery? &&
              Middleware(Request(t.path, request.sessionCookie, t.query)) == Next
  {
  }

  /** A path that `new URL(path, base)` resolves on the base URL's own
      origin: it starts with a single `/`. A second `/` or a `\` after it
      would make it a scheme-relative reference to another host. */
  predicate SameOriginPath(s: string) {
    |s| >= 1 && s[0] == '/' && (|s| == 1 || (s[1] != '/' && s[1] != '\\'))
  }

  /** A signed-out user sent to sign in from a page, who then comes back to
      the sign-in URL with a session, is sent on to that very page. This needs
      a path on the same origin: for `//evil.com` the gate hands back the same
      string, but resolving it leaves the site. */
  lemma CallbackReturnsToOrigin(request: Request, cookie: Option<string>)
    requires Classify(request.pathname) == Protected
    requires SameOriginPath(request.pathname)
    requires !IsLoggedIn(request.sessionCookie)
    requires IsLoggedIn(cookie)
    ensures Middleware(request).Redirect? && Middleware(request).target.PathWithQuery?
    ensures var t := Middleware(request).target;
            Middleware(Request(t.path, cookie, t.query)) == Redirect(Url(request.pathname))
  {
  }

  /** The decision depends only on the pathname, on whether the cookie makes
      the user signed in (not on its value), and on the `callbackUrl`
      parameter; the other query parameters play no part. */
  lemma DecisionDependsOnlyOnInputs(a: Request, b: Request)
    requires a.pathname == b.pathname
    requires IsLoggedIn(a.sessionCookie) == IsLoggedIn(b.sessionCookie)
    requires Get(a.query, CallbackParam) == Get(b.query, CallbackParam)
    ensures Middleware(a) == Middleware(b)
  {
  }
}
