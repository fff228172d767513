/** The edge route gate: a decision over the request path and the presence of
    the `pb_auth` cookie, run only for the paths the matcher selects. */
module Middleware {

  const LoginPath: string := "/login"
  const RegisterPath: string := "/register"
  const DashboardPath: string := "/dashboard"
  const AuthCookie: string := "pb_auth"

  /** The request as the gate reads it: its pathname and its cookie jar. */
  datatype Request = Request(pathname: string, cookies: map<string, string>)

  /** A redirect to a path of the same origin, or `NextResponse.next()`. */
  datatype Response = Redirect(location: string) | Next

  /** Only the two authentication pages are public, matched exactly; both
      lie inside the matcher. */
  predicate IsPublicPath(path: string)
    ensures IsPublicPath(path) ==> Matches(path)
  {
    path == LoginPath || path == RegisterPath
  }

  /** Presence of the cookie; its value is never looked at. */
  predicate HasAuthCookie(request: Request) {
    AuthCookie in request.cookies
  }

  /** The body of `middleware(request)`. A redirect happens exactly when the
      public-ness of the path agrees with cookie presence; a signed-in visitor
      goes to the dashboard and a signed-out one to the login page. */
  function Gate(request: Request): (r: Response)
    ensures r.Redirect? <==> (IsPublicPath(request.pathname) == HasAuthCookie(request))
    ensures r.Redirect? ==> r.location == (if HasAuthCookie(request) then DashboardPath else LoginPath)
  {
    var isPublic := IsPublicPath(request.pathname);
    var hasAuth := HasAuthCookie(request);
    if isPublic && hasAuth then Redirect(DashboardPath)
    else if !isPublic && !hasAuth then Redirect(LoginPath)
    else Next
  }

  /** `/dashboard` with its sub-paths, `/login` and `/register`. */
  predicate Matches(path: string)
    ensures Matches(path) ==> path == LoginPath || path == RegisterPath || DashboardPath <= path
  {
    path == DashboardPath || DashboardPath + "/" <= path || path == LoginPath || path == RegisterPath
  }

  /** What the edge does with any request: paths outside the matcher never
      reach the gate and pass through. */
  function Route(request: Request): (r: Response)
    ensures !Matches(request.pathname) ==> r == Next
    ensures Matches(request.pathname) ==> r == Gate(request)
  {
    if Matches(request.pathname) then Gate(request) else Next
  }

  /** The public set is exactly two strings: nothing extending either of them
      (a sub-path, a trailing slash, a query) is public. */
  lemma PublicPathsAreExact(suffix: string)
    requires suffix != []
    ensures !IsPublicPath(LoginPath + suffix) && !IsPublicPath(RegisterPath + suffix)
  {
    var l, r := LoginPath + suffix, RegisterPath + suffix;
    assert l[1] == 'l' && r[1] == 'r';
    assert |l| > |LoginPath|;
    assert |r| > |RegisterPath|;
  }

  /** The table of the four cases, stated case by case. */
  lemma GateCases(request: Request)
    ensures IsPublicPath(request.pathname) && HasAuthCookie(request) ==> Gate(request) == Redirect(DashboardPath)
    ensures !IsPublicPath(request.pathname) && !HasAuthCookie(request) ==> Gate(request) == Redirect(LoginPath)
    ensures IsPublicPath(request.pathname) != HasAuthCookie(request) ==> Gate(request) == Next
  {
  }

  /** Two requests for the same path that agree on whether `pb_auth` is
      present get the same answer, whatever the cookies' values. */
  lemma CookieValueIrrelevant(a: Request, b: Request)
    requires a.pathname == b.pathname
    requires (AuthCookie in a.cookies) == (AuthCookie in b.cookies)
    ensures Route(a) == Route(b)
  {
  }

  /** Following a redirect with the same cookies is never redirected again. */
  lemma NoRedirectLoop(request: Request)
    requires Route(request).Redirect?
    ensures Route(Request(Route(request).location, request.cookies)) == Next
  {
    var target := Request(Route(request).location, request.cookies);
    if HasAuthCookie(request) {
      assert target.pathname == DashboardPath;
      assert !IsPublicPath(target.pathname);
    } else {
      assert target.pathname == LoginPath;
    }
  }

  /** Every redirect target is itself a matched path, so the follow-up
      request does reach the gate. */
  lemma RedirectTargetsAreMatched(request: Request)
    requires Route(request).Redirect?
    ensures Matches(Route(request).location)
  {
  }
}
