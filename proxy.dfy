/**
 * The route guard (src/proxy.ts): a decision on the request path and on whether a session
 * exists, run only on the paths its matcher selects.
 */
module Proxy {
  import opened Text

  datatype Outcome = Continue | Redirect(location: string)

  /**
   * The handler: an anonymous visitor of a path starting with "/dashboard" is sent to
   * /login, a signed-in visitor of /login is sent to /dashboard, everything else continues.
   */
  function Handle(pathname: string, loggedIn: bool): (r: Outcome)
    ensures r == Redirect("/login") <==> StartsWith(pathname, "/dashboard") && !loggedIn
    ensures r == Redirect("/dashboard") <==> pathname == "/login" && loggedIn
    ensures r.Continue? <==> !(StartsWith(pathname, "/dashboard") && !loggedIn) && !(pathname == "/login" && loggedIn)
  {
    if StartsWith(pathname, "/dashboard") && !loggedIn then Redirect("/login")
    else if pathname == "/login" && loggedIn then Redirect("/dashboard")
    else Continue
  }

  /** `matcher: ["/dashboard/:path*", "/login"]`: /dashboard, any path below it, and /login. */
  predicate MatcherRuns(pathname: string) {
    pathname == "/dashboard" || StartsWith(pathname, "/dashboard/") || pathname == "/login"
  }

  /** What a request sees: paths outside the matcher are never guarded. */
  function Guard(pathname: string, loggedIn: bool): (r: Outcome)
    ensures !MatcherRuns(pathname) ==> r.Continue?
    ensures MatcherRuns(pathname) ==> r == Handle(pathname, loggedIn)
  {
    if MatcherRuns(pathname) then Handle(pathname, loggedIn) else Continue
  }

  /** No path both starts with "/dashboard" and is "/login": the two redirects never compete. */
  lemma RedirectsExclusive(pathname: string)
    ensures !(StartsWith(pathname, "/dashboard") && pathname == "/login")
  {
    if pathname == "/login" {
      assert pathname[1] != "/dashboard"[1];
    }
  }

  /** Every matched path starting with "/dashboard" is a dashboard page; "/dashboards" is not matched. */
  lemma MatchedDashboardPaths(pathname: string)
    requires MatcherRuns(pathname) && StartsWith(pathname, "/dashboard")
    ensures pathname == "/dashboard" || StartsWith(pathname, "/dashboard/")
  {
    RedirectsExclusive(pathname);
  }

  lemma UnmatchedPrefixContinues(loggedIn: bool)
    ensures StartsWith("/dashboards", "/dashboard") && Guard("/dashboards", loggedIn).Continue?
  {
    assert "/dashboards"[..|"/dashboard"|] == "/dashboard";
    assert "/dashboards"[..|"/dashboard/"|] != "/dashboard/" by {
      assert "/dashboards"[10] != "/dashboard/"[10];
    }
  }

  /** Following a redirect, with the same login state, is never redirected again. */
  lemma NoRedirectLoop(pathname: string, loggedIn: bool)
    requires Guard(pathname, loggedIn).Redirect?
    ensures Guard(Guard(pathname, loggedIn).location, loggedIn).Continue?
  {
    if !loggedIn {
      assert !StartsWith("/login", "/dashboard");
    } else {
      assert "/dashboard" != "/login";
    }
  }
}
