/** The redirect rule of the session middleware: signed-out visitors of the
    dashboard go to the login page, signed-in visitors of the login or signup
    page go to the dashboard, and every other request passes through. Whether
    the session holds a user is an input. */
module SessionMiddleware {
  import opened Text

  /** The parts of `request.nextUrl` the rule reads or copies. */
  datatype Url = Url(origin: string, pathname: string, search: string)

  datatype Outcome = PassThrough | Redirect(location: Url)

  const Dashboard := "/dashboard"
  const Login := "/login"
  const Signup := "/signup"

  /** The first test: no user and a path under the dashboard prefix. */
  predicate GuardsDashboard(signedIn: bool, url: Url)
  {
    !signedIn && StartsWith(url.pathname, Dashboard)
  }

  /** The second test: a user and exactly the login or the signup path. */
  predicate LeavesAuthPage(signedIn: bool, url: Url)
  {
    signedIn && (url.pathname == Login || url.pathname == Signup)
  }

  /** `updateSession` from the user lookup on: a redirect keeps the cloned
      URL and replaces its pathname. */
  function UpdateSession(signedIn: bool, url: Url): (r: Outcome)
    ensures GuardsDashboard(signedIn, url) <==> r == Redirect(url.(pathname := Login))
    ensures LeavesAuthPage(signedIn, url) <==> r == Redirect(url.(pathname := Dashboard))
    ensures r.PassThrough? <==> !GuardsDashboard(signedIn, url) && !LeavesAuthPage(signedIn, url)
  {
    if !signedIn && StartsWith(url.pathname, Dashboard) then
      Redirect(url.(pathname := Login))
    else if signedIn && (url.pathname == Login || url.pathname == Signup) then
      Redirect(url.(pathname := Dashboard))
    else
      PassThrough
  }

  // ---------------------------------------------------------------- properties

  /** At most one of the two redirects applies to a request. */
  lemma RedirectsExclusive(signedIn: bool, url: Url)
    ensures !(GuardsDashboard(signedIn, url) && LeavesAuthPage(signedIn, url))
  {
  }

  /** A redirect changes the pathname and nothing else of the URL, and never
      points back at the requested path. */
  lemma RedirectOnlyPathname(signedIn: bool, url: Url)
    ensures var r := UpdateSession(signedIn, url);
      r.Redirect? ==>
        && r.location.origin == url.origin
        && r.location.search == url.search
        && r.location.pathname != url.pathname
  {
    if GuardsDashboard(signedIn, url) {
      assert url.pathname[..|Dashboard|] == Dashboard;
      assert Login[1] != Dashboard[1];
    }
  }

  /** Following a redirect with the same session passes through: no request
      is redirected twice in a row. */
  lemma RedirectSettles(signedIn: bool, url: Url)
    ensures var r := UpdateSession(signedIn, url);
      r.Redirect? ==> UpdateSession(signedIn, r.location) == PassThrough
  {
    assert !StartsWith(Login, Dashboard) by {
      assert Login[1] != Dashboard[1];
    }
  }

  /** The dashboard test is a prefix test: any path that begins with
      "/dashboard", such as "/dashboardX", is guarded. */
  lemma PrefixGuarded(url: Url, rest: string)
    requires url.pathname == Dashboard + rest
    ensures UpdateSession(false, url) == Redirect(url.(pathname := Login))
  {
    assert url.pathname[..|Dashboard|] == Dashboard;
  }

  /** The login and signup tests are exact: "/auth/login" and "/auth/signup"
      pass through for a signed-in user. */
  lemma AuthPagesPassThrough(url: Url)
    requires url.pathname == "/auth/login" || url.pathname == "/auth/signup"
    ensures UpdateSession(true, url) == PassThrough
  {
    assert url.pathname[1] == 'a';
  }

  /** A signed-out visitor is never sent to the dashboard and a signed-in one
      never to the login page. */
  lemma RedirectTargets(url: Url)
    ensures UpdateSession(false, url) != Redirect(url.(pathname := Dashboard))
    ensures UpdateSession(true, url) != Redirect(url.(pathname := Login))
  {
  }
}
