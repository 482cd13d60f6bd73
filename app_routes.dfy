/**
 * The route table of the application: which page a path renders, or where it
 * redirects, given the session flag read from storage when the table is built.
 * Paths match as React Router matches them by default: letter case is ignored
 * (ASCII only here) and trailing slashes are dropped.
 */
module AppRoutes {
  import opened Wrappers
  import opened Text
  import opened Storage

  datatype Page = LoginView | ForgetPasswordView | MessageSentView | DashboardView | UserManagementView | NotFoundView

  /** Render a page (inside `MainLayout` or not), or `<Navigate to=... replace />`. */
  datatype Outcome = Render(page: Page, inLayout: bool) | Redirect(to: string, replace: bool)

  /** `path` without its trailing slashes. */
  function StripTrailingSlashes(path: string): (r: string)
    ensures |r| <= |path| && r == path[..|r|]
    ensures r == [] || r[|r| - 1] != '/'
    ensures forall i :: |r| <= i < |path| ==> path[i] == '/'
    decreases |path|
  {
    if path != [] && path[|path| - 1] == '/' then StripTrailingSlashes(path[..|path| - 1]) else path
  }

  /** The form in which two paths that match the same route agree. */
  function Canonical(path: string): string {
    Lower(StripTrailingSlashes(path))
  }

  /** A path with no upper-case letter and no trailing slash is its own canonical form. */
  lemma CanonicalOfCanonical(path: string)
    requires forall i :: 0 <= i < |path| ==> !IsAsciiUpper(path[i])
    requires path == [] || path[|path| - 1] != '/'
    ensures Canonical(path) == path
  {
    LowerOfLowercase(path);
  }

  /** The canonical forms of the declared route patterns: each its own, except "/", which is "". */
  lemma PatternsAreCanonical()
    ensures Canonical("/login") == "/login"
    ensures Canonical("/forget-password") == "/forget-password"
    ensures Canonical("/message-sent") == "/message-sent"
    ensures Canonical("/dashboard") == "/dashboard"
    ensures Canonical("/users") == "/users"
    ensures Canonical("/") == ""
  {
    CanonicalOfCanonical("/login");
    CanonicalOfCanonical("/forget-password");
    CanonicalOfCanonical("/message-sent");
    CanonicalOfCanonical("/dashboard");
    CanonicalOfCanonical("/users");
    assert StripTrailingSlashes("/") == "";
  }

  /** `path` matches the route pattern `pattern`: both have the same canonical form. */
  predicate MatchesPattern(path: string, pattern: string) {
    Canonical(path) == Canonical(pattern)
  }

  /** `path` matches one of the three routes declared outside the session condition. */
  predicate IsPublic(path: string): (r: bool)
    ensures r <==> MatchesPattern(path, "/login") || MatchesPattern(path, "/forget-password")
                   || MatchesPattern(path, "/message-sent")
  {
    PatternsAreCanonical();
    var c := Canonical(path);
    c == "/login" || c == "/forget-password" || c == "/message-sent"
  }

  /** `path` matches one of the routes declared under the logged-in branch. */
  predicate IsProtected(path: string): (r: bool)
    ensures r <==> MatchesPattern(path, "/dashboard") || MatchesPattern(path, "/users")
                   || MatchesPattern(path, "/")
  {
    PatternsAreCanonical();
    var c := Canonical(path);
    c == "/dashboard" || c == "/users" || c == ""
  }

  /**
   * The route table on a canonical path: a page inside the layout, and the
   * not-found page, only with the session flag set; every redirect replaces
   * the history entry and goes to /login or /dashboard.
   */
  function RouteCanonical(c: string, flag: Option<string>): (r: Outcome)
    ensures r.Render? && (r.inLayout || r.page == NotFoundView) ==> IsLoggedIn(flag)
    ensures r.Render? && r.inLayout <==> IsLoggedIn(flag) && (c == "/dashboard" || c == "/users")
    ensures r.Redirect? ==> r.replace && (r.to == "/login" || r.to == "/dashboard")
  {
    if c == "/login" then Render(LoginView, false)
    else if c == "/forget-password" then Render(ForgetPasswordView, false)
    else if c == "/message-sent" then Render(MessageSentView, false)
    else if IsLoggedIn(flag) then
      if c == "/dashboard" then Render(DashboardView, true)
      else if c == "/users" then Render(UserManagementView, true)
      else if c == "" then Redirect("/dashboard", true)
      else Render(NotFoundView, false)
    else Redirect("/login", true)
  }

  /** The element `App` renders for `path` when the stored flag is `flag`. */
  function Route(path: string, flag: Option<string>): (r: Outcome)
    ensures IsPublic(path) ==> r.Render? && !r.inLayout
    ensures !IsPublic(path) && !IsLoggedIn(flag) ==> r == Redirect("/login", true)
  {
    RouteCanonical(Canonical(path), flag)
  }

  /** The public pages render whatever the flag holds. */
  lemma PublicIgnoresFlag(path: string, flag: Option<string>)
    requires IsPublic(path)
    ensures Route(path, flag) == Route(path, None) && Route(path, flag).Render?
  {
  }

  /** With the session flag set, the three protected routes do what the table says. */
  lemma LoggedInRoutes(flag: Option<string>)
    requires IsLoggedIn(flag)
    ensures Route("/dashboard", flag) == Render(DashboardView, true)
    ensures Route("/users", flag) == Render(UserManagementView, true)
    ensures Route("/", flag) == Redirect("/dashboard", true)
  {
    PatternsAreCanonical();
  }

  /** With the session flag set, any other path shows the not-found page. */
  lemma LoggedInUnknownIsNotFound(path: string, flag: Option<string>)
    requires IsLoggedIn(flag) && !IsPublic(path) && !IsProtected(path)
    ensures Route(path, flag) == Render(NotFoundView, false)
  {
  }

  /** The add and edit pages have no route: a logged-in user gets the not-found page there. */
  lemma AddAndEditAreNotFound(flag: Option<string>)
    requires IsLoggedIn(flag)
    ensures Route("/users/add", flag) == Render(NotFoundView, false)
    ensures Route("/users/edit", flag) == Render(NotFoundView, false)
  {
    CanonicalOfCanonical("/users/add");
    CanonicalOfCanonical("/users/edit");
  }

  /** Without the flag no page other than the three public ones is ever rendered. */
  lemma LoggedOutRendersOnlyPublic(path: string, flag: Option<string>)
    requires !IsLoggedIn(flag)
    ensures Route(path, flag).Render? ==> IsPublic(path)
    ensures Route(path, flag).Render? ==>
              Route(path, flag).page in {LoginView, ForgetPasswordView, MessageSentView}
  {
  }

  /** A trailing slash never changes the outcome. */
  lemma TrailingSlashIgnored(path: string, flag: Option<string>)
    ensures Route(path + "/", flag) == Route(path, flag)
  {
    assert (path + "/")[..|path + "/"| - 1] == path;
  }

  /** Only `/` lower-cases to `/`. */
  lemma LowerSlash(c: char)
    ensures LowerChar(c) == '/' <==> c == '/'
  {
  }

  /** Two paths that agree up to letter case lose the same trailing slashes and stay in agreement. */
  lemma {:induction false} StripAgreesUpToCase(p: string, q: string)
    requires |p| == |q| && forall i :: 0 <= i < |p| ==> LowerChar(p[i]) == LowerChar(q[i])
    ensures |StripTrailingSlashes(p)| == |StripTrailingSlashes(q)|
    ensures Lower(StripTrailingSlashes(p)) == Lower(StripTrailingSlashes(q))
    decreases |p|
  {
    if p != [] && (p[|p| - 1] == '/' || q[|q| - 1] == '/') {
      LowerSlash(p[|p| - 1]);
      LowerSlash(q[|q| - 1]);
      StripAgreesUpToCase(p[..|p| - 1], q[..|q| - 1]);
    } else {
      assert Lower(p) == Lower(q);
    }
  }

  /** Letter case never changes the outcome: paths equal up to case route alike. */
  lemma CaseIgnored(p: string, q: string, flag: Option<string>)
    requires |p| == |q| && forall i :: 0 <= i < |p| ==> LowerChar(p[i]) == LowerChar(q[i])
    ensures Route(p, flag) == Route(q, flag)
  {
    StripAgreesUpToCase(p, q);
  }

  /** In particular a path and its lower-cased form route alike. */
  lemma LowerCaseIgnored(p: string, flag: Option<string>)
    ensures Route(Lower(p), flag) == Route(p, flag)
  {
    CaseIgnored(Lower(p), p, flag);
  }

  /** Following a redirect always ends on a rendered page: there is no redirect loop. */
  lemma RedirectsLandOnPages(path: string, flag: Option<string>)
    ensures Route(path, flag).Redirect? ==> Route(Route(path, flag).to, flag).Render?
  {
    if Route(path, flag).Redirect? {
      if IsLoggedIn(flag) {
        LoggedInRoutes(flag);
      } else {
        PatternsAreCanonical();
      }
    }
  }
}
