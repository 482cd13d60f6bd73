/**
 * The `ProtectedRoute` guard: its children when the session flag is exactly
 * "true", a replacing redirect to the login page otherwise.
 */
module ProtectedRoute {
  import opened Wrappers
  import opened Storage

  datatype Guarded<T> = Children(content: T) | RedirectTo(path: string, replace: bool)

  function Protect<T>(flag: Option<string>, children: T): (r: Guarded<T>)
    ensures r.Children? <==> IsLoggedIn(flag)
    ensures r.Children? ==> r.content == children
    ensures r.RedirectTo? ==> r == RedirectTo("/login", true)
  {
    if !IsLoggedIn(flag) then RedirectTo("/login", true) else Children(children)
  }

  /** A missing flag, "false", and "TRUE" all redirect. */
  lemma NearMissesRedirect<T>(children: T)
    ensures Protect(None, children) == RedirectTo("/login", true)
    ensures Protect(Some("false"), children) == RedirectTo("/login", true)
    ensures Protect(Some("TRUE"), children) == RedirectTo("/login", true)
  {
    assert "TRUE"[0] != "true"[0];
  }

  /** After a logout the guard redirects; after a login it passes its children through. */
  lemma GuardFollowsSession<T>(items: map<string, string>, children: T)
    ensures Protect(Lookup(AfterLogout(items), LoggedInKey), children) == RedirectTo("/login", true)
    ensures Protect(Lookup(AfterLogin(items), LoggedInKey), children) == Children(children)
  {
  }
}
