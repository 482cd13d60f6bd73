/**
 * The dashboard's logout button.
 */
module Dashboard {
  import opened Wrappers
  import opened Storage
  import opened AppRoutes

  class DashboardPage {
    const storage: LocalStorage

    constructor(storage: LocalStorage)
      ensures this.storage == storage
    {
      this.storage := storage;
    }

    /** `handleLogout`: drop the flag, whatever it held, touch no other key, and go to the login page. */
    method HandleLogout() returns (path: string)
      modifies storage
      ensures storage.items == AfterLogout(old(storage.items))
      ensures !IsLoggedIn(storage.GetItem(LoggedInKey))
      ensures path == "/login"
    {
      storage.RemoveItem(LoggedInKey);
      path := "/login";
    }
  }

  /**
   * The route table in effect is the one `App` built from the flag at the last
   * page load, and logging out does not render `App` again. From a page loaded
   * while logged in, the handler's /login still renders the login page, and
   * going back to /dashboard renders the dashboard again.
   */
  lemma LogoutKeepsLoadedTable(atLoad: map<string, string>)
    requires IsLoggedIn(Lookup(atLoad, LoggedInKey))
    ensures Route("/login", Lookup(atLoad, LoggedInKey)) == Render(LoginView, false)
    ensures Route("/dashboard", Lookup(atLoad, LoggedInKey)) == Render(DashboardView, true)
  {
    LoggedInRoutes(Lookup(atLoad, LoggedInKey));
    PatternsAreCanonical();
  }

  /** On the next full page load after logout every path but the public ones redirects to the login page. */
  lemma LogoutLocksProtectedRoutesOnReload(items: map<string, string>, path: string)
    requires !IsPublic(path)
    ensures Route(path, Lookup(AfterLogout(items), LoggedInKey)) == Redirect("/login", true)
  {
  }
}
