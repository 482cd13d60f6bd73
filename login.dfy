/**
 * The login page: the fixed credential pair, and the submit handler that
 * writes the session flag and moves on to the dashboard.
 */
module Login {
  import opened Wrappers
  import opened Text
  import opened Storage
  import opened AppRoutes

  const ValidEmail := "onlyteshcodes@gmail.com"
  const ValidPassword := "password@1."
  const InvalidMessage := "Invalid credentials!"

  /** Exact, case-sensitive equality with both constants. */
  predicate CredentialsMatch(email: string, password: string) {
    email == ValidEmail && password == ValidPassword
  }

  /** Any email or password that differs from the constant, even only in letter case, is rejected. */
  lemma CredentialsAreCaseSensitive(email: string, password: string)
    requires (email != ValidEmail && Lower(email) == Lower(ValidEmail))
             || (password != ValidPassword && Lower(password) == Lower(ValidPassword))
    ensures !CredentialsMatch(email, password)
  {
  }

  /** Such case variants exist: a capitalised address and a capitalised password. */
  lemma CaseVariantsExist()
    ensures "Onlyteshcodes@gmail.com" != ValidEmail && Lower("Onlyteshcodes@gmail.com") == Lower(ValidEmail)
    ensures "Password@1." != ValidPassword && Lower("Password@1.") == Lower(ValidPassword)
  {
    assert "Onlyteshcodes@gmail.com"[0] != ValidEmail[0];
    assert "Password@1."[0] != ValidPassword[0];
    var e := "Onlyteshcodes@gmail.com";
    assert forall i :: 1 <= i < |e| ==> e[i] == ValidEmail[i];
    var p := "Password@1.";
    assert forall i :: 1 <= i < |p| ==> p[i] == ValidPassword[i];
  }

  /** The handler's reaction: the `alert` text, if any, and the navigation target, if any. */
  datatype SubmitResult = SubmitResult(alertMessage: Option<string>, navigateTo: Option<string>)

  class LoginPage {
    var email: string
    var password: string
    var showPassword: bool
    const storage: LocalStorage

    constructor(storage: LocalStorage)
      ensures this.storage == storage
      ensures email == "" && password == "" && !showPassword
    {
      this.storage := storage;
      email, password, showPassword := "", "", false;
    }

    method SetEmail(v: string)
      modifies this`email
      ensures email == v
    {
      email := v;
    }

    method SetPassword(v: string)
      modifies this`password
      ensures password == v
    {
      password := v;
    }

    /** The eye icon of the password input. */
    method ToggleShowPassword()
      modifies this`showPassword
      ensures showPassword == !old(showPassword)
    {
      showPassword := !showPassword;
    }

    /**
     * `handleSubmit`: the right pair sets the flag and goes to the dashboard;
     * any other pair raises the same alert and leaves the storage as it was.
     */
    method HandleSubmit() returns (r: SubmitResult)
      modifies storage
      ensures CredentialsMatch(email, password) ==>
                storage.items == AfterLogin(old(storage.items)) && r == SubmitResult(None, Some("/dashboard"))
      ensures !CredentialsMatch(email, password) ==>
                storage.items == old(storage.items) && r == SubmitResult(Some(InvalidMessage), None)
      ensures CredentialsMatch(email, password) <==> IsLoggedIn(storage.GetItem(LoggedInKey)) && r.alertMessage.None?
    {
      if CredentialsMatch(email, password) {
        storage.SetItem(LoggedInKey, "true");
        r := SubmitResult(None, Some("/dashboard"));
      } else {
        r := SubmitResult(Some(InvalidMessage), None);
      }
    }

    /** "Forgot Password?". */
    method ForgotPassword() returns (path: string)
      ensures path == "/forget-password"
    {
      path := "/forget-password";
    }
  }

  /**
   * `App` builds the route table from the flag it read when it last rendered,
   * and the handler's navigation does not render `App` again. A login from a
   * page loaded while logged out therefore finds /dashboard under the
   * logged-out table, which redirects back to /login, and the login page stays.
   */
  lemma LoginNavigationRedirectsBack(atLoad: map<string, string>)
    requires !IsLoggedIn(Lookup(atLoad, LoggedInKey))
    ensures Route("/dashboard", Lookup(atLoad, LoggedInKey)) == Redirect("/login", true)
    ensures Route("/login", Lookup(atLoad, LoggedInKey)) == Render(LoginView, false)
  {
    PatternsAreCanonical();
  }

  /** On the next full page load `App` reads the flag the login wrote, and /dashboard renders inside the layout. */
  lemma LoginOpensDashboardOnReload(items: map<string, string>)
    ensures Route("/dashboard", Lookup(AfterLogin(items), LoggedInKey)) == Render(DashboardView, true)
  {
    LoggedInRoutes(Lookup(AfterLogin(items), LoggedInKey));
  }
}
