/**
 * The reset-password page: the strength classifier shown under the new
 * password, and the submit handler that compares the two entries.
 */
module ResetPassword {
  import opened Wrappers

  datatype Strength = Weak | Medium | Strong

  /** `password.length`: UTF-16 code units, so a character outside the BMP counts twice. */
  function JsLength(s: string): (n: nat)
    ensures n >= |s|
    ensures (forall i :: 0 <= i < |s| ==> s[i] as int < 0x1_0000) ==> n == |s|
    decreases |s|
  {
    if s == [] then 0 else (if s[0] as int < 0x1_0000 then 1 else 2) + JsLength(s[1..])
  }

  /** The character classes the five regular expressions test. */
  datatype CharClass = Letter | Upper | LowerCase | Digit | Other

  /** `[A-Za-z]`, `[A-Z]`, `[a-z]`, `\d` (ASCII digits) and `[^A-Za-z0-9]`. */
  predicate InClass(c: char, k: CharClass) {
    match k
    case Letter => 'A' <= c <= 'Z' || 'a' <= c <= 'z'
    case Upper => 'A' <= c <= 'Z'
    case LowerCase => 'a' <= c <= 'z'
    case Digit => '0' <= c <= '9'
    case Other => !('A' <= c <= 'Z' || 'a' <= c <= 'z' || '0' <= c <= '9')
  }

  /** `/[...]/.test(s)`: some character of `s` is in the class. */
  function Test(s: string, k: CharClass): (r: bool)
    ensures r <==> exists i :: 0 <= i < |s| && InClass(s[i], k)
    decreases |s|
  {
    if s == [] then false
    else if InClass(s[0], k) then true
    else
      var rest := Test(s[1..], k);
      assert forall i :: 1 <= i < |s| ==> s[i] == s[1..][i - 1];
      rest
  }

  /** The conditions of the "Medium" branch. */
  predicate MediumConditions(p: string) {
    JsLength(p) >= 6 && Test(p, Letter) && Test(p, Digit)
  }

  /** The conditions of the "Strong" branch. */
  predicate StrongConditions(p: string) {
    JsLength(p) >= 8 && Test(p, Upper) && Test(p, LowerCase) && Test(p, Digit) && Test(p, Other)
  }

  /**
   * `checkStrength`. The "Strong" branch comes after the "Medium" one, whose
   * conditions it implies, so the result is always "Weak" or "Medium".
   */
  function CheckStrength(p: string): (r: Strength)
    ensures r != Strong
    ensures r == Medium <==> MediumConditions(p)
    ensures r == Weak <==> !MediumConditions(p)
    ensures JsLength(p) < 6 ==> r == Weak
  {
    if JsLength(p) < 6 then Weak
    else if JsLength(p) >= 6 && Test(p, Letter) && Test(p, Digit) then Medium
    else if StrongConditions(p) then
      StrongImpliesMedium(p);
      Strong
    else Weak
  }

  /** Whatever passes the "Strong" test has already passed the "Medium" test. */
  lemma StrongImpliesMedium(p: string)
    requires StrongConditions(p)
    ensures MediumConditions(p)
  {
    var i :| 0 <= i < |p| && InClass(p[i], Upper);
    assert InClass(p[i], Letter);
  }

  /** A password meeting every "Strong" condition is classified "Medium". */
  lemma StrongCandidateIsMedium()
    ensures StrongConditions("Abcdef1!")
    ensures CheckStrength("Abcdef1!") == Medium
  {
    assert InClass("Abcdef1!"[0], Upper) && InClass("Abcdef1!"[1], LowerCase);
    assert InClass("Abcdef1!"[6], Digit) && InClass("Abcdef1!"[7], Other);
  }

  /** Six code units with a letter and a digit are enough for "Medium"; five never are. */
  lemma MediumThreshold()
    ensures CheckStrength("abc123") == Medium
    ensures CheckStrength("abc12") == Weak
  {
    assert InClass("abc123"[0], Letter) && InClass("abc123"[5], Digit);
  }

  /** The submit handler's reaction: the text of the `alert`, and where it navigates, if anywhere. */
  datatype SubmitResult = SubmitResult(alertMessage: string, navigateTo: Option<string>)

  const MismatchMessage := "Passwords do not match!"
  const ResetMessage := "Your password has been reset successfully!"

  class ResetPasswordForm {
    var newPassword: string
    var confirmPassword: string
    var showNewPassword: bool
    var showConfirmPassword: bool

    constructor()
      ensures newPassword == "" && confirmPassword == ""
      ensures !showNewPassword && !showConfirmPassword
    {
      newPassword, confirmPassword := "", "";
      showNewPassword, showConfirmPassword := false, false;
    }

    method SetNewPassword(v: string)
      modifies this`newPassword
      ensures newPassword == v
    {
      newPassword := v;
    }

    method SetConfirmPassword(v: string)
      modifies this`confirmPassword
      ensures confirmPassword == v
    {
      confirmPassword := v;
    }

    /** The eye icon of the new-password input. */
    method ToggleShowNewPassword()
      modifies this`showNewPassword
      ensures showNewPassword == !old(showNewPassword)
    {
      showNewPassword := !showNewPassword;
    }

    /** The eye icon of the confirm-password input. */
    method ToggleShowConfirmPassword()
      modifies this`showConfirmPassword
      ensures showConfirmPassword == !old(showConfirmPassword)
    {
      showConfirmPassword := !showConfirmPassword;
    }

    /** The strength indicator: present only while the new password is non-empty. */
    function ShownStrength(): (s: Option<Strength>)
      reads this
      ensures s.Some? <==> newPassword != ""
      ensures s.Some? ==> s.value == CheckStrength(newPassword) && s.value != Strong
    {
      if newPassword != "" then Some(CheckStrength(newPassword)) else None
    }

    /**
     * `handleSubmit`: different entries raise the mismatch alert and stay; equal
     * ones raise the success alert and go to the login page, whatever their strength.
     */
    method HandleSubmit() returns (r: SubmitResult)
      ensures newPassword != confirmPassword ==> r == SubmitResult(MismatchMessage, None)
      ensures newPassword == confirmPassword ==> r == SubmitResult(ResetMessage, Some("/login"))
    {
      if newPassword != confirmPassword {
        return SubmitResult(MismatchMessage, None);
      }
      return SubmitResult(ResetMessage, Some("/login"));
    }

    /** "Back to Login". */
    method BackToLogin() returns (path: string)
      ensures path == "/login"
    {
      path := "/login";
    }
  }
}
