/**
 * The desktop add-user drawer: the form, its alert, and the success screen
 * that appears one timer step after an accepted submit.
 */
module AddUserDesktop {
  import opened Text
  import opened UserForm

  /** What the page shows: the open form, the gap before the success screen, or the success screen. */
  datatype Screen = Editing | Waiting | Success

  class AddUserDesktopForm {
    var formData: FormData
    var errors: Errors
    var showAlert: bool
    var showForm: bool
    var showSuccess: bool
    /** Success timers scheduled by `setTimeout` and not yet fired. */
    var pendingTimers: nat

    /**
     * A flagged field is empty, the alert only sits on the open form, and the
     * three visibility flags and the timer describe exactly one screen.
     */
    ghost predicate Valid()
      reads this
    {
      && FlaggedAreEmpty(formData, errors)
      && (showAlert ==> showForm)
      && (!showForm ==> MissingRequired(formData) == map[])
      && ((showForm && !showSuccess && pendingTimers == 0)
          || (!showForm && !showSuccess && pendingTimers == 1)
          || (!showForm && showSuccess && pendingTimers == 0))
    }

    function CurrentScreen(): Screen
      reads this
    {
      if showForm then Editing else if showSuccess then Success else Waiting
    }

    /**
     * The three lines of the success screen. Once the submit was accepted the
     * email and the permission are shown as entered, never as "N/A"; the name
     * falls back to "N/A" only when both names are blank.
     */
    function ShownSummary(): (s: Summary)
      reads this
      ensures s.fullName != "" && s.email != "" && s.permission != ""
      ensures Valid() && CurrentScreen() == Success ==>
                s.email == formData.email && s.permission == formData.permission
      ensures AllWhitespace(formData.firstName) && AllWhitespace(formData.lastName) ==> s.fullName == "N/A"
      ensures !(AllWhitespace(formData.firstName) && AllWhitespace(formData.lastName)) ==>
                s.fullName == FullName(formData)
    {
      AcceptedIffRequiredFilled(formData);
      assert formData.Get(Email) == formData.email && formData.Get(Permission) == formData.permission;
      SummaryOf(formData)
    }

    constructor()
      ensures Valid() && CurrentScreen() == Editing
      ensures formData == Blank && errors == map[] && !showAlert
    {
      formData, errors := Blank, map[];
      showAlert, showForm, showSuccess := false, true, false;
      pendingTimers := 0;
    }

    /** `handleChange`: store the value of one input and clear its flag. */
    method HandleChange(f: Field, v: string)
      requires Valid() && CurrentScreen() == Editing
      modifies this`formData, this`errors
      ensures Valid() && CurrentScreen() == Editing
      ensures formData == old(formData).Set(f, v)
      ensures errors == old(errors)[f := false]
    {
      ChangeKeepsInvariant(formData, errors, f, v);
      formData := formData.Set(f, v);
      errors := errors[f := false];
    }

    /**
     * `handleSubmit`: with an empty required field the flags are replaced by
     * exactly the empty required fields and the alert is raised, the values
     * untouched; otherwise the alert is cleared, the form hidden and the
     * success timer scheduled.
     */
    method HandleSubmit()
      requires Valid() && CurrentScreen() == Editing
      modifies this`errors, this`showAlert, this`showForm, this`pendingTimers
      ensures Valid()
      ensures MissingRequired(formData) != map[] ==>
                errors == MissingRequired(formData) && showAlert && CurrentScreen() == Editing
      ensures MissingRequired(formData) == map[] ==>
                errors == old(errors) && !showAlert && CurrentScreen() == Waiting
    {
      var newErrors := ComputeErrors(formData);
      if |newErrors| > 0 {
        SubmitEstablishesInvariant(formData);
        errors := newErrors;
        showAlert := true;
        return;
      }
      showAlert := false;
      showForm := false;
      pendingTimers := pendingTimers + 1;
    }

    /** The scheduled `setTimeout` fires and shows the success screen. */
    method Tick()
      requires Valid() && pendingTimers > 0
      modifies this`showSuccess, this`pendingTimers
      ensures Valid() && CurrentScreen() == Success && pendingTimers == old(pendingTimers) - 1
    {
      showSuccess := true;
      pendingTimers := pendingTimers - 1;
    }

    /** The close button of the alert. */
    method DismissAlert()
      requires Valid() && CurrentScreen() == Editing
      modifies this`showAlert
      ensures Valid() && !showAlert
    {
      showAlert := false;
    }

    /** "Finish" and "Add More Users" alike: a blank form reopens; the flags are kept. */
    method StartOver()
      requires Valid() && CurrentScreen() == Success
      modifies this`formData, this`showSuccess, this`showForm
      ensures Valid() && CurrentScreen() == Editing
      ensures formData == Blank && errors == old(errors)
    {
      ResetKeepsInvariant(errors);
      showSuccess := false;
      showForm := true;
      formData := Blank;
    }

    /** "Cancel" leaves for the user list. */
    method Cancel() returns (path: string)
      requires CurrentScreen() == Editing
      ensures path == "/users"
    {
      path := "/users";
    }
  }
}
