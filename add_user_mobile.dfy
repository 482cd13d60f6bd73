/**
 * The mobile add-user page: the same form and check as on the desktop, but
 * the form stays on screen until the success timer fires, and the success
 * view replaces it while `success` holds.
 */
module AddUserMobile {
  import opened UserForm

  /** What the page body shows under the (independent) alert. */
  datatype View = FormView | SuccessView(summary: Summary)

  class AddUserMobileForm {
    var formData: FormData
    var errors: Errors
    var showAlert: bool
    var success: bool
    /** Success timers scheduled by `setTimeout` and not yet fired. */
    var pendingTimers: nat

    ghost predicate Valid()
      reads this
    {
      FlaggedAreEmpty(formData, errors)
    }

    /** The body of the page: the summary while `success` holds, the form otherwise. */
    function CurrentView(): (v: View)
      reads this
      ensures v.SuccessView? <==> success
      ensures v == FormView <==> !success
      ensures v.SuccessView? ==> v.summary == SummaryOf(formData)
    {
      if success then SuccessView(SummaryOf(formData)) else FormView
    }

    constructor()
      ensures Valid() && !success
      ensures formData == Blank && errors == map[] && !showAlert && pendingTimers == 0
    {
      formData, errors := Blank, map[];
      showAlert, success := false, false;
      pendingTimers := 0;
    }

    /** `handleChange`: store the value of one input and clear its flag. */
    method HandleChange(f: Field, v: string)
      requires Valid() && !success
      modifies this`formData, this`errors
      ensures Valid()
      ensures formData == old(formData).Set(f, v)
      ensures errors == old(errors)[f := false]
    {
      ChangeKeepsInvariant(formData, errors, f, v);
      formData := formData.Set(f, v);
      errors := errors[f := false];
    }

    /**
     * `handleSubmit`: a rejected submit replaces the flags and raises the
     * alert; an accepted one clears the alert and schedules the success
     * timer. The form stays on screen in both cases.
     */
    method HandleSubmit()
      requires Valid() && !success
      modifies this`errors, this`showAlert, this`pendingTimers
      ensures Valid() && !success
      ensures MissingRequired(formData) != map[] ==>
                errors == MissingRequired(formData) && showAlert && pendingTimers == old(pendingTimers)
      ensures MissingRequired(formData) == map[] ==>
                errors == old(errors) && !showAlert && pendingTimers == old(pendingTimers) + 1
    {
      var newErrors := ComputeErrors(formData);
      if |newErrors| > 0 {
        SubmitEstablishesInvariant(formData);
        errors := newErrors;
        showAlert := true;
        return;
      }
      showAlert := false;
      pendingTimers := pendingTimers + 1;
    }

    /** A scheduled `setTimeout` fires and the success view replaces the form. */
    method Tick()
      requires Valid() && pendingTimers > 0
      modifies this`success, this`pendingTimers
      ensures Valid() && success
      ensures pendingTimers == old(pendingTimers) - 1
    {
      success := true;
      pendingTimers := pendingTimers - 1;
    }

    /** The close button of the alert. */
    method DismissAlert()
      requires Valid()
      modifies this`showAlert
      ensures Valid() && !showAlert
    {
      showAlert := false;
    }

    /** "Finish": all seven fields blank and back to the form; the flags are kept. */
    method Finish()
      requires Valid() && success
      modifies this`formData, this`success
      ensures Valid() && !success
      ensures formData == Blank && errors == old(errors)
    {
      ResetKeepsInvariant(errors);
      formData := Blank;
      success := false;
    }

    /** "Add more Users" leaves for the user list without resetting anything. */
    method AddMoreUsers() returns (path: string)
      requires success
      ensures path == "/users"
    {
      path := "/users";
    }

    /** "Cancel" leaves for the user list. */
    method Cancel() returns (path: string)
      requires !success
      ensures path == "/users"
    {
      path := "/users";
    }
  }
}
