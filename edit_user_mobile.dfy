/**
 * The mobile edit-user page: the same dirty-tracking machine over a fixed
 * original record, with a success view that a timer hides again.
 */
module EditUserMobile {
  import opened Wrappers
  import opened UserForm
  import opened EditUser

  /** The simulated fetched record; every key is present and the status is `true`. */
  const Original := UserData(
    Some("John"), Some("Doe"), Some("johndoe@example.com"), Some("johndoe"),
    Some("+2348012345678"), Some("engineering"), Some("admin"), Some(true))

  /** Every key of the record is present. */
  ghost predicate Complete(d: UserData) {
    (forall f :: d.Get(f).Some?) && d.status.Some?
  }

  lemma OriginalComplete()
    ensures Complete(Original)
  {
  }

  /** What the page body shows. */
  datatype View = FormView | SuccessView

  class EditUserMobileForm {
    var formData: UserData
    var isDirty: bool
    var showSuccess: bool
    /** Hide timers scheduled by saving and not yet fired. */
    var pendingTimers: nat

    /** The working copy keeps every key of the original. */
    ghost predicate Valid()
      reads this
    {
      Complete(formData)
    }

    function SaveDisabled(): bool
      reads this
    {
      !isDirty
    }

    /** The success view replaces the form while `showSuccess` holds. */
    function CurrentView(): (v: View)
      reads this
      ensures v == SuccessView <==> showSuccess
    {
      if showSuccess then SuccessView else FormView
    }

    constructor()
      ensures Valid() && formData == Original
      ensures !isDirty && SaveDisabled() && CurrentView() == FormView && pendingTimers == 0
    {
      formData := Original;
      isDirty, showSuccess := false, false;
      pendingTimers := 0;
    }

    /** `handleChange`: store one input and recompute the dirty flag against the original. */
    method HandleChange(f: Field, v: string)
      requires Valid() && CurrentView() == FormView
      modifies this`formData, this`isDirty
      ensures Valid()
      ensures formData == old(formData).Set(f, v)
      ensures isDirty <==> !SameFields(formData, Original)
    {
      formData := formData.Set(f, v);
      isDirty := IsDirty(formData, Original);
    }

    /** `toggleStatus`: negate the status and mark the copy dirty, whatever the result. */
    method ToggleStatus()
      requires Valid() && CurrentView() == FormView
      modifies this`formData, this`isDirty
      ensures Valid()
      ensures formData == old(formData).WithStatusToggled()
      ensures isDirty && !SaveDisabled()
    {
      formData := formData.WithStatusToggled();
      isDirty := true;
    }

    /**
     * The "Save Changes" button: disabled while the copy is clean; when enabled,
     * `handleSave` shows the success view, clears the flag and schedules the hide timer.
     */
    method ClickSave()
      requires Valid() && CurrentView() == FormView
      modifies this`isDirty, this`showSuccess, this`pendingTimers
      ensures Valid()
      ensures old(SaveDisabled()) ==>
                isDirty == old(isDirty) && CurrentView() == FormView && pendingTimers == old(pendingTimers)
      ensures !old(SaveDisabled()) ==>
                CurrentView() == SuccessView && SaveDisabled() && pendingTimers == old(pendingTimers) + 1
    {
      if !SaveDisabled() {
        showSuccess := true;
        isDirty := false;
        pendingTimers := pendingTimers + 1;
      }
    }

    /** A hide timer fires: back to the form, with the saved copy still in it. */
    method Tick()
      requires Valid() && pendingTimers > 0
      modifies this`showSuccess, this`pendingTimers
      ensures Valid() && CurrentView() == FormView
      ensures pendingTimers == old(pendingTimers) - 1
    {
      showSuccess := false;
      pendingTimers := pendingTimers - 1;
    }

    /** "Done" in the success view leaves for the user list. */
    method Done() returns (path: string)
      requires CurrentView() == SuccessView
      ensures path == "/users"
    {
      path := "/users";
    }

    /** "Cancel" under the form leaves for the user list. */
    method Cancel() returns (path: string)
      requires CurrentView() == FormView
      ensures path == "/users"
    {
      path := "/users";
    }
  }

  /** On a complete record a double toggle restores the copy exactly, though `ToggleStatus` leaves the flag set. */
  lemma DoubleToggleRestores(d: UserData)
    requires Complete(d)
    ensures d.WithStatusToggled().WithStatusToggled() == d
    ensures Complete(d.WithStatusToggled())
  {
    ToggleTwice(d);
  }
}
