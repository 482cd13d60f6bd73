/**
 * The desktop edit-user drawer: a working copy of the record passed by the
 * router (or of a fallback record), its dirty flag, and the success modal.
 */
module EditUserDesktop {
  import opened Wrappers
  import opened UserForm
  import opened EditUser

  /** The sample record used when the router passes none. */
  const Fallback := UserData(
    Some("John"), Some("Doe"), Some("johndoe@example.com"), Some("johndoe"),
    Some("+2348012345678"), Some("engineering"), Some("user"), Some(true))

  /** `userData || fallbackUser`: a passed record is an object, and so truthy. */
  function InitialRecord(passed: Option<UserData>): (r: UserData)
    ensures passed.Some? ==> r == passed.value
    ensures passed.None? ==> r == Fallback && r.status == Some(true)
  {
    passed.GetOr(Fallback)
  }

  class EditUserDesktopForm {
    /** `existingUser`, the record the working copy is compared with. */
    const original: UserData
    var formData: UserData
    var isDirty: bool
    var showSuccess: bool

    /** Save is disabled exactly when the copy is not dirty. */
    function SaveDisabled(): bool
      reads this
    {
      !isDirty
    }

    constructor(passed: Option<UserData>)
      ensures original == InitialRecord(passed) && formData == original
      ensures !isDirty && SaveDisabled() && !showSuccess
    {
      original := InitialRecord(passed);
      formData := InitialRecord(passed);
      isDirty, showSuccess := false, false;
    }

    /** `handleChange`: store one input and recompute the dirty flag against the original. */
    method HandleChange(f: Field, v: string)
      modifies this`formData, this`isDirty
      ensures formData == old(formData).Set(f, v)
      ensures isDirty <==> !SameFields(formData, original)
      ensures SaveDisabled() <==> SameFields(formData, original)
    {
      formData := formData.Set(f, v);
      isDirty := IsDirty(formData, original);
    }

    /** `toggleStatus`: negate the status and mark the copy dirty, whatever the result. */
    method ToggleStatus()
      modifies this`formData, this`isDirty
      ensures formData == old(formData).WithStatusToggled()
      ensures isDirty && !SaveDisabled()
    {
      formData := formData.WithStatusToggled();
      isDirty := true;
    }

    /**
     * The "Save Changes" button. It is disabled while the copy is clean; when
     * enabled, `handleSave` shows the modal and clears the flag, keeping the copy.
     */
    method ClickSave()
      modifies this`isDirty, this`showSuccess
      ensures old(SaveDisabled()) ==> isDirty == old(isDirty) && showSuccess == old(showSuccess)
      ensures !old(SaveDisabled()) ==> showSuccess && !isDirty && SaveDisabled()
    {
      if !SaveDisabled() {
        showSuccess := true;
        isDirty := false;
      }
    }

    /** "Back to Users" in the modal: hide it and leave for the user list. */
    method BackToUsers() returns (path: string)
      requires showSuccess
      modifies this`showSuccess
      ensures !showSuccess && path == "/users"
    {
      showSuccess := false;
      path := "/users";
    }

    /** The close button of the drawer. */
    method Close() returns (path: string)
      ensures path == "/users"
    {
      path := "/users";
    }
  }
}
