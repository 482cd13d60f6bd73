/**
 * The record edited on the two edit-user pages and its dirty test. A record
 * may lack any key, so every field is optional; the dirty test compares the
 * working copy with the original field by field.
 */
module EditUser {
  import opened Wrappers
  import opened UserForm

  /** A user record as the edit form holds it: seven optional strings and an optional status. */
  datatype UserData = UserData(
    firstName: Option<string>,
    lastName: Option<string>,
    email: Option<string>,
    username: Option<string>,
    phone: Option<string>,
    department: Option<string>,
    permission: Option<string>,
    status: Option<bool>)
  {
    function Get(f: Field): Option<string> {
      match f
      case FirstName => firstName
      case LastName => lastName
      case Email => email
      case Username => username
      case Phone => phone
      case Department => department
      case Permission => permission
    }

    /** `{ ...prev, [name]: value }` for one of the seven inputs. */
    function Set(f: Field, v: string): (r: UserData)
      ensures r.Get(f) == Some(v)
      ensures forall g :: g != f ==> r.Get(g) == Get(g)
      ensures r.status == status
    {
      match f
      case FirstName => this.(firstName := Some(v))
      case LastName => this.(lastName := Some(v))
      case Email => this.(email := Some(v))
      case Username => this.(username := Some(v))
      case Phone => this.(phone := Some(v))
      case Department => this.(department := Some(v))
      case Permission => this.(permission := Some(v))
    }

    /** `{ ...prev, status: !prev.status }`, where a missing status is falsy. */
    function WithStatusToggled(): (r: UserData)
      ensures status == Some(true) ==> r.status == Some(false)
      ensures status != Some(true) ==> r.status == Some(true)
      ensures forall f :: r.Get(f) == Get(f)
    {
      this.(status := Some(status != Some(true)))
    }

    /** The status label: "Active" exactly when the status is `true`. */
    function StatusLabel(): (s: string)
      ensures s == "Active" <==> status == Some(true)
      ensures s == "Active" || s == "Inactive"
    {
      if status == Some(true) then "Active" else "Inactive"
    }
  }

  /** Two records agree on every field and on the status. */
  ghost predicate SameFields(a: UserData, b: UserData) {
    (forall f :: a.Get(f) == b.Get(f)) && a.status == b.status
  }

  /** The dirty test: the working copy differs from the original in some field or in the status. */
  function IsDirty(working: UserData, original: UserData): (r: bool)
    ensures r <==> !SameFields(working, original)
  {
    FieldwiseEqual(working, original);
    working != original
  }

  /** Field-wise equality is record equality. */
  lemma FieldwiseEqual(a: UserData, b: UserData)
    ensures a == b <==> SameFields(a, b)
  {
    if SameFields(a, b) {
      assert a.Get(FirstName) == b.Get(FirstName) && a.Get(LastName) == b.Get(LastName);
      assert a.Get(Email) == b.Get(Email) && a.Get(Username) == b.Get(Username);
      assert a.Get(Phone) == b.Get(Phone) && a.Get(Department) == b.Get(Department);
      assert a.Get(Permission) == b.Get(Permission);
    }
  }

  /** A record is never dirty against itself. */
  lemma CleanAgainstItself(a: UserData)
    ensures !IsDirty(a, a)
  {
  }

  /**
   * Typing the original value back into the one field that differed, with the
   * status as in the original, makes the copy clean again.
   */
  lemma RevertMakesClean(working: UserData, original: UserData, f: Field)
    requires original.Get(f).Some?
    requires forall g :: g != f ==> working.Get(g) == original.Get(g)
    requires working.status == original.status
    ensures !IsDirty(working.Set(f, original.Get(f).value), original)
  {
  }

  /** One edit is dirty exactly when the new value differs from the original value of that field. */
  lemma SingleEditDirtyIff(original: UserData, f: Field, v: string)
    ensures IsDirty(original.Set(f, v), original) <==> original.Get(f) != Some(v)
  {
    if original.Get(f) != Some(v) {
      assert original.Set(f, v).Get(f) != original.Get(f);
    }
  }

  /** A key the original lacks stays dirty once typed into, even when cleared again. */
  lemma AbsentKeyStaysDirty(working: UserData, original: UserData, f: Field, v: string)
    requires original.Get(f) == None
    ensures IsDirty(working.Set(f, v), original)
  {
    assert working.Set(f, v).Get(f) != original.Get(f);
  }

  /**
   * Toggling twice restores a record whose status is set, and leaves `false`
   * behind on one whose status is missing.
   */
  lemma ToggleTwice(a: UserData)
    ensures a.status.Some? ==> a.WithStatusToggled().WithStatusToggled() == a
    ensures a.status.None? ==> a.WithStatusToggled().WithStatusToggled() == a.(status := Some(false))
  {
    var twice := a.WithStatusToggled().WithStatusToggled();
    if a.status.Some? {
      if a.status.value {
        assert a.WithStatusToggled().status == Some(false);
      } else {
        assert a.WithStatusToggled().status == Some(true);
      }
      assert twice.status == a.status;
      FieldwiseEqual(twice, a);
    }
  }
}
