/**
 * The add-user form shared by the desktop and mobile pages: seven text fields,
 * the per-field error flags, the required-field check run on submit, and the
 * confirmation summary.
 */
module UserForm {
  import opened Text

  /** The `name` attribute of each input. */
  datatype Field = FirstName | LastName | Email | Username | Phone | Department | Permission

  /** The fields that submit checks, in the order the check visits them. */
  const Required: seq<Field> := [FirstName, LastName, Email, Department, Permission]

  predicate IsRequired(f: Field) { f in Required }

  /** `formData`: the current value of every field. */
  datatype FormData = FormData(
    firstName: string,
    lastName: string,
    email: string,
    username: string,
    phone: string,
    department: string,
    permission: string)
  {
    function Get(f: Field): string {
      match f
      case FirstName => firstName
      case LastName => lastName
      case Email => email
      case Username => username
      case Phone => phone
      case Department => department
      case Permission => permission
    }

    /** `{ ...formData, [f]: v }` */
    function Set(f: Field, v: string): (r: FormData)
      ensures r.Get(f) == v
      ensures forall g :: g != f ==> r.Get(g) == Get(g)
    {
      match f
      case FirstName => this.(firstName := v)
      case LastName => this.(lastName := v)
      case Email => this.(email := v)
      case Username => this.(username := v)
      case Phone => this.(phone := v)
      case Department => this.(department := v)
      case Permission => this.(permission := v)
    }
  }

  /** All seven fields empty: the initial form and the form after a reset. */
  const Blank := FormData("", "", "", "", "", "", "")

  lemma BlankIsEmpty(f: Field)
    ensures Blank.Get(f) == ""
  {
  }

  /** `errors`: a field is flagged when it maps to `true`; other entries and absent keys are not. */
  type Errors = map<Field, bool>

  predicate Flagged(errors: Errors, f: Field) {
    f in errors && errors[f]
  }

  /** The invariant of the form: a flagged field is empty. */
  ghost predicate FlaggedAreEmpty(data: FormData, errors: Errors) {
    forall f :: Flagged(errors, f) ==> data.Get(f) == ""
  }

  /** The `newErrors` map submit builds: `true` for each empty required field, nothing else. */
  function MissingRequired(data: FormData): (r: Errors)
    ensures forall f :: f in r ==> r[f]
    ensures forall f :: IsRequired(f) && data.Get(f) == "" ==> Flagged(r, f)
    ensures forall f :: !IsRequired(f) || data.Get(f) != "" ==> f !in r
    ensures FlaggedAreEmpty(data, r)
  {
    map f | f in Required && data.Get(f) == "" :: true
  }

  /** The `forEach` loop of `handleSubmit` that fills `newErrors`. */
  method ComputeErrors(data: FormData) returns (errors: Errors)
    ensures forall f :: f in errors <==> IsRequired(f) && data.Get(f) == ""
    ensures forall f :: f in errors ==> errors[f]
    ensures errors == MissingRequired(data)
  {
    errors := map[];
    var i := 0;
    while i < |Required|
      invariant 0 <= i <= |Required|
      invariant forall f :: f in errors <==> f in Required[..i] && data.Get(f) == ""
      invariant forall f :: f in errors ==> errors[f]
    {
      var field := Required[i];
      if data.Get(field) == "" {
        errors := errors[field := true];
      }
      assert Required[..i + 1] == Required[..i] + [field];
      i := i + 1;
    }
    assert Required[..i] == Required;
  }

  /** Submit flags exactly the empty required fields; username and phone are never flagged. */
  lemma SubmitFlagsExactlyEmptyRequired(data: FormData, f: Field)
    ensures Flagged(MissingRequired(data), f) <==> IsRequired(f) && data.Get(f) == ""
    ensures !Flagged(MissingRequired(data), Username) && !Flagged(MissingRequired(data), Phone)
  {
  }

  /** Submit is accepted exactly when every required field is filled. */
  lemma AcceptedIffRequiredFilled(data: FormData)
    ensures MissingRequired(data) == map[] <==> forall f :: IsRequired(f) ==> data.Get(f) != ""
  {
    if MissingRequired(data) == map[] {
      forall f | IsRequired(f) ensures data.Get(f) != "" {
        assert f !in MissingRequired(data);
      }
    }
  }

  /** Submitting a blank form flags exactly the five required fields, so it is rejected. */
  lemma BlankSubmitFlagsFive()
    ensures MissingRequired(Blank).Keys == {FirstName, LastName, Email, Department, Permission}
    ensures |MissingRequired(Blank)| == 5
    ensures MissingRequired(Blank) != map[]
  {
    assert FirstName in MissingRequired(Blank);
    assert MissingRequired(Blank).Keys == {FirstName, LastName, Email, Department, Permission};
  }

  /** A change stores the value and clears that field's flag, which keeps the invariant. */
  lemma ChangeKeepsInvariant(data: FormData, errors: Errors, f: Field, v: string)
    requires FlaggedAreEmpty(data, errors)
    ensures FlaggedAreEmpty(data.Set(f, v), errors[f := false])
    ensures forall g :: g != f ==> (Flagged(errors[f := false], g) <==> Flagged(errors, g))
  {
  }

  /** The flags submit sets satisfy the invariant. */
  lemma SubmitEstablishesInvariant(data: FormData)
    ensures FlaggedAreEmpty(data, MissingRequired(data))
  {
  }

  /** A reset to the blank form keeps the invariant whatever the flags are. */
  lemma ResetKeepsInvariant(errors: Errors)
    ensures FlaggedAreEmpty(Blank, errors)
  {
  }

  /** `value || "N/A"` */
  function OrNA(s: string): (r: string)
    ensures r != ""
    ensures s != "" ==> r == s
  {
    if s == "" then "N/A" else s
  }

  /** `${firstName} ${lastName}`.trim(): empty exactly when both names are blank. */
  function FullName(data: FormData): (r: string)
    ensures r == "" <==> AllWhitespace(data.firstName) && AllWhitespace(data.lastName)
  {
    TrimEmptyIff(data.firstName + " " + data.lastName);
    JoinedBlankIff(data.firstName, data.lastName);
    Trim(data.firstName + " " + data.lastName)
  }

  /** The joined name is all whitespace exactly when both parts are. */
  lemma JoinedBlankIff(first: string, last: string)
    ensures AllWhitespace(first + " " + last) <==> AllWhitespace(first) && AllWhitespace(last)
  {
    var s := first + " " + last;
    if AllWhitespace(s) {
      forall i | 0 <= i < |first| ensures IsJsWhitespace(first[i]) {
        assert s[i] == first[i];
      }
      forall i | 0 <= i < |last| ensures IsJsWhitespace(last[i]) {
        assert s[|first| + 1 + i] == last[i];
      }
    }
  }

  /** The three lines of the success summary. */
  datatype Summary = Summary(fullName: string, email: string, permission: string)

  function SummaryOf(data: FormData): (s: Summary)
    ensures s.fullName != "" && s.email != "" && s.permission != ""
    ensures s.email == OrNA(data.email) && s.permission == OrNA(data.permission)
    ensures s.fullName == OrNA(FullName(data))
  {
    Summary(OrNA(FullName(data)), OrNA(data.email), OrNA(data.permission))
  }

  /** A first and a last name with no surrounding whitespace are shown as "first last". */
  lemma SummaryNameOfCleanNames(data: FormData)
    requires data.firstName != "" && !IsJsWhitespace(data.firstName[0])
    requires data.lastName != "" && !IsJsWhitespace(data.lastName[|data.lastName| - 1])
    ensures SummaryOf(data).fullName == data.firstName + " " + data.lastName
  {
    var s := data.firstName + " " + data.lastName;
    assert s[0] == data.firstName[0] && s[|s| - 1] == data.lastName[|data.lastName| - 1];
    TrimNoop(s);
  }

  /** Empty first and last names show "N/A", since the lone space trims away. */
  lemma SummaryNameOfNoNames(data: FormData)
    requires data.firstName == "" && data.lastName == ""
    ensures SummaryOf(data).fullName == "N/A"
  {
    TrimAllWhitespace(" ");
  }
}
