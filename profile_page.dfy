/**
 * The profile form (src/pages/ProfilePage.js): its initialisation from the signed-in
 * user, `handleChange`, `validateForm` and the submit, with the success and error banners.
 */
module ProfilePage {
  import opened Text
  import opened JsValue
  import opened QuizService
  import Forms

  /** The form's inputs, by their `name`s. */
  datatype ProfileField =
    Username | FirstName | LastName | Email | Phone | Age | City | Country | Occupation | EducationLevel

  const AllProfileFields := {Username, FirstName, LastName, Email, Phone, Age, City, Country, Occupation, EducationLevel}

  /** The property of `currentUser` each input is filled from. */
  function KeyName(k: ProfileField): string {
    match k
    case Username => "username"
    case FirstName => "firstName"
    case LastName => "lastName"
    case Email => "email"
    case Phone => "phone"
    case Age => "age"
    case City => "city"
    case Country => "country"
    case Occupation => "occupation"
    case EducationLevel => "educationLevel"
  }

  /** `formData[k]`: a missing input reads as `undefined`. */
  function Lookup(form: map<ProfileField, Value>, k: ProfileField): Value {
    if k in form then form[k] else Undefined
  }

  /** The empty form the page starts with. */
  function EmptyProfile(): (r: map<ProfileField, Value>)
    ensures r.Keys == AllProfileFields
    ensures forall k :: k in r ==> r[k] == Str("")
  {
    map k | k in AllProfileFields :: Str("")
  }

  /** The form the effect builds from a signed-in user: each field is the user's property `|| ''`. */
  function ProfileOf(user: Value): (r: map<ProfileField, Value>)
    ensures r.Keys == AllProfileFields
    ensures forall k :: k in r ==> r[k] == Or(Get(user, KeyName(k)), Str(""))
  {
    map k | k in AllProfileFields :: Or(Get(user, KeyName(k)), Str(""))
  }

  /** A property the user lacks, or holds a falsy value in, starts as ''; a truthy one is kept. */
  lemma MissingFieldsStartEmpty(user: Value, k: ProfileField)
    ensures !Truthy(Get(user, KeyName(k))) ==> Lookup(ProfileOf(user), k) == Str("")
    ensures Truthy(Get(user, KeyName(k))) ==> Lookup(ProfileOf(user), k) == user.fields[KeyName(k)]
  {
    assert k in AllProfileFields;
  }

  const UsernameRequired := "Username is required"
  const FirstNameRequired := "First name is required"
  const LastNameRequired := "Last name is required"
  const EmailRequired := "Email is required"
  const EmailInvalid := "Email is invalid"
  const AgeRange := "Age must be between 13 and 120"
  const ErrorKeys := {Username, FirstName, LastName, Email, Age}

  /**
   * `/\S+@\S+\.\S+/.test(s)`, unanchored: somewhere in `s` a non-space character, an '@',
   * a non-empty run of non-space characters, a '.', and a non-space character.
   */
  predicate ProfileEmailShape(s: string) {
    exists at, dot :: 0 < at && at + 1 < dot && dot + 1 < |s| && s[at] == '@' && s[dot] == '.'
      && !IsSpace(s[at - 1]) && !IsSpace(s[dot + 1]) && NoSpaceBetween(s, at, dot)
  }

  predicate NoSpaceBetween(s: string, i: int, j: int)
    requires 0 <= i <= j <= |s|
  {
    forall k :: i < k < j ==> !IsSpace(s[k])
  }

  /** `age && (age < 13 || age > 120)`: a value that is not a number compares false both ways. */
  predicate AgeOutOfRange(age: Value) {
    var n := NumberOf(age);
    Truthy(age) && n.Some? && (n.value < 13 || n.value > 120)
  }

  predicate IsText(form: map<ProfileField, Value>, k: ProfileField) {
    Lookup(form, k).Str?
  }

  /** A form `validateForm` accepts. */
  predicate ProfileValid(form: map<ProfileField, Value>) {
    && IsText(form, Username) && !IsBlank(Lookup(form, Username).s)
    && IsText(form, FirstName) && !IsBlank(Lookup(form, FirstName).s)
    && IsText(form, LastName) && !IsBlank(Lookup(form, LastName).s)
    && IsText(form, Email) && !IsBlank(Lookup(form, Email).s) && ProfileEmailShape(Lookup(form, Email).s)
    && !AgeOutOfRange(Lookup(form, Age))
  }

  /**
   * `validateForm`'s `newErrors`. The four `trim` calls run in order, and the first field
   * that is not a string throws.
   */
  method ValidateProfile(form: map<ProfileField, Value>) returns (r: Outcome<map<ProfileField, string>, string>)
    ensures r.Returned? <==> IsText(form, Username) && IsText(form, FirstName) && IsText(form, LastName) && IsText(form, Email)
    ensures !IsText(form, Username) ==> r == Threw(CallTrim(Lookup(form, Username)).error)
    ensures IsText(form, Username) && !IsText(form, FirstName) ==> r == Threw(CallTrim(Lookup(form, FirstName)).error)
    ensures IsText(form, Username) && IsText(form, FirstName) && !IsText(form, LastName) ==>
              r == Threw(CallTrim(Lookup(form, LastName)).error)
    ensures IsText(form, Username) && IsText(form, FirstName) && IsText(form, LastName) && !IsText(form, Email) ==>
              r == Threw(CallTrim(Lookup(form, Email)).error)
    ensures r.Returned? ==> r.value.Keys <= ErrorKeys
    ensures r.Returned? ==> (Username in r.value <==> IsBlank(Lookup(form, Username).s))
    ensures r.Returned? ==> (FirstName in r.value <==> IsBlank(Lookup(form, FirstName).s))
    ensures r.Returned? ==> (LastName in r.value <==> IsBlank(Lookup(form, LastName).s))
    ensures r.Returned? ==> (Email in r.value <==> IsBlank(Lookup(form, Email).s) || !ProfileEmailShape(Lookup(form, Email).s))
    ensures r.Returned? ==> (Age in r.value <==> AgeOutOfRange(Lookup(form, Age)))
    ensures r.Returned? && Username in r.value ==> r.value[Username] == UsernameRequired
    ensures r.Returned? && FirstName in r.value ==> r.value[FirstName] == FirstNameRequired
    ensures r.Returned? && LastName in r.value ==> r.value[LastName] == LastNameRequired
    ensures r.Returned? && Email in r.value ==>
              r.value[Email] == if IsBlank(Lookup(form, Email).s) then EmailRequired else EmailInvalid
    ensures r.Returned? && Age in r.value ==> r.value[Age] == AgeRange
  {
    var newErrors: map<ProfileField, string> := map[];
    var step := RequireText(form, Username, UsernameRequired, newErrors);
    if step.Threw? {
      return Threw(step.error);
    }
    step := RequireText(form, FirstName, FirstNameRequired, step.value);
    if step.Threw? {
      return Threw(step.error);
    }
    step := RequireText(form, LastName, LastNameRequired, step.value);
    if step.Threw? {
      return Threw(step.error);
    }
    step := RequireText(form, Email, EmailRequired, step.value);
    if step.Threw? {
      return Threw(step.error);
    }
    newErrors := step.value;
    if !IsBlank(Lookup(form, Email).s) && !ProfileEmailShape(Lookup(form, Email).s) {
      newErrors := newErrors[Email := EmailInvalid];
    }
    if AgeOutOfRange(Lookup(form, Age)) {
      newErrors := newErrors[Age := AgeRange];
    }
    return Returned(newErrors);
  }

  /** One `if (!formData[k].trim()) newErrors[k] = message` step; a field that is not a string throws. */
  method RequireText(form: map<ProfileField, Value>, k: ProfileField, message: string, errors: map<ProfileField, string>)
    returns (r: Outcome<map<ProfileField, string>, string>)
    ensures r.Returned? <==> IsText(form, k)
    ensures r.Threw? ==> r.error == CallTrim(Lookup(form, k)).error
    ensures r.Returned? ==> r.value == if IsBlank(Lookup(form, k).s) then errors[k := message] else errors
  {
    match CallTrim(Lookup(form, k))
    case Threw(e) =>
      return Threw(e);
    case Returned(trimmed) =>
      if trimmed == "" {
        return Returned(errors[k := message]);
      }
      return Returned(errors);
  }

  /** The four fields `validateForm` trims all hold text, so none of the `trim` calls throws. */
  predicate TrimmedAreText(form: map<ProfileField, Value>) {
    IsText(form, Username) && IsText(form, FirstName) && IsText(form, LastName) && IsText(form, Email)
  }

  /**
   * `m` is the error map `validateForm` builds for `form`: one entry for each failed
   * check, holding that check's message.
   */
  predicate ProfileErrorsOf(form: map<ProfileField, Value>, m: map<ProfileField, string>) {
    && TrimmedAreText(form) && m.Keys <= ErrorKeys
    && (Username in m <==> IsBlank(Lookup(form, Username).s))
    && (FirstName in m <==> IsBlank(Lookup(form, FirstName).s))
    && (LastName in m <==> IsBlank(Lookup(form, LastName).s))
    && (Email in m <==> IsBlank(Lookup(form, Email).s) || !ProfileEmailShape(Lookup(form, Email).s))
    && (Age in m <==> AgeOutOfRange(Lookup(form, Age)))
    && (Username in m ==> m[Username] == UsernameRequired)
    && (FirstName in m ==> m[FirstName] == FirstNameRequired)
    && (LastName in m ==> m[LastName] == LastNameRequired)
    && (Email in m ==> m[Email] == if IsBlank(Lookup(form, Email).s) then EmailRequired else EmailInvalid)
    && (Age in m ==> m[Age] == AgeRange)
  }

  /** The description fixes the map: a form has exactly one error map. */
  lemma ProfileErrorsDetermined(form: map<ProfileField, Value>, m1: map<ProfileField, string>, m2: map<ProfileField, string>)
    requires ProfileErrorsOf(form, m1) && ProfileErrorsOf(form, m2)
    ensures m1 == m2
  {
    assert m1.Keys == m2.Keys;
  }

  /** The error map of `form` is empty exactly when the form is valid. */
  lemma NoProfileErrorsIffValid(form: map<ProfileField, Value>, m: map<ProfileField, string>)
    requires ProfileErrorsOf(form, m)
    ensures m == map[] <==> ProfileValid(form)
  {
    if ProfileValid(form) {
      assert m.Keys == {};
    }
  }

  /** The pattern matches as soon as one '@' and one later '.' are placed as it asks. */
  lemma EmailShapeAt(s: string, at: int, dot: int)
    requires 0 < at && at + 1 < dot && dot + 1 < |s| && s[at] == '@' && s[dot] == '.'
    requires !IsSpace(s[at - 1]) && !IsSpace(s[dot + 1]) && NoSpaceBetween(s, at, dot)
    ensures ProfileEmailShape(s)
  {
  }

  /** The pattern is not anchored: text around an address does not matter. */
  lemma EmailExamples()
    ensures ProfileEmailShape("a@b.c")
    ensures ProfileEmailShape("x a@b.c y")
  {
    EmailShapeAt("a@b.c", 1, 3);
    EmailShapeAt("x a@b.c y", 3, 5);
  }

  /** An address needs text before its '@'. */
  lemma EmailNeedsLocalPart()
    ensures !ProfileEmailShape("@bc.de")
  {
    var s := "@bc.de";
    forall at: int, dot: int
      ensures !(0 < at && at + 1 < dot && dot + 1 < |s| && s[at] == '@' && s[dot] == '.')
    {
      if 0 < at && at + 1 < dot && dot + 1 < |s| {
        assert s[at] != '@';
      }
    }
  }

  /** White space between the '@' and the '.' is refused. */
  lemma EmailRefusesInnerSpace()
    ensures !ProfileEmailShape("a@b c.d")
  {
    var t := "a@b c.d";
    forall at: int, dot: int
      ensures !(0 < at && at + 1 < dot && dot + 1 < |t| && t[at] == '@' && t[dot] == '.' && NoSpaceBetween(t, at, dot))
    {
      if 0 < at && at + 1 < dot && dot + 1 < |t| && t[at] == '@' && t[dot] == '.' {
        assert at == 1 && dot == 5;
        assert IsSpace(t[3]);
      }
    }
  }

  /** An age typed as a number is refused exactly outside 13..120. */
  lemma AgeTextInRange(n: int)
    ensures AgeOutOfRange(Str(IntToString(n))) <==> n < 13 || n > 120
  {
    StringToNumberOfIntToString(n);
  }

  /** An empty age and one that is not a number are not checked. */
  lemma AgeUnchecked()
    ensures !AgeOutOfRange(Str("")) && !AgeOutOfRange(Str("abc"))
  {
    NumberOfNonNumeric("abc");
  }

  /** The profile page's state, with the forms it sends to `updateProfile`. */
  class Page {
    var form: map<ProfileField, Value>
    var errors: map<ProfileField, string>
    var isSubmitting: bool
    var successMessage: string
    var error: string
    var requests: seq<map<ProfileField, Value>>

    constructor()
      ensures form == EmptyProfile() && errors == map[] && !isSubmitting
      ensures successMessage == "" && error == "" && requests == []
    {
      form := EmptyProfile();
      errors := map[];
      isSubmitting := false;
      successMessage := "";
      error := "";
      requests := [];
    }

    /** The effect on `currentUser`: a signed-in user fills the form; no user leaves it as it is. */
    method LoadUser(currentUser: Value)
      modifies this
      ensures form == if Truthy(currentUser) then ProfileOf(currentUser) else old(form)
      ensures errors == old(errors) && isSubmitting == old(isSubmitting) && requests == old(requests)
      ensures successMessage == old(successMessage) && error == old(error)
    {
      if Truthy(currentUser) {
        form := ProfileOf(currentUser);
      }
    }

    /** `handleChange`: the field takes the text, its error is cleared, and both banners are emptied. */
    method HandleChange(k: ProfileField, value: string)
      modifies this
      ensures form == old(form)[k := Str(value)]
      ensures errors == Forms.ClearError(old(errors), k)
      ensures successMessage == "" && error == ""
      ensures isSubmitting == old(isSubmitting) && requests == old(requests)
    {
      form := form[k := Str(value)];
      errors := Forms.ClearError(errors, k);
      if successMessage != "" {
        successMessage := "";
      }
      if error != "" {
        error := "";
      }
    }

    /** `validateForm`: stores the new errors and answers whether there are none. */
    method ValidateForm() returns (valid: Outcome<bool, string>)
      modifies this
      ensures valid.Returned? <==> TrimmedAreText(form)
      ensures valid.Returned? ==> ProfileErrorsOf(form, errors)
      ensures valid.Returned? ==> (valid.value <==> errors == map[]) && (valid.value <==> ProfileValid(form))
      ensures valid.Threw? ==> errors == old(errors)
      ensures form == old(form) && isSubmitting == old(isSubmitting) && requests == old(requests)
      ensures successMessage == old(successMessage) && error == old(error)
    {
      var r := ValidateProfile(form);
      match r {
        case Returned(newErrors) =>
          NoProfileErrorsIffValid(form, newErrors);
          errors := newErrors;
          valid := Returned(|newErrors| == 0);
        case Threw(message) =>
          valid := Threw(message);
      }
    }

    /**
     * `handleSubmit`: only a valid form is sent. Success shows the success banner; failure
     * shows the server's error or the fixed text, and leaves an earlier success banner as it was.
     */
    method HandleSubmit(o: ApiOutcome)
      modifies this
      ensures form == old(form)
      ensures requests == if ProfileValid(old(form)) then old(requests) + [old(form)] else old(requests)
      ensures !ProfileValid(old(form)) ==>
                isSubmitting == old(isSubmitting) && successMessage == old(successMessage) && error == old(error)
      ensures TrimmedAreText(old(form)) ==> ProfileErrorsOf(old(form), errors)
      ensures !TrimmedAreText(old(form)) ==> errors == old(errors)
      ensures ProfileValid(old(form)) ==> !isSubmitting && errors == map[]
      ensures ProfileValid(old(form)) && PlainCall(o).Returned? ==>
                successMessage == "Profile updated successfully!" && error == ""
      ensures ProfileValid(old(form)) && PlainCall(o).Threw? ==>
                successMessage == old(successMessage) && error == ServerErrorOr(PlainCall(o).error, "Failed to update profile")
    {
      var valid := ValidateForm();
      if valid.Threw? || !valid.value {
        return;
      }
      isSubmitting := true;
      error := "";
      requests := requests + [form];
      match PlainCall(o) {
        case Returned(_) =>
          successMessage := "Profile updated successfully!";
        case Threw(e) =>
          error := ServerErrorOr(e, "Failed to update profile");
      }
      isSubmitting := false;
    }
  }
}
