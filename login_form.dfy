/**
 * The sign-in form shared by the login card (src/components/Auth/Login.js) and the login
 * page (src/pages/LoginPage.js): the two fields, `handleChange`, `validateForm` and the
 * redirect chosen from the signed-in role. Both inputs only ever hold text.
 */
module LoginForm {
  import opened Text
  import opened JsValue
  import Forms

  datatype LoginField = Username | Password

  datatype Credentials = Credentials(username: string, password: string)

  const EmptyCredentials := Credentials("", "")

  const UsernameRequired := "Username is required"
  const PasswordRequired := "Password is required"
  const LoginFailed := "Login failed. Please check your credentials."

  /** `{...prev, [name]: value}`. */
  function SetField(c: Credentials, k: LoginField, value: string): (r: Credentials)
    ensures k == Username ==> r == c.(username := value)
    ensures k == Password ==> r == c.(password := value)
  {
    match k
    case Username => c.(username := value)
    case Password => c.(password := value)
  }

  /** A sign-in `validateForm` accepts: a username that is not blank and a password that is not empty. */
  predicate LoginValid(c: Credentials) {
    !IsBlank(c.username) && c.password != ""
  }

  /** `m` is the error map `validateForm` builds for `c`: an entry with its message for each missing field. */
  predicate LoginErrorsOf(c: Credentials, m: map<LoginField, string>) {
    && (Username in m <==> IsBlank(c.username))
    && (Password in m <==> c.password == "")
    && (Username in m ==> m[Username] == UsernameRequired)
    && (Password in m ==> m[Password] == PasswordRequired)
  }

  /** The description fixes the map: a sign-in form has exactly one error map. */
  lemma LoginErrorsDetermined(c: Credentials, m1: map<LoginField, string>, m2: map<LoginField, string>)
    requires LoginErrorsOf(c, m1) && LoginErrorsOf(c, m2)
    ensures m1 == m2
  {
    forall k: LoginField ensures (k in m1 <==> k in m2) && (k in m1 ==> m1[k] == m2[k]) {
      match k
      case Username =>
      case Password =>
    }
    assert m1.Keys == m2.Keys;
  }

  /** `validateForm`'s `newErrors`. The username is trimmed, the password is not. */
  method ValidateLogin(c: Credentials) returns (newErrors: map<LoginField, string>)
    ensures Username in newErrors <==> IsBlank(c.username)
    ensures Password in newErrors <==> c.password == ""
    ensures Username in newErrors ==> newErrors[Username] == UsernameRequired
    ensures Password in newErrors ==> newErrors[Password] == PasswordRequired
    ensures newErrors == map[] <==> LoginValid(c)
  {
    newErrors := map[];
    TrimEmptyIffBlank(c.username);
    if Trim(c.username) == "" {
      newErrors := newErrors[Username := UsernameRequired];
    }
    if c.password == "" {
      newErrors := newErrors[Password := PasswordRequired];
    }
    assert Username !in newErrors && Password !in newErrors ==> newErrors.Keys == {};
  }

  /** A password of spaces is accepted, a username of spaces is not. */
  lemma OnlyUsernameIsTrimmed()
    ensures LoginValid(Credentials("demo", " "))
    ensures !LoginValid(Credentials(" ", "demo123"))
  {
    assert IsSpace(" "[0]);
    assert !IsSpace("demo"[0]);
  }

  /** `navigate(role === 'ADMIN' ? '/admin' : '/dashboard')`. */
  function RedirectFor(role: Value): (r: string)
    ensures r == "/admin" <==> role == Str("ADMIN")
    ensures r != "/admin" ==> r == "/dashboard"
  {
    if role == Str("ADMIN") then "/admin" else "/dashboard"
  }

  /** The demo buttons of the login card. */
  datatype DemoRole = AdminDemo | PlayerDemo

  /** `demoCredentials[role]`. */
  function DemoCredentials(role: DemoRole): (r: Credentials)
    ensures role.AdminDemo? ==> r == Credentials("admin", "op@1234")
    ensures role.PlayerDemo? ==> r == Credentials("demo", "demo123")
  {
    match role
    case AdminDemo => Credentials("admin", "op@1234")
    case PlayerDemo => Credentials("demo", "demo123")
  }

  /** Both demo pairs pass validation. */
  lemma DemoCredentialsAreValid(role: DemoRole)
    ensures LoginValid(DemoCredentials(role))
  {
    var c := DemoCredentials(role);
    assert !IsSpace(c.username[0]);
  }

  /** The state both sign-in forms keep, and the `handleChange` they share. */
  class State {
    var form: Credentials
    var errors: map<LoginField, string>
    var isSubmitting: bool
    var authError: string
    /** `login(user, token)` calls made on the auth context, and `navigate` targets. */
    var sessions: seq<(Value, Value)>
    var navigations: seq<string>

    constructor()
      ensures form == EmptyCredentials && errors == map[] && !isSubmitting && authError == ""
      ensures sessions == [] && navigations == []
    {
      form := EmptyCredentials;
      errors := map[];
      isSubmitting := false;
      authError := "";
      sessions := [];
      navigations := [];
    }

    /** `handleChange`: the field takes the text, its error is cleared, and so is `authError`. */
    method HandleChange(k: LoginField, value: string)
      modifies this
      ensures form == SetField(old(form), k, value)
      ensures errors == Forms.ClearError(old(errors), k) && authError == ""
      ensures isSubmitting == old(isSubmitting) && sessions == old(sessions) && navigations == old(navigations)
    {
      form := SetField(form, k, value);
      errors := Forms.ClearError(errors, k);
      if authError != "" {
        authError := "";
      }
    }

    /** `validateForm`: stores the new errors and answers whether there are none. */
    method ValidateForm() returns (valid: bool)
      modifies this
      ensures valid <==> LoginValid(form)
      ensures valid <==> errors == map[]
      ensures LoginErrorsOf(form, errors)
      ensures form == old(form) && isSubmitting == old(isSubmitting) && authError == old(authError)
      ensures sessions == old(sessions) && navigations == old(navigations)
    {
      var newErrors := ValidateLogin(form);
      errors := newErrors;
      valid := |newErrors| == 0;
    }
  }
}
