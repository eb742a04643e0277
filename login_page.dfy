/**
 * The login page (src/pages/LoginPage.js): the same sign-in form, with a submit that stores
 * the token in `localStorage` before fetching the profile that becomes the session.
 */
module LoginPage {
  import opened JsValue
  import opened QuizService
  import opened LoginForm

  /** The page's `localStorage`: `setItem` stores `String(value)`. */
  class Storage {
    var items: map<string, string>

    constructor()
      ensures items == map[]
    {
      items := map[];
    }

    method SetItem(key: string, value: Value)
      modifies this
      ensures items == old(items)[key := ToJsString(value)]
    {
      items := items[key := ToJsString(value)];
    }
  }

  /**
   * `handleSubmit`. After a login response that is not null, the token is stored whatever
   * the profile step then does; only a returned profile becomes the session, and the
   * redirect follows the login response's `role`, not the profile's. `profile` is the
   * outcome of the `authService.getProfile()` call.
   */
  method HandleSubmit(s: State, storage: Storage, o: ApiOutcome, profile: Outcome<Value, JsError>)
    modifies s, storage
    ensures s.form == old(s.form)
    ensures LoginErrorsOf(old(s.form), s.errors)
    ensures s.errors == map[] <==> LoginValid(old(s.form))
    ensures !LoginValid(old(s.form)) ==>
              s.isSubmitting == old(s.isSubmitting) && s.authError == old(s.authError) && storage.items == old(storage.items)
              && s.sessions == old(s.sessions) && s.navigations == old(s.navigations)
    ensures LoginValid(old(s.form)) ==> !s.isSubmitting
    ensures LoginValid(old(s.form)) && PlainCall(o).Returned? && !IsNullish(PlainCall(o).value) ==>
              storage.items == old(storage.items)["token" := ToJsString(Get(PlainCall(o).value, "token"))]
    ensures LoginValid(old(s.form)) && PlainCall(o).Returned? && !IsNullish(PlainCall(o).value) && profile.Returned? ==>
              var authResp := PlainCall(o).value;
              && s.sessions == old(s.sessions) + [(profile.value, Get(authResp, "token"))]
              && s.navigations == old(s.navigations) + [RedirectFor(Get(authResp, "role"))]
              && s.authError == ""
    ensures LoginValid(old(s.form)) && PlainCall(o).Returned? && !IsNullish(PlainCall(o).value) && profile.Threw? ==>
              s.sessions == old(s.sessions) && s.navigations == old(s.navigations)
              && s.authError == ServerErrorOr(profile.error, LoginFailed)
    ensures LoginValid(old(s.form)) && PlainCall(o).Returned? && IsNullish(PlainCall(o).value) ==>
              s.sessions == old(s.sessions) && s.navigations == old(s.navigations)
              && storage.items == old(storage.items) && s.authError == LoginFailed
    ensures LoginValid(old(s.form)) && PlainCall(o).Threw? ==>
              s.sessions == old(s.sessions) && s.navigations == old(s.navigations) && storage.items == old(storage.items)
              && s.authError == ServerErrorOr(PlainCall(o).error, LoginFailed)
  {
    var valid := s.ValidateForm();
    if !valid {
      return;
    }
    s.isSubmitting := true;
    s.authError := "";
    match PlainCall(o) {
      case Returned(authResp) =>
        if IsNullish(authResp) {
          s.authError := LoginFailed;
        } else {
          var token := Get(authResp, "token");
          storage.SetItem("token", token);
          match profile {
            case Returned(user) =>
              s.sessions := s.sessions + [(user, token)];
              s.navigations := s.navigations + [RedirectFor(Get(authResp, "role"))];
            case Threw(e) =>
              s.authError := ServerErrorOr(e, LoginFailed);
          }
        }
      case Threw(e) =>
        s.authError := ServerErrorOr(e, LoginFailed);
    }
    s.isSubmitting := false;
  }

  /**
   * Calling a method the service object lacks throws a TypeError, which carries no server
   * response: the page then shows the fixed text, and nobody is signed in.
   */
  lemma MissingProfileServiceShowsFallback(message: string)
    ensures ServerErrorOr(JsError(Undefined, message), LoginFailed) == LoginFailed
  {
  }
}
