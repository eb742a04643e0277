/**
 * The login card (src/components/Auth/Login.js): its submit and its demo buttons, acting
 * on the sign-in state shared with the login page.
 */
module Login {
  import opened JsValue
  import opened QuizService
  import opened LoginForm

  /**
   * `handleSubmit`: an invalid form sends nothing. A valid one is sent to `authService.login`;
   * the response becomes the session with its `token`, and the browser goes to `/admin` or
   * `/dashboard` by the response's `role`. A failure shows the server's error or the fixed
   * text; a null response throws on `.token` and shows the fixed text.
   */
  method HandleSubmit(s: State, o: ApiOutcome)
    modifies s
    ensures s.form == old(s.form)
    ensures LoginErrorsOf(old(s.form), s.errors)
    ensures s.errors == map[] <==> LoginValid(old(s.form))
    ensures !LoginValid(old(s.form)) ==>
              s.isSubmitting == old(s.isSubmitting) && s.authError == old(s.authError)
              && s.sessions == old(s.sessions) && s.navigations == old(s.navigations)
    ensures LoginValid(old(s.form)) ==> !s.isSubmitting
    ensures LoginValid(old(s.form)) && PlainCall(o).Returned? && !IsNullish(PlainCall(o).value) ==>
              var response := PlainCall(o).value;
              && s.sessions == old(s.sessions) + [(response, Get(response, "token"))]
              && s.navigations == old(s.navigations) + [RedirectFor(Get(response, "role"))]
              && s.authError == ""
    ensures LoginValid(old(s.form)) && PlainCall(o).Returned? && IsNullish(PlainCall(o).value) ==>
              s.sessions == old(s.sessions) && s.navigations == old(s.navigations) && s.authError == LoginFailed
    ensures LoginValid(old(s.form)) && PlainCall(o).Threw? ==>
              s.sessions == old(s.sessions) && s.navigations == old(s.navigations)
              && s.authError == ServerErrorOr(PlainCall(o).error, LoginFailed)
  {
    var valid := s.ValidateForm();
    if !valid {
      return;
    }
    s.isSubmitting := true;
    s.authError := "";
    match PlainCall(o) {
      case Returned(response) =>
        if IsNullish(response) {
          s.authError := LoginFailed;
        } else {
          s.sessions := s.sessions + [(response, Get(response, "token"))];
          s.navigations := s.navigations + [RedirectFor(Get(response, "role"))];
        }
      case Threw(e) =>
        s.authError := ServerErrorOr(e, LoginFailed);
    }
    s.isSubmitting := false;
  }

  /** `handleDemoLogin(role)`: the form becomes the role's fixed pair; errors and `authError` stay. */
  method HandleDemoLogin(s: State, role: DemoRole)
    modifies s
    ensures s.form == DemoCredentials(role) && LoginValid(s.form)
    ensures s.errors == old(s.errors) && s.authError == old(s.authError) && s.isSubmitting == old(s.isSubmitting)
    ensures s.sessions == old(s.sessions) && s.navigations == old(s.navigations)
  {
    s.form := DemoCredentials(role);
    DemoCredentialsAreValid(role);
  }
}
