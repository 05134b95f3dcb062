/** The registration form's submit handler: an ordered chain of field checks,
    each ending the handler with its own alert, and the call to `register`
    when every check passes. */
module RegisterScreen {
  import opened Common

  const MinPasswordLength := 6

  datatype Form = Form(username: string, email: string, name: string, password: string, confirmPassword: string)

  datatype Alert = Alert(title: string, message: string)

  /** What pressing the button leads to: an alert, or `register(username, email, password, name)`. */
  datatype Submit = ShowAlert(alert: Alert) | CallRegister(username: string, email: string, password: string, name: string)

  /** The reply `register` gives the screen. */
  datatype RegisterReply = RegisterReply(success: bool, error: string)

  const FillAllFields := Alert("Error", "Please fill in all fields")
  const PasswordsDiffer := Alert("Error", "Passwords do not match")
  const PasswordTooShort := Alert("Error", "Password must be at least 6 characters")

  /** The four fields whose emptiness is checked; `confirmPassword` is not one. */
  predicate AllFilled(f: Form) {
    f.username != "" && f.email != "" && f.name != "" && f.password != ""
  }

  /** handleRegister up to the `register` call. */
  function HandleRegister(f: Form): (r: Submit)
    ensures r == ShowAlert(FillAllFields) <==> !AllFilled(f)
    ensures r == ShowAlert(PasswordsDiffer) <==> AllFilled(f) && f.password != f.confirmPassword
    ensures r == ShowAlert(PasswordTooShort) <==>
      AllFilled(f) && f.password == f.confirmPassword && |f.password| < MinPasswordLength
    ensures r.CallRegister? <==>
      AllFilled(f) && f.password == f.confirmPassword && |f.password| >= MinPasswordLength
    ensures r.CallRegister? ==> r == CallRegister(f.username, f.email, f.password, f.name)
  {
    if !AllFilled(f) then ShowAlert(FillAllFields)
    else if f.password != f.confirmPassword then ShowAlert(PasswordsDiffer)
    else if |f.password| < MinPasswordLength then ShowAlert(PasswordTooShort)
    else CallRegister(f.username, f.email, f.password, f.name)
  }

  /** After `register` returns: a failure is shown with its error text. */
  function AfterRegister(reply: RegisterReply): (r: Option<Alert>)
    ensures r.Some? <==> !reply.success
    ensures r.Some? ==> r.value == Alert("Registration Failed", reply.error)
  {
    if !reply.success then Some(Alert("Registration Failed", reply.error)) else None
  }

  /** With a field left empty, the confirmation field cannot change the outcome. */
  lemma EmptinessIgnoresConfirmation(f: Form, confirm: string)
    requires !AllFilled(f)
    ensures HandleRegister(f.(confirmPassword := confirm)) == HandleRegister(f)
  {
  }

  /** Exactly six characters is long enough. */
  lemma SixCharactersPass(f: Form)
    requires AllFilled(f) && f.password == f.confirmPassword && |f.password| == 6
    ensures HandleRegister(f) == CallRegister(f.username, f.email, f.password, f.name)
  {
  }
}
