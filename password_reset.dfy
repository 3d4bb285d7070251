/** The password-reset screen reached from the e-mailed link: the token read from the URL
    fragment and the checks of its submit. */
module PasswordReset {
  import opened Wrappers

  const NoToken := "Token de acesso inválido ou ausente"
  const Mismatch := "As senhas não coincidem"
  const TooShort := "A senha deve ter pelo menos 6 caracteres"
  const ResetFailed := "Could not change password. Please try again."

  /** The `access_token` parameter of the fragment, None when absent: a missing or empty
      token shows an error. */
  function TokenError(token: Option<string>): (r: Option<string>)
    ensures r.None? <==> token.Some? && token.value != []
    ensures r.Some? ==> r.value == NoToken
  {
    if token.Some? && token.value != [] then None else Some(NoToken)
  }

  /** The checks of `handleSubmit`, in order: the two fields must agree, then the password
      needs six characters. */
  function Guard(password: string, confirm: string): (r: Option<string>)
    ensures r.None? <==> password == confirm && |password| >= 6
    ensures password != confirm ==> r == Some(Mismatch)
  {
    if password != confirm then Some(Mismatch)
    else if |password| < 6 then Some(TooShort)
    else None
  }

  /** `handleSubmit`: `resetPassword` is called only when the checks pass, and any failure
      of it is reported with one fixed message (`resetFails` says whether it fails). None
      means the password was changed. The token is not consulted. */
  function Submit(password: string, confirm: string, resetFails: bool): (r: Option<string>)
    ensures r.None? <==> Guard(password, confirm).None? && !resetFails
    ensures Guard(password, confirm).Some? ==> r == Guard(password, confirm)
    ensures Guard(password, confirm).None? && resetFails ==> r == Some(ResetFailed)
  {
    var guard := Guard(password, confirm);
    if guard.Some? then guard
    else if resetFails then Some(ResetFailed)
    else None
  }

  /** Two different fields are reported as a mismatch even when the password is also too
      short: equality is checked first. */
  lemma MismatchFirst(password: string, confirm: string, resetFails: bool)
    requires password != confirm && |password| < 6
    ensures Submit(password, confirm, resetFails) == Some(Mismatch)
  {
  }
}
