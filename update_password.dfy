/** The update-password page reached from the recovery e-mail: the code exchanged for a
    session, the checks of its submit, and when the submit button is enabled. */
module UpdatePassword {
  import opened Wrappers
  import PasswordReset

  const NoCode := "Token de redefinição inválido."
  const BadCode := "Token inválido ou expirado."
  const TooShort := "A senha deve ter pelo menos 6 caracteres"
  const Mismatch := "As senhas não coincidem"
  const NoAccessToken := "Token de acesso não encontrado"

  /** What `exchangeCodeForSession` gives: an error, or a session whose access token may
      be missing. */
  datatype Exchange = ExchangeFailed | Exchanged(accessToken: Option<string>)

  /** The page's token and error after the code is handled. */
  datatype PageState = PageState(accessToken: Option<string>, error: Option<string>)

  /** `exchangeCode`: a missing or empty `code` is refused without an exchange; a failed
      exchange shows its own message; otherwise the session's token is kept, an empty one
      counting as none. */
  function ReadCode(code: Option<string>, exchange: Exchange): (r: PageState)
    ensures code.None? || code.value == [] ==> r == PageState(None, Some(NoCode))
    ensures code.Some? && code.value != [] && exchange.ExchangeFailed? ==> r == PageState(None, Some(BadCode))
    ensures r.accessToken.Some? <==> code.Some? && code.value != [] && exchange.Exchanged?
                                     && exchange.accessToken.Some? && exchange.accessToken.value != []
    ensures r.accessToken.Some? ==> r.accessToken == exchange.accessToken && r.error.None?
  {
    if code.None? || code.value == [] then PageState(None, Some(NoCode))
    else if exchange.ExchangeFailed? then PageState(None, Some(BadCode))
    else if exchange.accessToken.Some? && exchange.accessToken.value != [] then
      PageState(exchange.accessToken, None)
    else PageState(None, None)
  }

  /** `!accessToken`. */
  predicate HasToken(accessToken: Option<string>)
  {
    accessToken.Some? && accessToken.value != []
  }

  /** The checks of `handleSubmit`, in order: length, then equality, then the token. */
  function Guard(password: string, confirm: string, accessToken: Option<string>): (r: Option<string>)
    ensures r.None? <==> |password| >= 6 && password == confirm && HasToken(accessToken)
    ensures |password| < 6 ==> r == Some(TooShort)
    ensures |password| >= 6 && password == confirm && !HasToken(accessToken) ==> r == Some(NoAccessToken)
  {
    if password == [] || |password| < 6 then Some(TooShort)
    else if password != confirm then Some(Mismatch)
    else if !HasToken(accessToken) then Some(NoAccessToken)
    else None
  }

  /** `handleSubmit`: after the checks, `updateUser` is called and its error message, if
      any (`updateError`), is shown. None means the password was changed. */
  function Submit(password: string, confirm: string, accessToken: Option<string>,
                  updateError: Option<string>): (r: Option<string>)
    ensures r.None? <==> Guard(password, confirm, accessToken).None? && updateError.None?
    ensures Guard(password, confirm, accessToken).Some? ==> r == Guard(password, confirm, accessToken)
    ensures Guard(password, confirm, accessToken).None? ==> r == updateError
  {
    var guard := Guard(password, confirm, accessToken);
    if guard.Some? then guard else updateError
  }

  /** `disabled={loading || !accessToken}`. */
  predicate SubmitEnabled(loading: bool, accessToken: Option<string>)
  {
    !(loading || !HasToken(accessToken))
  }

  /** Through the enabled button the token check never fails, and a page whose code was
      missing or refused never enables it. */
  lemma ButtonImpliesToken(loading: bool, code: Option<string>, exchange: Exchange,
                           password: string, confirm: string)
    requires SubmitEnabled(loading, ReadCode(code, exchange).accessToken)
    ensures Guard(password, confirm, ReadCode(code, exchange).accessToken) != Some(NoAccessToken)
    ensures code.Some? && code.value != [] && exchange.Exchanged?
  {
  }

  /** The two reset screens check in opposite orders: a short password that also differs
      from the confirmation is a mismatch on one and too short on the other. */
  lemma OrderDiffersFromReset(token: Option<string>)
    ensures PasswordReset.Guard("abc", "abd") == Some(PasswordReset.Mismatch)
    ensures Guard("abc", "abd", token) == Some(TooShort)
  {
  }

  /** On inputs both accept, the two screens agree: each lets the same passwords through. */
  lemma SameAcceptance(password: string, confirm: string, token: Option<string>)
    requires HasToken(token)
    ensures Guard(password, confirm, token).None? <==> PasswordReset.Guard(password, confirm).None?
  {
  }
}
