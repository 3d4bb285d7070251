/** The sign-in screen: the checks and the error mapping of the sign-in/sign-up submit,
    and the password-recovery submit on top of the reset throttle. */
module SignIn {
  import opened Wrappers
  import opened Text
  import Session

  const EmptyEmail := "Por favor, preencha o email"
  const EmptyPassword := "Por favor, preencha a senha"
  const ShortPassword := "A senha deve ter pelo menos 6 caracteres"
  const BadCredentials := "Email ou senha incorretos"
  const Generic := "Ocorreu um erro. Por favor, tente novamente."
  const Unexpected := "Ocorreu um erro inesperado"

  /** How a submit ends: the sign-up redirect with the e-mail it stored, a signed-in user,
      or a message on the form. */
  datatype Ending = Redirected(storedEmail: string) | SignedIn | Shown(message: string)

  /** The checks `handleSubmit` makes before any call, in order; None lets it go on. A
      sign-up needs only the e-mail. */
  function Guard(email: string, password: string, isSignUp: bool): (r: Option<string>)
    ensures email == [] ==> r == Some(EmptyEmail)
    ensures email != [] && isSignUp ==> r.None?
    ensures r.None? <==> email != [] && (isSignUp || |password| >= 6)
  {
    if email == [] then Some(EmptyEmail)
    else if isSignUp then None
    else if password == [] then Some(EmptyPassword)
    else if |password| < 6 then Some(ShortPassword)
    else None
  }

  /** The `catch` of `handleSubmit`: an error about invalid credentials, any other error,
      and a thrown non-error each get their own text. */
  function CaughtMessage(t: Thrown): (r: string)
    ensures t.ErrorObject? && Contains(t.message, "Invalid login credentials") <==> r == BadCredentials
    ensures t.NotAnError? <==> r == Unexpected
  {
    if t.ErrorObject? then
      if Contains(t.message, "Invalid login credentials") then BadCredentials else Generic
    else Unexpected
  }

  /** `handleSubmit` as written: a failed check is thrown as an `Error` inside the `try`,
      so it reaches the same `catch` as a failed sign-in. `signInError` is what `signIn`
      throws, if anything. */
  function HandleSubmit(email: string, password: string, isSignUp: bool,
                        signInError: Option<Thrown>): (r: Ending)
    ensures email != [] && isSignUp <==> r == Redirected(email)
    ensures r.SignedIn? <==> Guard(email, password, isSignUp).None? && !isSignUp && signInError.None?
    ensures Guard(email, password, isSignUp).Some? ==>
      r == Shown(CaughtMessage(ErrorObject(Guard(email, password, isSignUp).value)))
  {
    var guard := Guard(email, password, isSignUp);
    if guard.Some? then Shown(CaughtMessage(ErrorObject(guard.value)))
    else if isSignUp then Redirected(email)
    else if signInError.Some? then Shown(CaughtMessage(signInError.value))
    else SignedIn
  }

  /** None of the check messages survives the `catch`: an empty e-mail or a short password
      shows only the generic message. */
  lemma CheckMessagesSwallowed(password: string, isSignUp: bool, err: Option<Thrown>)
    ensures HandleSubmit([], password, isSignUp, err) == Shown(Generic)
    ensures HandleSubmit("a@b.c", "12345", false, err) == Shown(Generic)
    ensures Generic != EmptyEmail && Generic != ShortPassword
  {
    assert !Contains(EmptyEmail, "Invalid login credentials") by { EmptyEmailPlain(); }
    assert !Contains(ShortPassword, "Invalid login credentials") by { ShortPasswordPlain(); }
    assert Generic[0] != EmptyEmail[0] && Generic[0] != ShortPassword[0];
  }

  lemma EmptyEmailPlain()
    ensures !Contains(EmptyEmail, "Invalid login credentials")
  {
    NoCredentialsIn(EmptyEmail);
  }

  lemma ShortPasswordPlain()
    ensures !Contains(ShortPassword, "Invalid login credentials")
  {
    NoCredentialsIn(ShortPassword);
  }

  /** A message without a capital I cannot contain "Invalid login credentials". */
  lemma NoCredentialsIn(m: string)
    requires forall i :: 0 <= i < |m| ==> m[i] != 'I'
    ensures !Contains(m, "Invalid login credentials")
  {
    LacksFirst(m, "Invalid login credentials");
  }

  lemma {:induction false} LacksFirst(s: string, p: string)
    requires p != [] && forall i :: 0 <= i < |s| ==> s[i] != p[0]
    ensures !Contains(s, p)
  {
    if s != [] {
      LacksFirst(s[1..], p);
    }
  }

  /** `handleSubmit` as its messages intend: a failed check shows its own message, and
      only errors from the sign-in call go through the mapping. */
  function HandleSubmitIntended(email: string, password: string, isSignUp: bool,
                                signInError: Option<Thrown>): (r: Ending)
    ensures Guard(email, password, isSignUp).Some? ==> r == Shown(Guard(email, password, isSignUp).value)
    ensures Guard(email, password, isSignUp).None? ==> r == HandleSubmit(email, password, isSignUp, signInError)
  {
    var guard := Guard(email, password, isSignUp);
    if guard.Some? then Shown(guard.value)
    else if isSignUp then Redirected(email)
    else if signInError.Some? then Shown(CaughtMessage(signInError.value))
    else SignedIn
  }

  /** The two versions call `signIn` for the same inputs and end the same way whenever the
      checks pass; they differ only in the message of a failed check. */
  lemma IntendedDiffersOnlyInCheckMessages(email: string, password: string, isSignUp: bool,
                                           err: Option<Thrown>)
    ensures HandleSubmitIntended(email, password, isSignUp, err).SignedIn?
            <==> HandleSubmit(email, password, isSignUp, err).SignedIn?
    ensures HandleSubmitIntended(email, password, isSignUp, err).Redirected?
            <==> HandleSubmit(email, password, isSignUp, err).Redirected?
    ensures HandleSubmitIntended([], password, isSignUp, err) == Shown(EmptyEmail)
  {
  }

  const EmptyRecoveryEmail := "Por favor, insira seu email"

  /** The rejection `requestPasswordReset` throws while the cool-down runs. */
  function WaitMessage(seconds: int): string
  {
    "Por favor, aguarde " + IntToString(seconds) + " segundos antes de tentar novamente."
  }

  /** `handleRecoverySubmit`: an empty e-mail is refused before the throttle is consulted;
      otherwise the reset request decides, and its error message is shown. None means the
      e-mail was sent. */
  method Recover(throttle: Session.ResetThrottle, email: string, now: int, sendError: Option<string>)
    returns (message: Option<string>)
    modifies throttle
    ensures email == [] ==> message == Some(EmptyRecoveryEmail) && throttle.last == old(throttle.last)
    ensures email != [] ==> throttle.last == Session.NextLast(old(throttle.last), now, sendError)
    ensures email != [] && old(Session.Throttled(throttle.last, now)) ==>
      message == Some(WaitMessage(Session.WaitSeconds(old(throttle.last), now)))
    ensures email != [] && !old(Session.Throttled(throttle.last, now)) ==>
      (message.None? <==> sendError.None?) && (sendError.Some? ==> message == sendError)
  {
    if email == [] {
      return Some(EmptyRecoveryEmail);
    }
    var outcome := throttle.Request(now, sendError);
    match outcome
    case Wait(seconds) => message := Some(WaitMessage(seconds));
    case Failed(error) => message := Some(error);
    case Sent => message := None;
  }
}
