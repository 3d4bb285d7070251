/** The company-profile form: the CNPJ and CEP masks, the CEP address lookup's effect on
    the form, and the order of the checks and calls when the form is submitted. */
module ProfileForm {
  import opened Wrappers
  import opened Text
  import opened Masks
  import Session

  /** `s.substring(0, n)`. */
  function Take(s: string, n: nat): (r: string)
    ensures |s| <= n ==> r == s
    ensures |s| > n ==> |r| == n && r == s[..n]
  {
    if |s| <= n then s else s[..n]
  }

  /** `formatCNPJ`: the CNPJ chain of replacements on the digits, cut to 18 characters. */
  function FormatCnpj(value: string): string
  {
    Take(CnpjMask(Digits(value)), 18)
  }

  /** `formatCEP`: a dash after the fifth digit, cut to 9 characters. */
  function FormatCep(value: string): string
  {
    Take(Replace(CepLead, Digits(value)), 9)
  }

  /** Fourteen digits give exactly "dd.ddd.ddd/dddd-dd": the cut removes nothing. */
  lemma CnpjExact(value: string)
    requires |Digits(value)| == 14
    ensures var d := Digits(value);
      FormatCnpj(value) == d[..2] + "." + d[2..5] + "." + d[5..8] + "/" + d[8..12] + "-" + d[12..]
    ensures |FormatCnpj(value)| == 18 && FormatCnpj(value) == CnpjMask(Digits(value))
  {
    var d := Digits(value);
    DigitsAreDigits(value);
    CnpjShape(d);
  }

  /** Eight digits give exactly "ddddd-ddd". */
  lemma CepExact(value: string)
    requires |Digits(value)| == 8
    ensures var d := Digits(value); FormatCep(value) == d[..5] + "-" + d[5..]
    ensures |FormatCep(value)| == 9
  {
    DigitsAreDigits(value);
    CepShape(Digits(value));
  }

  lemma DigitsAreDigits(value: string)
    ensures AllDigits(Digits(value))
  {
    DigitsOfDigits(Digits(value));
  }

  /** Formatting a complete CNPJ again changes nothing, so the stored value passes the
      submit check. */
  lemma CnpjSettles(cnpj: string)
    requires |Digits(cnpj)| == 14
    ensures Digits(FormatCnpj(cnpj)) == Digits(cnpj)
    ensures FormatCnpj(FormatCnpj(cnpj)) == FormatCnpj(cnpj)
  {
    var d := Digits(cnpj);
    CnpjExact(cnpj);
    DigitsAreDigits(cnpj);
    CnpjMaskDigits(d);
    DigitsOfDigits(d);
    assert Digits(FormatCnpj(cnpj)) == d;
  }

  /** Likewise for a complete CEP. */
  lemma CepSettles(cep: string)
    requires |Digits(cep)| == 8
    ensures Digits(FormatCep(cep)) == Digits(cep)
    ensures FormatCep(FormatCep(cep)) == FormatCep(cep)
  {
    CepExact(cep);
    DashKeepsDigits(Digits(cep));
    CepExact(FormatCep(cep));
  }

  lemma DashKeepsDigits(e: string)
    requires |e| == 8 && AllDigits(e)
    ensures Digits(e[..5] + "-" + e[5..]) == e
  {
    var a, b := e[..5], e[5..];
    DigitsAround(a, '-', b);
    DigitsOfDigits(a);
    DigitsOfDigits(b);
    assert a + b == e;
  }

  /** The fields of the form. */
  datatype Form = Form(companyName: string, cnpj: string, cep: string, address: string,
                       city: string, state: string, neighborhood: string,
                       newPassword: string, confirmPassword: string)

  /** What the CEP lookup returned, when it returned an address. */
  datatype Address = Address(street: string, city: string, state: string, neighborhood: string)

  /** `handleCEPChange`: the CEP field is re-masked; when the digits are a full CEP and the
      lookup found an address (`lookup`, the result of the fetch), the address fields are
      filled from it. */
  function CepChange(f: Form, typed: string, lookup: Option<Address>): (r: Form)
    ensures r.cep == FormatCep(typed)
    ensures |Digits(typed)| == 8 && lookup.Some? ==>
      r.address == lookup.value.street && r.city == lookup.value.city
      && r.state == lookup.value.state && r.neighborhood == lookup.value.neighborhood
    ensures !(|Digits(typed)| == 8 && lookup.Some?) ==> r == f.(cep := FormatCep(typed))
    ensures r.companyName == f.companyName && r.cnpj == f.cnpj
            && r.newPassword == f.newPassword && r.confirmPassword == f.confirmPassword
  {
    var g := f.(cep := FormatCep(typed));
    if |Digits(typed)| == 8 && lookup.Some? then
      var a := lookup.value;
      g.(address := a.street, city := a.city, state := a.state, neighborhood := a.neighborhood)
    else g
  }

  /** `error instanceof Error ? error.message : 'Erro ao atualizar perfil'`. */
  function Shown(t: Thrown): string
  {
    if t.ErrorObject? then t.message else "Erro ao atualizar perfil"
  }

  /** How a submit ends: whether the profile was written, whether the password was
      changed, the message shown (None after the success alert), and the form after. */
  datatype Outcome = Outcome(saved: bool, passwordChanged: bool, error: Option<string>, form: Form)

  /** The fields `updateProfile` is given. */
  function ProfileOf(f: Form): Session.Profile
  {
    Session.Profile(f.companyName, f.cnpj, f.cep, f.address, f.city, f.state, f.neighborhood)
  }

  /** `handleSubmit`: the CNPJ must have 14 digits, then the CEP 8; the profile is written
      (`saveError` is what `updateProfile` throws, if anything); only then, if either
      password field is filled, the new password needs 6 characters and must equal the
      confirmation before `updatePassword` is called (`passwordError` is what it throws);
      a changed password clears both fields. */
  function Submit(f: Form, saveError: Option<Thrown>, passwordError: Option<Thrown>): (r: Outcome)
    ensures r.saved <==> |Digits(f.cnpj)| == 14 && |Digits(f.cep)| == 8 && saveError.None?
    ensures |Digits(f.cnpj)| != 14 ==> r.error == Some("CNPJ inválido")
    ensures |Digits(f.cnpj)| == 14 && |Digits(f.cep)| != 8 ==> r.error == Some("CEP inválido")
    ensures r.passwordChanged <==> r.saved && PasswordRequested(f) && PasswordGuard(f).None?
                                   && passwordError.None?
    ensures r.error.None? <==> r.saved && (PasswordRequested(f) ==> r.passwordChanged)
    ensures r.passwordChanged ==> r.form == f.(newPassword := [], confirmPassword := [])
    ensures !r.passwordChanged ==> r.form == f
  {
    if |Digits(f.cnpj)| != 14 then Outcome(false, false, Some("CNPJ inválido"), f)
    else if |Digits(f.cep)| != 8 then Outcome(false, false, Some("CEP inválido"), f)
    else if saveError.Some? then Outcome(false, false, Some(Shown(saveError.value)), f)
    else if !PasswordRequested(f) then Outcome(true, false, None, f)
    else if PasswordGuard(f).Some? then Outcome(true, false, PasswordGuard(f), f)
    else if passwordError.Some? then Outcome(true, false, Some(Shown(passwordError.value)), f)
    else Outcome(true, true, None, f.(newPassword := [], confirmPassword := []))
  }

  /** `formData.newPassword || formData.confirmPassword`. */
  predicate PasswordRequested(f: Form)
  {
    f.newPassword != [] || f.confirmPassword != []
  }

  /** The password checks: length first, then equality. */
  function PasswordGuard(f: Form): (r: Option<string>)
    ensures r.None? <==> |f.newPassword| >= 6 && f.newPassword == f.confirmPassword
    ensures |f.newPassword| < 6 ==> r == Some("Nova senha deve ter pelo menos 6 caracteres")
  {
    if |f.newPassword| < 6 then Some("Nova senha deve ter pelo menos 6 caracteres")
    else if f.newPassword != f.confirmPassword then Some("Nova senha e confirmação não coincidem")
    else None
  }

  /** The password is checked only after the profile is written: a bad password still
      leaves the profile saved, and shows the password message. */
  lemma SavedDespiteBadPassword(f: Form, passwordError: Option<Thrown>)
    requires |Digits(f.cnpj)| == 14 && |Digits(f.cep)| == 8
    requires PasswordRequested(f) && PasswordGuard(f).Some?
    ensures Submit(f, None, passwordError).saved
    ensures Submit(f, None, passwordError).error == PasswordGuard(f)
  {
  }

  /** A submit that writes the profile writes the form's fields, and they read back as
      they were entered. */
  lemma SavedReadsBack(f: Form, saveError: Option<Thrown>, passwordError: Option<Thrown>)
    requires Submit(f, saveError, passwordError).saved
    ensures Session.GetProfile(true, Some(Session.RowOf(ProfileOf(f)))) == Some(ProfileOf(f))
    ensures ProfileOf(Submit(f, saveError, passwordError).form) == ProfileOf(f)
  {
    Session.ProfileRoundTrip(ProfileOf(f));
  }
}
