/** The authentication store's own logic: the cool-down between password-reset requests,
    and the profile record read back for the profile form. */
module Session {
  import opened Wrappers

  /** `RESET_REQUEST_DELAY`, in milliseconds. */
  const ResetDelay: int := 60000

  /** `Math.ceil(x / 1000)` for a whole number of milliseconds. */
  function CeilSeconds(ms: int): int
  {
    (ms + 999) / 1000
  }

  lemma CeilSecondsIsCeiling(ms: int)
    ensures (CeilSeconds(ms) - 1) * 1000 < ms <= CeilSeconds(ms) * 1000
  {
  }

  /** A request is held back when less than the delay has passed since the last one. */
  predicate Throttled(last: int, now: int)
  {
    now - last < ResetDelay
  }

  /** The seconds the rejection message asks the user to wait. */
  function WaitSeconds(last: int, now: int): int
  {
    CeilSeconds(ResetDelay - (now - last))
  }

  /** Unless the clock went back, the wait asked for is between 1 and 60 seconds. */
  lemma WaitBounds(last: int, now: int)
    requires Throttled(last, now) && last <= now
    ensures 1 <= WaitSeconds(last, now) <= 60
  {
  }

  /** How a reset request ends. */
  datatype Outcome = Sent | Wait(seconds: int) | Failed(error: string)

  /** The module-level `lastPasswordResetRequest` and the request that reads and updates it.
      The clock and the result of the e-mail call are parameters. */
  class ResetThrottle {
    var last: int

    constructor()
      ensures last == 0
    {
      last := 0;
    }

    /** `requestPasswordReset`: a throttled request is refused with the wait in seconds and
        nothing sent; otherwise the e-mail is requested, and only a successful send starts
        a new cool-down. */
    method Request(now: int, sendError: Option<string>) returns (outcome: Outcome)
      modifies this
      ensures last == NextLast(old(last), now, sendError)
      ensures old(Throttled(last, now)) ==> outcome == Wait(WaitSeconds(old(last), now))
      ensures !old(Throttled(last, now)) && sendError.Some? ==> outcome == Failed(sendError.value)
      ensures !old(Throttled(last, now)) && sendError.None? ==> outcome == Sent
    {
      if now - last < ResetDelay {
        return Wait(CeilSeconds(ResetDelay - (now - last)));
      }
      if sendError.Some? {
        return Failed(sendError.value);
      }
      last := now;
      outcome := Sent;
    }
  }

  /** The value of `lastPasswordResetRequest` after a request at `now` whose e-mail call
      fails with `sendError` (None when it succeeds). */
  function NextLast(last: int, now: int, sendError: Option<string>): int
  {
    if !Throttled(last, now) && sendError.None? then now else last
  }

  /** A failed send starts no cool-down: a retry at the same time or later is not held
      back. */
  lemma RetryAfterFailure(last: int, now: int, later: int, error: string)
    requires !Throttled(last, now) && now <= later
    ensures !Throttled(NextLast(last, now, Some(error)), later)
  {
  }

  /** A successful send holds back exactly the requests of the next 60 seconds. */
  lemma CooldownAfterSend(last: int, now: int, later: int)
    requires !Throttled(last, now)
    ensures Throttled(NextLast(last, now, None), later) <==> later - now < ResetDelay
  {
  }

  /** A refused request changes nothing, so waiting the announced number of seconds is
      enough. */
  lemma WaitIsEnough(last: int, now: int, err: Option<string>)
    requires Throttled(last, now)
    ensures NextLast(last, now, err) == last
    ensures !Throttled(NextLast(last, now, err), now + WaitSeconds(last, now) * 1000)
  {
    CeilSecondsIsCeiling(ResetDelay - (now - last));
  }

  /** The profile columns read for the current user; an absent or null column is None. */
  datatype ProfileRow = ProfileRow(
    companyName: Option<string>, cnpj: Option<string>, cep: Option<string>,
    address: Option<string>, city: Option<string>, state: Option<string>,
    neighborhood: Option<string>)

  datatype Profile = Profile(
    companyName: string, cnpj: string, cep: string,
    address: string, city: string, state: string, neighborhood: string)

  /** `getProfile`: nothing without a signed-in user, an all-empty profile without a
      row, and otherwise each column with '' standing in for a missing one. */
  function GetProfile(signedIn: bool, row: Option<ProfileRow>): (r: Option<Profile>)
    ensures !signedIn <==> r.None?
    ensures signedIn && row.None? ==> r == Some(Profile([], [], [], [], [], [], []))
    ensures signedIn && row.Some? ==>
      r == Some(Profile(TextOf(row.value.companyName), TextOf(row.value.cnpj), TextOf(row.value.cep),
                        TextOf(row.value.address), TextOf(row.value.city), TextOf(row.value.state),
                        TextOf(row.value.neighborhood)))
  {
    if !signedIn then None
    else if row.None? then Some(Profile([], [], [], [], [], [], []))
    else
      var p := row.value;
      Some(Profile(TextOf(p.companyName), TextOf(p.cnpj), TextOf(p.cep), TextOf(p.address),
                   TextOf(p.city), TextOf(p.state), TextOf(p.neighborhood)))
  }

  /** The row `updateProfile` writes from the form's fields. */
  function RowOf(p: Profile): ProfileRow
  {
    ProfileRow(Some(p.companyName), Some(p.cnpj), Some(p.cep), Some(p.address),
               Some(p.city), Some(p.state), Some(p.neighborhood))
  }

  /** A saved profile reads back as it was saved. */
  lemma ProfileRoundTrip(p: Profile)
    ensures GetProfile(true, Some(RowOf(p))) == Some(p)
  {
  }

  /** Reading never yields a missing field: reading what was read back writes nothing new. */
  lemma ProfileReadIdempotent(row: ProfileRow)
    ensures GetProfile(true, Some(RowOf(GetProfile(true, Some(row)).value))) == GetProfile(true, Some(row))
  {
  }
}
