/** Validity of a one-time MFA token at a given instant. */
module Mfa {

  /** The lifecycle status of an MFA token. */
  datatype TokenStatus = Pending | Used | Expired | Revoked

  /**
   * The columns of an MFA token that its validity reads. Instants are integers on one
   * clock; `attempts` and `maxAttempts` are the usage counters.
   */
  datatype MfaToken = MfaToken(status: TokenStatus, expiresAt: int, attempts: int, maxAttempts: int)

  /** The attempt budget a token gets when none is given. */
  const DefaultMaxAttempts: int := 3

  /** A token as first stored: pending, no attempts yet, the default attempt budget. */
  function NewToken(expiresAt: int): (t: MfaToken)
    ensures t.status == Pending && t.attempts == 0 && t.maxAttempts == DefaultMaxAttempts
    ensures forall now :: IsValid(t, now) <==> now < expiresAt
  {
    MfaToken(Pending, expiresAt, 0, DefaultMaxAttempts)
  }

  /**
   * Whether the token can still be used at instant `now`: it is pending, it expires
   * strictly after `now`, and its attempts are below the budget.
   */
  function IsValid(t: MfaToken, now: int): (r: bool)
    ensures r ==> t.status == Pending
    ensures r ==> now < t.expiresAt
    ensures r ==> t.attempts < t.maxAttempts
    ensures t.status == Pending && now < t.expiresAt && t.attempts < t.maxAttempts ==> r
  {
    t.status == Pending && t.expiresAt > now && t.attempts < t.maxAttempts
  }

  /** A used, expired or revoked token is never valid, at any instant. */
  lemma SettledTokenNeverValid(t: MfaToken, now: int)
    requires t.status in {Used, Expired, Revoked}
    ensures !IsValid(t, now)
  {
  }

  /** At the very instant of expiry the token is already invalid. */
  lemma InvalidAtExpiry(t: MfaToken)
    ensures !IsValid(t, t.expiresAt)
  {
  }

  /** A token whose attempt budget is zero is never valid. */
  lemma ZeroBudgetNeverValid(t: MfaToken, now: int)
    requires t.maxAttempts == 0 && t.attempts >= 0
    ensures !IsValid(t, now)
  {
  }

  /** A token valid at `now` was valid at every earlier instant. */
  lemma ValidEarlier(t: MfaToken, now: int, earlier: int)
    requires earlier <= now
    ensures IsValid(t, now) ==> IsValid(t, earlier)
  {
  }

  /** Raising the attempt count never makes an invalid token valid. */
  lemma MoreAttemptsStayInvalid(t: MfaToken, now: int, attempts: int)
    requires attempts >= t.attempts
    ensures !IsValid(t, now) ==> !IsValid(t.(attempts := attempts), now)
  {
  }

  /**
   * A new token is valid exactly before its expiry, and stops being valid once its
   * attempt count reaches the default budget of three.
   */
  lemma NewTokenValidity(expiresAt: int, now: int)
    ensures IsValid(NewToken(expiresAt), now) <==> now < expiresAt
    ensures IsValid(NewToken(expiresAt).(attempts := 2), now) <==> now < expiresAt
    ensures !IsValid(NewToken(expiresAt).(attempts := 3), now)
  {
  }
}
