/** Liveness of a user session at a given instant. */
module Sessions {
  import opened Wrappers

  /** The lifecycle status of a user session. */
  datatype SessionStatus = Active | Expired | Terminated | Revoked

  /**
   * The columns of a session that its liveness reads: the status, the expiry instant
   * and the instant it was terminated, if it was.
   */
  datatype UserSession = UserSession(status: SessionStatus, expiresAt: int, terminatedAt: Option<int>)

  /**
   * Whether the session is in use at instant `now`: its status is active, it expires
   * strictly after `now`, and it was never terminated.
   */
  function IsActive(s: UserSession, now: int): (r: bool)
    ensures r ==> s.status == Active && now < s.expiresAt
    ensures s.terminatedAt.Some? ==> !r
    ensures s.status == Active && now < s.expiresAt && s.terminatedAt.None? ==> r
  {
    s.status == Active && s.expiresAt > now && s.terminatedAt == None
  }

  /** Whether the session has expired at `now`: by its clock, or by its status. */
  function IsExpired(s: UserSession, now: int): (r: bool)
    ensures s.expiresAt <= now ==> r
    ensures s.status == Expired ==> r
    ensures r ==> s.expiresAt <= now || s.status == Expired
  {
    s.expiresAt <= now || s.status == Expired
  }

  /** No session is both active and expired. */
  lemma ActiveExcludesExpired(s: UserSession, now: int)
    ensures !(IsActive(s, now) && IsExpired(s, now))
  {
  }

  /** An expired session stays expired at every later instant. */
  lemma ExpiredStaysExpired(s: UserSession, now: int, later: int)
    requires now <= later
    ensures IsExpired(s, now) ==> IsExpired(s, later)
  {
  }

  /** An active session was active at every earlier instant. */
  lemma ActiveEarlier(s: UserSession, now: int, earlier: int)
    requires earlier <= now
    ensures IsActive(s, now) ==> IsActive(s, earlier)
  {
  }

  /** An expired status makes the session expired even before its expiry instant. */
  lemma ExpiredStatusOverridesClock(s: UserSession, now: int)
    requires s.status == Expired && now < s.expiresAt
    ensures IsExpired(s, now) && !IsActive(s, now)
  {
  }

  /** A revoked or terminated session whose expiry lies ahead is neither active nor expired. */
  lemma ClosedBeforeExpiryIsNeither(s: UserSession, now: int)
    requires s.status in {Revoked, Terminated} && now < s.expiresAt
    ensures !IsActive(s, now) && !IsExpired(s, now)
  {
  }

  /** A session with active status that was never terminated is exactly one of active or expired. */
  lemma OpenSessionActiveOrExpired(s: UserSession, now: int)
    requires s.status == Active && s.terminatedAt.None?
    ensures IsActive(s, now) != IsExpired(s, now)
  {
  }
}
