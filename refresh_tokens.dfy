// UserRefreshToken (Core/Entities/UserRefreshToken.cs): the stored refresh
// token and its derived state, read against a clock value `now`.

module RefreshTokens {
  import opened Wrappers
  import opened Calendar

  datatype UserRefreshToken = UserRefreshToken(userId: int, token: string, expiresAt: Ticks, revokedAt: Option<Ticks>)

  /** `IsExpired`: the clock has reached the expiry instant (the boundary itself counts as expired). */
  predicate IsExpired(t: UserRefreshToken, now: Ticks)
  {
    now >= t.expiresAt
  }

  /** `IsRevoked`: a revocation time has been recorded. */
  predicate IsRevoked(t: UserRefreshToken)
  {
    t.revokedAt.Some?
  }

  /** `IsActive`: neither revoked nor expired. */
  predicate IsActive(t: UserRefreshToken, now: Ticks)
  {
    !IsRevoked(t) && !IsExpired(t, now)
  }

  /**
   * The computed `IsActive` agrees with the column condition the repository
   * writes out for the database (`RevokedAt == null && ExpiresAt > now`).
   */
  lemma ActiveIffColumns(t: UserRefreshToken, now: Ticks)
    ensures IsActive(t, now) <==> t.revokedAt == None && t.expiresAt > now
  {
  }

  /** A token that has expired stays expired as the clock moves on. */
  lemma ExpiryIsMonotone(t: UserRefreshToken, now: Ticks, later: Ticks)
    requires IsExpired(t, now) && now <= later
    ensures IsExpired(t, later) && !IsActive(t, later)
  {
  }

  /** Recording a revocation makes a token inactive at every instant. */
  lemma RevokedIsNeverActive(t: UserRefreshToken, at: Ticks, now: Ticks)
    ensures IsRevoked(t.(revokedAt := Some(at))) && !IsActive(t.(revokedAt := Some(at)), now)
  {
  }
}
