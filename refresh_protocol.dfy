// The refresh-token protocol of AuthService stated over the token table:
// which branch a presented token takes, what rotation and reuse detection
// leave behind, and the properties that make rotation safe (a rotated-out
// token can never be used again, and replaying it revokes every live token
// of its owner).

module RefreshProtocol {
  import opened Wrappers
  import opened Text
  import opened Calendar
  import opened Persistence
  import opened BaseRepository
  import opened RefreshTokens
  import opened TokenRepository

  /** The branches of `RefreshTokenAsync`, in the order the method tests them. */
  datatype RefreshCase =
    | Blank            // null, empty or white space: "Refresh token gereklidir."
    | Unknown          // no live row holds it: "Geçersiz refresh token."
    | Reused(at: nat)  // found but revoked: every active token of the owner is revoked
    | Expired(at: nat) // found, not revoked, past expiry
    | Rotate(at: nat)  // active: revoked and replaced by a new token

  /** The branch a presented token takes against the table `rows` at instant `now`. */
  function RefreshCaseOf(rows: seq<Row<UserRefreshToken>>, token: Option<string>, now: Ticks): (c: RefreshCase)
    ensures c.Blank? <==> IsNullOrWhiteSpace(token)
    ensures c.Unknown? <==> !IsNullOrWhiteSpace(token) && TokenIndex(rows, token.value).None?
    ensures (c.Reused? || c.Expired? || c.Rotate?) ==>
      token.Some? && TokenIndex(rows, token.value) == Some(c.at) && c.at < |rows|
    ensures c.Reused? ==> IsRevoked(rows[c.at].entity)
    ensures c.Expired? ==> !IsRevoked(rows[c.at].entity) && IsExpired(rows[c.at].entity, now)
    ensures c.Rotate? ==> IsActive(rows[c.at].entity, now)
  {
    if IsNullOrWhiteSpace(token) then Blank
    else match TokenIndex(rows, token.value)
      case None => Unknown
      case Some(i) =>
        if IsRevoked(rows[i].entity) then Reused(i)
        else if IsExpired(rows[i].entity, now) then Expired(i)
        else Rotate(i)
  }

  /** `token.RevokedAt = DateTime.UtcNow` on a tracked row. */
  function Revoke(r: Row<UserRefreshToken>, now: Ticks): Row<UserRefreshToken>
  {
    r.(entity := r.entity.(revokedAt := Some(now)))
  }

  /** The table after `RevokeAllUserTokens(userId)`: each active token of that user revoked now. */
  function RevokeAll(rows: seq<Row<UserRefreshToken>>, userId: int, now: Ticks): (r: seq<Row<UserRefreshToken>>)
    ensures |r| == |rows|
  {
    seq(|rows|, k requires 0 <= k < |rows| => if ActiveOfUser(rows[k], userId, now) then Revoke(rows[k], now) else rows[k])
  }

  /** The table after a rotation: the presented token (at `i`) revoked, the new one appended. */
  function Rotated(rows: seq<Row<UserRefreshToken>>, i: nat, next: Row<UserRefreshToken>, now: Ticks): (r: seq<Row<UserRefreshToken>>)
    requires i < |rows|
    ensures |r| == |rows| + 1
  {
    rows[i := Revoke(rows[i], now)] + [next]
  }

  /** Two tables hold the same rows apart from their CreatedAt / UpdatedAt stamps. */
  predicate SameContent<T(==)>(a: seq<Row<T>>, b: seq<Row<T>>)
  {
    |a| == |b| && forall k :: 0 <= k < |a| ==> a[k].id == b[k].id && a[k].entity == b[k].entity && a[k].isDeleted == b[k].isDeleted
  }

  /** The whole protocol reads only ids, entities and the deleted flag, so the save-time stamps never change a branch. */
  lemma {:induction false} TokenIndexSameContent(a: seq<Row<UserRefreshToken>>, b: seq<Row<UserRefreshToken>>, token: string)
    requires SameContent(a, b)
    ensures TokenIndex(a, token) == TokenIndex(b, token)
  {
    if a != [] {
      assert a[0].entity == b[0].entity && a[0].isDeleted == b[0].isDeleted;
      if !(Visible(a[0]) && HasToken(a[0], token)) {
        assert SameContent(a[1..], b[1..]) by {
          forall k | 0 <= k < |a| - 1 ensures a[1..][k] == a[k + 1] && b[1..][k] == b[k + 1] { }
        }
        TokenIndexSameContent(a[1..], b[1..], token);
      }
    }
  }

  lemma RefreshCaseSameContent(a: seq<Row<UserRefreshToken>>, b: seq<Row<UserRefreshToken>>, token: Option<string>, now: Ticks)
    requires SameContent(a, b)
    ensures RefreshCaseOf(a, token, now) == RefreshCaseOf(b, token, now)
  {
    if token.Some? {
      TokenIndexSameContent(a, b, token.value);
    }
  }

  /** After reuse detection no token of that user is active, and no other user's token changed. */
  lemma RevokeAllLeavesNoActive(rows: seq<Row<UserRefreshToken>>, userId: int, now: Ticks)
    ensures forall k :: 0 <= k < |rows| ==> !ActiveOfUser(RevokeAll(rows, userId, now)[k], userId, now)
    ensures forall k :: 0 <= k < |rows| && rows[k].entity.userId != userId ==> RevokeAll(rows, userId, now)[k] == rows[k]
    ensures GetActiveTokensByUserId(RevokeAll(rows, userId, now), userId, now) == []
  {
    var after := RevokeAll(rows, userId, now);
    GetNone(after, (x: Row<UserRefreshToken>) => x.entity.userId == userId && x.entity.revokedAt == None && x.entity.expiresAt > now);
  }

  /** Revocation never moves a token in the lookup: every token string is found where it was found before. */
  lemma {:induction false} RevokeAllKeepsLookup(rows: seq<Row<UserRefreshToken>>, userId: int, now: Ticks, token: string)
    ensures TokenIndex(RevokeAll(rows, userId, now), token) == TokenIndex(rows, token)
  {
    var after := RevokeAll(rows, userId, now);
    if rows != [] && !(Visible(rows[0]) && HasToken(rows[0], token)) {
      assert after[1..] == RevokeAll(rows[1..], userId, now);
      RevokeAllKeepsLookup(rows[1..], userId, now, token);
    }
  }

  /**
   * Rotation retires the presented token: at any later instant it is
   * still found, now revoked, so presenting it again is treated as reuse.
   */
  lemma RotatedTokenIsReused(rows: seq<Row<UserRefreshToken>>, token: string, i: nat, next: Row<UserRefreshToken>, now: Ticks, later: Ticks)
    requires RefreshCaseOf(rows, Some(token), now) == Rotate(i)
    ensures RefreshCaseOf(Rotated(rows, i, next, now), Some(token), later) == Reused(i)
  {
    var updated := rows[i := Revoke(rows[i], now)];
    TokenIndexUpdate(rows, i, Revoke(rows[i], now), token);
    TokenIndexAppend(updated, next, token);
    assert Rotated(rows, i, next, now) == updated + [next];
  }

  /** The token handed out by a rotation is live: until it expires, presenting it rotates it in turn. */
  lemma FreshTokenRotates(rows: seq<Row<UserRefreshToken>>, i: nat, next: Row<UserRefreshToken>, now: Ticks, later: Ticks)
    requires i < |rows| && Unused(rows, next.entity.token) && Visible(next)
    requires !IsNullOrWhiteSpace(Some(next.entity.token)) && IsActive(next.entity, later)
    ensures RefreshCaseOf(Rotated(rows, i, next, now), Some(next.entity.token), later) == Rotate(|rows|)
  {
    var updated := rows[i := Revoke(rows[i], now)];
    assert Unused(updated, next.entity.token) by {
      forall k | 0 <= k < |updated| ensures updated[k].entity.token != next.entity.token {
        assert updated[k].entity.token == rows[k].entity.token;
      }
    }
    TokenIndexFresh(updated, next);
    assert Rotated(rows, i, next, now) == updated + [next];
  }

  /**
   * Replaying a rotated-out token revokes the token that replaced it: a
   * stolen token that has been used once makes the legitimate successor
   * unusable too, and the successor's next presentation is itself reuse.
   */
  lemma ReplayRevokesSuccessor(rows: seq<Row<UserRefreshToken>>, token: string, i: nat, next: Row<UserRefreshToken>, now: Ticks, later: Ticks)
    requires RefreshCaseOf(rows, Some(token), now) == Rotate(i)
    requires next.entity.userId == rows[i].entity.userId && Unused(rows, next.entity.token) && Visible(next)
    requires !IsNullOrWhiteSpace(Some(next.entity.token)) && IsActive(next.entity, later)
    ensures var after := RevokeAll(Rotated(rows, i, next, now), rows[i].entity.userId, later);
      !IsActive(after[|rows|].entity, later) && RefreshCaseOf(after, Some(next.entity.token), later) == Reused(|rows|)
  {
    var rotated := Rotated(rows, i, next, now);
    var uid := rows[i].entity.userId;
    FreshTokenRotates(rows, i, next, now, later);
    RevokeAllKeepsLookup(rotated, uid, later, next.entity.token);
    assert rotated[|rows|] == next;
    assert ActiveOfUser(rotated[|rows|], uid, later);
  }

  /** `GetUserIdFromRefreshTokenAsync`: the owner of the presented token, whether or not the token is still active. */
  function UserIdOf(rows: seq<Row<UserRefreshToken>>, token: Option<string>): (r: Option<int>)
    ensures r.Some? <==> !IsNullOrWhiteSpace(token) && TokenIndex(rows, token.value).Some?
    ensures r.Some? ==> exists k :: 0 <= k < |rows| && Visible(rows[k]) && rows[k].entity.token == token.value && rows[k].entity.userId == r.value
  {
    if IsNullOrWhiteSpace(token) then None
    else match TokenIndex(rows, token.value)
      case None => None
      case Some(k) => Some(rows[k].entity.userId)
  }

  /** A token that rotation or reuse detection revoked still names its owner. */
  lemma UserIdSurvivesRevocation(rows: seq<Row<UserRefreshToken>>, userId: int, now: Ticks, token: Option<string>)
    ensures UserIdOf(RevokeAll(rows, userId, now), token) == UserIdOf(rows, token)
  {
    if token.Some? {
      RevokeAllKeepsLookup(rows, userId, now, token.value);
    }
  }

  /** `RevokeTokenAsync` succeeds exactly for a present, found and active token. */
  predicate CanRevoke(rows: seq<Row<UserRefreshToken>>, token: Option<string>, now: Ticks)
  {
    !IsNullOrWhiteSpace(token) && TokenIndex(rows, token.value).Some? && IsActive(rows[TokenIndex(rows, token.value).value].entity, now)
  }

  /** Revoking is final: once a token was revoked, revoking it again fails at every later instant. */
  lemma RevokeIsFinal(rows: seq<Row<UserRefreshToken>>, token: Option<string>, now: Ticks, later: Ticks)
    requires CanRevoke(rows, token, now)
    ensures var i := TokenIndex(rows, token.value).value; !CanRevoke(rows[i := Revoke(rows[i], now)], token, later)
  {
    var i := TokenIndex(rows, token.value).value;
    TokenIndexUpdate(rows, i, Revoke(rows[i], now), token.value);
  }
}
