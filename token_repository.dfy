// UserRefreshTokenRepository: lookups over the refresh-token set. The token
// set is a BaseEntity set, so the soft-delete filter applies to every read;
// its UpdateAsync only marks the entry Modified (no UpdatedAt stamp here,
// unlike BaseRepository.UpdateAsync).

module TokenRepository {
  import opened Wrappers
  import opened Calendar
  import opened Persistence
  import opened BaseRepository
  import opened RefreshTokens

  /** The row predicate `rt => rt.Token == token`. */
  predicate HasToken(r: Row<UserRefreshToken>, token: string)
  {
    r.entity.token == token
  }

  /** Where `GetByTokenAsync` finds its token: the first live row holding that string. */
  function TokenIndex(rows: seq<Row<UserRefreshToken>>, token: string): (r: Option<nat>)
    ensures r.Some? ==> r.value < |rows| && Visible(rows[r.value]) && rows[r.value].entity.token == token
    ensures r.Some? ==> forall k :: 0 <= k < r.value ==> !(Visible(rows[k]) && rows[k].entity.token == token)
    ensures r.None? ==> forall k :: 0 <= k < |rows| && Visible(rows[k]) ==> rows[k].entity.token != token
  {
    FirstIndex(rows, (x: Row<UserRefreshToken>) => HasToken(x, token))
  }

  /** `GetByTokenAsync(token)`: `FirstOrDefault(rt => rt.Token == token)`. */
  function GetByToken(rows: seq<Row<UserRefreshToken>>, token: string): (r: Option<Row<UserRefreshToken>>)
    ensures r.Some? <==> TokenIndex(rows, token).Some?
    ensures r.Some? ==> r.value == rows[TokenIndex(rows, token).value]
  {
    match TokenIndex(rows, token)
    case None => None
    case Some(k) => Some(rows[k])
  }

  /** `GetActiveTokensByUserIdAsync(userId)`: the user's tokens that are neither revoked nor past expiry. */
  function GetActiveTokensByUserId(rows: seq<Row<UserRefreshToken>>, userId: int, now: Ticks): (r: seq<Row<UserRefreshToken>>)
    ensures forall k :: 0 <= k < |r| ==> r[k] in rows && Visible(r[k]) && r[k].entity.userId == userId && IsActive(r[k].entity, now)
    ensures forall k :: 0 <= k < |rows| && Visible(rows[k]) && rows[k].entity.userId == userId && IsActive(rows[k].entity, now) ==> rows[k] in r
  {
    Get(rows, (x: Row<UserRefreshToken>) => x.entity.userId == userId && x.entity.revokedAt == None && x.entity.expiresAt > now)
  }

  /** The predicate RevokeAllUserTokens queries with: `rt.UserId == userId && rt.IsActive`. */
  predicate ActiveOfUser(r: Row<UserRefreshToken>, userId: int, now: Ticks)
  {
    Visible(r) && r.entity.userId == userId && IsActive(r.entity, now)
  }

  /** No live row holds `token`: a freshly generated token string collides with nothing stored. */
  predicate Unused(rows: seq<Row<UserRefreshToken>>, token: string)
  {
    forall k :: 0 <= k < |rows| ==> rows[k].entity.token != token
  }

  /** Appending a row leaves the lookup of every token already present where it was. */
  lemma {:induction false} TokenIndexAppend(rows: seq<Row<UserRefreshToken>>, r: Row<UserRefreshToken>, token: string)
    requires TokenIndex(rows, token).Some?
    ensures TokenIndex(rows + [r], token) == TokenIndex(rows, token)
  {
    if !(Visible(rows[0]) && HasToken(rows[0], token)) {
      assert (rows + [r])[1..] == rows[1..] + [r];
      TokenIndexAppend(rows[1..], r, token);
    }
  }

  /** A fresh token appended as a live row is found by the lookup, at the end. */
  lemma {:induction false} TokenIndexFresh(rows: seq<Row<UserRefreshToken>>, r: Row<UserRefreshToken>)
    requires Unused(rows, r.entity.token) && Visible(r)
    ensures TokenIndex(rows + [r], r.entity.token) == Some(|rows|)
  {
    if rows != [] {
      assert (rows + [r])[1..] == rows[1..] + [r];
      TokenIndexFresh(rows[1..], r);
    }
  }

  /** Changing a row in place without changing its token or liveness keeps the lookup of that token where it was. */
  lemma {:induction false} TokenIndexUpdate(rows: seq<Row<UserRefreshToken>>, i: nat, r: Row<UserRefreshToken>, token: string)
    requires i < |rows| && Visible(r) == Visible(rows[i]) && r.entity.token == rows[i].entity.token
    ensures TokenIndex(rows[i := r], token) == TokenIndex(rows, token)
  {
    if i > 0 && !(Visible(rows[0]) && HasToken(rows[0], token)) {
      assert rows[i := r][1..] == rows[1..][i - 1 := r];
      TokenIndexUpdate(rows[1..], i - 1, r, token);
    }
  }
}
