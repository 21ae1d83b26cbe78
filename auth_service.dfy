// AuthService: registration, login, refresh-token rotation with reuse
// detection, and revocation. The service holds the two tables it works on
// (users and refresh tokens). Password hashing and checking (BCrypt), the
// JWT access token and the random refresh-token string are computed
// outside and passed in; `now` is the clock reading of the request.

module AuthService {
  import opened Wrappers
  import opened Text
  import opened Calendar
  import opened Persistence
  import opened Entities
  import opened RefreshTokens
  import opened TokenRepository
  import opened UserRepository
  import opened UnitOfWork
  import opened AuthValidators
  import opened RefreshProtocol

  /** `AuthResponseDto`. */
  datatype AuthResponse = AuthResponse(accessToken: string, userId: string, email: string, refreshToken: string)

  const EmailTaken := "Bu e-posta adresi zaten kullanılıyor."
  const InvalidCredentials := "Geçersiz e-posta veya şifre."
  const TokenRequired := "Refresh token gereklidir."
  const InvalidRefreshToken := "Geçersiz refresh token."
  const RefreshTokenRevoked := "Refresh token iptal edilmiş."
  const RefreshTokenExpired := "Refresh token süresi dolmuş."
  const InvalidOrInactive := "Geçersiz veya aktif olmayan refresh token."
  const RefreshServerError := "Token yenileme sırasında bir sunucu hatası oluştu."

  /** The refresh-token lifetime when `JwtSettings:RefreshTokenTTLDays` is not configured. */
  const DefaultRefreshTokenTtlDays := 7

  /** `Convert.ToInt32(setting ?? "7")`: `None` when the configured text is not an integer (the constructor throws). */
  function RefreshTokenTtlDays(setting: Option<string>): (r: Option<int>)
    ensures setting.None? ==> r == Some(DefaultRefreshTokenTtlDays)
  {
    match setting
    case None => Some(DefaultRefreshTokenTtlDays)
    case Some(s) => ParseInt(s)
  }

  /** Any lifetime written in the configuration as an integer is the lifetime the service uses. */
  lemma TtlSettingRoundTrip(days: int)
    ensures RefreshTokenTtlDays(Some(IntToString(days))) == Some(days)
  {
    IntRoundTrip(days);
  }

  /** Some stored user has identity `id`. */
  predicate HasUser(users: seq<User>, id: int)
  {
    exists j :: 0 <= j < |users| && users[j].id == id
  }

  /** The `UserId` foreign key: every refresh token belongs to a stored user. */
  predicate TokensHaveUsers(rows: seq<Row<UserRefreshToken>>, users: seq<User>)
  {
    forall k :: 0 <= k < |rows| ==> HasUser(users, rows[k].entity.userId)
  }

  /** The refresh token row `GenerateAndSaveTokens` adds for user `id`. */
  function IssuedToken(rowId: int, userId: int, token: string, now: Ticks, ttlDays: int): Row<UserRefreshToken>
  {
    Row(rowId, now, None, false, UserRefreshToken(userId, token, AddDays(now, ttlDays), None))
  }

  class AuthService {
    const users: UserStore
    const tokens: DbSet<UserRefreshToken>
    const refreshTokenTtlDays: int

    ghost predicate Valid()
      reads users, tokens
    {
      users.Valid() && SetValid(tokens) && TokensHaveUsers(tokens.rows, users.users)
    }

    /** Between requests: consistent, with no pending change. */
    ghost predicate Ready()
      reads users, tokens
    {
      Valid() && tokens.Clean()
    }

    /** The constructor reads the token lifetime from the configuration. */
    constructor (users: UserStore, tokens: DbSet<UserRefreshToken>, ttlSetting: Option<string>)
      requires RefreshTokenTtlDays(ttlSetting).Some?
      ensures this.users == users && this.tokens == tokens
      ensures refreshTokenTtlDays == RefreshTokenTtlDays(ttlSetting).value
    {
      this.users := users;
      this.tokens := tokens;
      refreshTokenTtlDays := RefreshTokenTtlDays(ttlSetting).value;
    }

    /**
     * `GenerateAndSaveTokens(user)`: adds the user's new refresh token
     * (not yet saved) and builds the response.
     */
    method IssueTokens(user: User, accessToken: string, newToken: string, now: Ticks) returns (resp: AuthResponse)
      requires Valid() && HasUser(users.users, user.id)
      modifies tokens
      ensures Valid() && users.users == old(users.users)
      ensures tokens.rows == old(tokens.rows) + [IssuedToken(old(tokens.nextId), user.id, newToken, now, refreshTokenTtlDays)]
      ensures tokens.states == old(tokens.states) + [Added]
      ensures resp == AuthResponse(accessToken, IntToString(user.id), user.email, newToken)
    {
      var r := tokens.Add(UserRefreshToken(user.id, newToken, AddDays(now, refreshTokenTtlDays), None), now);
      assert tokens.rows[|tokens.rows| - 1] == r;
      resp := AuthResponse(accessToken, IntToString(user.id), user.email, newToken);
    }

    /** `CompleteAsync()`: only the token table has entries to save. */
    method Complete(now: Ticks)
      requires Valid()
      modifies tokens
      ensures Ready() && users.users == old(users.users) && Saved(tokens, now)
    {
      Save(tokens, now);
      OwnersKept(old(tokens.rows), tokens.rows, users.users);
    }

    /**
     * `RegisterAsync`: a valid request with an unused address stores the
     * user under the lower-cased address and returns a new token pair; an
     * invalid request returns every validation message, a taken address
     * (in any letter case) its own message, and neither changes anything.
     */
    method Register(d: RegisterDto, passwordHash: string, accessToken: string, newToken: string, now: Ticks)
      returns (r: Result<AuthResponse>)
      requires Ready()
      modifies users, tokens
      ensures Ready()
      ensures !RegisterAcceptable(d) ==> r == Failure(RegisterErrors(d))
      ensures RegisterAcceptable(d) && GetByEmail(old(users.users), d.email.value).Some? ==> r == FailureOf(EmailTaken)
      ensures !r.isSuccess ==> users.users == old(users.users) && tokens.rows == old(tokens.rows)
      ensures r.isSuccess <==> RegisterAcceptable(d) && GetByEmail(old(users.users), d.email.value).None?
      ensures r.isSuccess ==>
        var u := User(old(users.nextId), ToLower(d.email.value), passwordHash, None, Some("TRY"), now);
        users.users == old(users.users) + [u]
        && tokens.rows == old(tokens.rows) + [IssuedToken(old(tokens.nextId), u.id, newToken, now, refreshTokenTtlDays)]
        && r == Success(AuthResponse(accessToken, IntToString(u.id), u.email, newToken))
    {
      var errs := RegisterErrors(d);
      if errs != [] {
        return Failure(errs);
      }
      var email := d.email.value;
      if GetByEmail(users.users, email).Some? {
        return FailureOf(EmailTaken);
      }
      ghost var rows0 := tokens.rows;
      var added := users.Add(User(0, ToLower(email), passwordHash, None, Some("TRY"), now));
      UsersGrow(tokens.rows, old(users.users), added);
      Complete(now);
      assert tokens.rows == rows0;
      assert HasUser(users.users, added.id) by {
        assert users.users[|users.users| - 1] == added;
      }
      var resp := IssueTokens(added, accessToken, newToken, now);
      Complete(now);
      return Success(resp);
    }

    /**
     * `LoginAsync`: an unknown address and a wrong password draw the same
     * message, so a caller cannot tell which one failed.
     */
    method Login(d: LoginDto, verify: (string, string) -> bool, accessToken: string, newToken: string, now: Ticks)
      returns (r: Result<AuthResponse>)
      requires Ready()
      modifies tokens
      ensures Ready() && users.users == old(users.users)
      ensures !LoginAcceptable(d) ==> r == Failure(LoginErrors(d))
      ensures LoginAcceptable(d) && !r.isSuccess ==> r == FailureOf(InvalidCredentials)
      ensures !r.isSuccess ==> tokens.rows == old(tokens.rows)
      ensures r.isSuccess <==> (LoginAcceptable(d) && GetByEmail(users.users, d.email.value).Some?
                                && verify(d.password.value, GetByEmail(users.users, d.email.value).value.passwordHash))
      ensures r.isSuccess ==>
        var u := GetByEmail(users.users, d.email.value).value;
        tokens.rows == old(tokens.rows) + [IssuedToken(old(tokens.nextId), u.id, newToken, now, refreshTokenTtlDays)]
        && r == Success(AuthResponse(accessToken, IntToString(u.id), u.email, newToken))
    {
      var errs := LoginErrors(d);
      if errs != [] {
        return Failure(errs);
      }
      var found := GetByEmail(users.users, d.email.value);
      if found.None? {
        return FailureOf(InvalidCredentials);
      }
      var user := found.value;
      if !verify(d.password.value, user.passwordHash) {
        return FailureOf(InvalidCredentials);
      }
      assert HasUser(users.users, user.id) by {
        var j :| 0 <= j < |users.users| && users.users[j] == user;
      }
      var resp := IssueTokens(user, accessToken, newToken, now);
      Complete(now);
      return Success(resp);
    }

    /**
     * `RevokeAllUserTokens(userId)`: every token of the user that is
     * active now is revoked and marked Modified (not yet saved).
     */
    method RevokeAllUserTokens(userId: int, now: Ticks)
      requires Valid()
      modifies tokens
      ensures Valid() && users.users == old(users.users) && tokens.nextId == old(tokens.nextId)
      ensures tokens.rows == RevokeAll(old(tokens.rows), userId, now)
      ensures |tokens.states| == |old(tokens.states)|
      ensures forall k :: 0 <= k < |tokens.states| ==>
        tokens.states[k] == if ActiveOfUser(old(tokens.rows)[k], userId, now) then Modified else old(tokens.states)[k]
    {
      ghost var rows0 := tokens.rows;
      ghost var states0 := tokens.states;
      var i := 0;
      while i < |tokens.rows|
        invariant Valid() && users.users == old(users.users) && tokens.nextId == old(tokens.nextId)
        invariant 0 <= i <= |tokens.rows| == |rows0| == |tokens.states|
        invariant forall k :: 0 <= k < i ==> tokens.rows[k] == RevokeAll(rows0, userId, now)[k]
        invariant forall k :: i <= k < |rows0| ==> tokens.rows[k] == rows0[k]
        invariant forall k :: 0 <= k < i ==> tokens.states[k] == if ActiveOfUser(rows0[k], userId, now) then Modified else states0[k]
        invariant forall k :: i <= k < |rows0| ==> tokens.states[k] == states0[k]
      {
        if ActiveOfUser(tokens.rows[i], userId, now) {
          ghost var before := tokens.rows;
          tokens.SetModified(i, Revoke(tokens.rows[i], now));
          OwnersKept(before, tokens.rows, users.users);
        }
        i := i + 1;
      }
      assert tokens.rows == RevokeAll(rows0, userId, now);
    }

    /**
     * `RefreshTokenAsync`: the branch is `RefreshCaseOf` the table. A
     * revoked token is taken as theft: all of the owner's active tokens
     * are revoked and saved. An active token is revoked and replaced by
     * `newToken` in one save.
     */
    method RefreshToken(token: Option<string>, accessToken: string, newToken: string, now: Ticks)
      returns (r: Result<AuthResponse>)
      requires Ready()
      modifies tokens
      ensures Ready() && users.users == old(users.users)
      ensures match RefreshCaseOf(old(tokens.rows), token, now)
        case Blank => r == FailureOf(TokenRequired) && tokens.rows == old(tokens.rows)
        case Unknown => r == FailureOf(InvalidRefreshToken) && tokens.rows == old(tokens.rows)
        case Expired(_) => r == FailureOf(RefreshTokenExpired) && tokens.rows == old(tokens.rows)
        case Reused(i) =>
          r == FailureOf(RefreshTokenRevoked)
          && SameContent(tokens.rows, RevokeAll(old(tokens.rows), old(tokens.rows)[i].entity.userId, now))
        case Rotate(i) =>
          var uid := old(tokens.rows)[i].entity.userId;
          GetById(users.users, uid).Some?
          && var u := GetById(users.users, uid).value;
          r == Success(AuthResponse(accessToken, IntToString(uid), u.email, newToken))
          && SameContent(tokens.rows, Rotated(old(tokens.rows), i, IssuedToken(old(tokens.nextId), uid, newToken, now, refreshTokenTtlDays), now))
    {
      ghost var rows0 := tokens.rows;
      ghost var c := RefreshCaseOf(rows0, token, now);
      if IsNullOrWhiteSpace(token) {
        return FailureOf(TokenRequired);
      }
      var found := TokenIndex(tokens.rows, token.value);
      if found.None? {
        return FailureOf(InvalidRefreshToken);
      }
      var i := found.value;
      var stored := tokens.rows[i];
      if IsRevoked(stored.entity) {
        RevokeAllUserTokens(stored.entity.userId, now);
        ghost var pending := tokens.rows;
        ghost var states := tokens.states;
        Complete(now);
        StampsKeepContent(pending, states, tokens.rows, now);
        return FailureOf(RefreshTokenRevoked);
      }
      if IsExpired(stored.entity, now) {
        return FailureOf(RefreshTokenExpired);
      }
      r := RotateToken(i, stored.entity.userId, accessToken, newToken, now);
    }

    /** The rotation branch of `RefreshTokenAsync`. */
    method RotateToken(i: nat, uid: int, accessToken: string, newToken: string, now: Ticks) returns (r: Result<AuthResponse>)
      requires Ready() && i < |tokens.rows| && tokens.rows[i].entity.userId == uid
      modifies tokens
      ensures Ready() && users.users == old(users.users)
      ensures GetById(users.users, uid).Some?
      ensures r == Success(AuthResponse(accessToken, IntToString(uid), GetById(users.users, uid).value.email, newToken))
      ensures SameContent(tokens.rows, Rotated(old(tokens.rows), i, IssuedToken(old(tokens.nextId), uid, newToken, now, refreshTokenTtlDays), now))
    {
      ghost var rows0 := tokens.rows;
      assert HasUser(users.users, uid);
      var user := GetById(users.users, uid).value;
      tokens.SetModified(i, Revoke(tokens.rows[i], now));
      OwnersKept(rows0, tokens.rows, users.users);
      var resp := IssueTokens(user, accessToken, newToken, now);
      ghost var pending := tokens.rows;
      ghost var states := tokens.states;
      assert pending == Rotated(rows0, i, IssuedToken(old(tokens.nextId), uid, newToken, now, refreshTokenTtlDays), now);
      Complete(now);
      StampsKeepContent(pending, states, tokens.rows, now);
      r := Success(resp);
    }

    /** `RevokeTokenAsync`: succeeds exactly when `CanRevoke`, and then only that token is revoked. */
    method RevokeToken(token: Option<string>, now: Ticks) returns (r: UnitResult)
      requires Ready()
      modifies tokens
      ensures Ready() && users.users == old(users.users)
      ensures IsNullOrWhiteSpace(token) ==> r == UnitFailureOf(TokenRequired)
      ensures !IsNullOrWhiteSpace(token) && !CanRevoke(old(tokens.rows), token, now) ==> r == UnitFailureOf(InvalidOrInactive)
      ensures r.isSuccess <==> CanRevoke(old(tokens.rows), token, now)
      ensures !r.isSuccess ==> tokens.rows == old(tokens.rows)
      ensures r.isSuccess ==>
        var i := TokenIndex(old(tokens.rows), token.value).value;
        SameContent(tokens.rows, old(tokens.rows)[i := Revoke(old(tokens.rows)[i], now)])
    {
      if IsNullOrWhiteSpace(token) {
        return UnitFailureOf(TokenRequired);
      }
      var found := TokenIndex(tokens.rows, token.value);
      if found.None? || !IsActive(tokens.rows[found.value].entity, now) {
        return UnitFailureOf(InvalidOrInactive);
      }
      ghost var rows0 := tokens.rows;
      var i := found.value;
      tokens.SetModified(i, Revoke(tokens.rows[i], now));
      OwnersKept(rows0, tokens.rows, users.users);
      ghost var pending := tokens.rows;
      ghost var states := tokens.states;
      Complete(now);
      StampsKeepContent(pending, states, tokens.rows, now);
      r := UnitSuccess();
    }

    /** `GetUserIdFromRefreshTokenAsync`. */
    function GetUserIdFromRefreshToken(token: Option<string>): (r: Option<int>)
      reads tokens
      ensures r == UserIdOf(tokens.rows, token)
    {
      UserIdOf(tokens.rows, token)
    }
  }

  /**
   * The reuse branch as the source writes it. `RevokeAllUserTokens` hands
   * EF Core the filter `rt.UserId == userId && rt.IsActive`, and `IsActive`
   * is a computed property with no column, so the query cannot be
   * translated and throws before any token is touched. The catch block
   * answers with the generic refresh error, and the pending changes are
   * never saved: the table is left as it was.
   */
  function ReuseBranchAsWritten(rows: seq<Row<UserRefreshToken>>, userId: int, now: Ticks): (out: (Result<AuthResponse>, seq<Row<UserRefreshToken>>))
    ensures !out.0.isSuccess && out.0.errors == [RefreshServerError]
  {
    (FailureOf(RefreshServerError), rows)
  }

  /**
   * As written, replaying a rotated-out token leaves the token that
   * replaced it usable: presenting the successor afterwards still rotates
   * it, whereas the intended reuse detection (`ReplayRevokesSuccessor`)
   * makes it count as reuse.
   */
  lemma ReplayAsWrittenKeepsSuccessor(rows: seq<Row<UserRefreshToken>>, token: string, i: nat, next: Row<UserRefreshToken>, now: Ticks, later: Ticks)
    requires RefreshCaseOf(rows, Some(token), now) == Rotate(i)
    requires next.entity.userId == rows[i].entity.userId && Unused(rows, next.entity.token) && Visible(next)
    requires !IsNullOrWhiteSpace(Some(next.entity.token)) && IsActive(next.entity, later)
    ensures var rotated := Rotated(rows, i, next, now);
      RefreshCaseOf(rotated, Some(token), later) == Reused(i)
      && RefreshCaseOf(ReuseBranchAsWritten(rotated, rows[i].entity.userId, later).1, Some(next.entity.token), later) == Rotate(|rows|)
      && RefreshCaseOf(RevokeAll(rotated, rows[i].entity.userId, later), Some(next.entity.token), later) == Reused(|rows|)
  {
    RotatedTokenIsReused(rows, token, i, next, now, later);
    FreshTokenRotates(rows, i, next, now, later);
    ReplayRevokesSuccessor(rows, token, i, next, now, later);
  }

  /** Changing rows without changing their owners keeps the foreign key. */
  lemma OwnersKept(a: seq<Row<UserRefreshToken>>, b: seq<Row<UserRefreshToken>>, users: seq<User>)
    requires TokensHaveUsers(a, users) && |b| == |a|
    requires forall k :: 0 <= k < |a| ==> b[k].entity.userId == a[k].entity.userId
    ensures TokensHaveUsers(b, users)
  {
    forall k | 0 <= k < |b| ensures HasUser(users, b[k].entity.userId) {
      assert HasUser(users, a[k].entity.userId);
    }
  }

  /** Adding a user keeps every token's owner. */
  lemma UsersGrow(rows: seq<Row<UserRefreshToken>>, users: seq<User>, u: User)
    requires TokensHaveUsers(rows, users)
    ensures TokensHaveUsers(rows, users + [u])
  {
    forall k | 0 <= k < |rows| ensures HasUser(users + [u], rows[k].entity.userId) {
      var j :| 0 <= j < |users| && users[j].id == rows[k].entity.userId;
      assert (users + [u])[j] == users[j];
    }
  }

  /** The save-time stamps change neither ids, entities nor deleted flags. */
  lemma StampsKeepContent(pending: seq<Row<UserRefreshToken>>, states: seq<EntryState>, saved: seq<Row<UserRefreshToken>>, now: Ticks)
    requires |saved| == |pending| == |states|
    requires forall k :: 0 <= k < |saved| ==> saved[k] == Stamp(pending[k], states[k], now)
    requires forall k :: 0 <= k < |states| ==> states[k] != Added || Visible(pending[k])
    ensures SameContent(saved, pending)
  {
  }
}
