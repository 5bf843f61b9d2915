/**
 * The authentication service (auth.service.ts): registration, login, token
 * refresh and logout over the user table, and the single refresh-token slot
 * each account holds.
 */
module Auth {
  import opened Wrappers
  import opened Common
  import opened Crypto
  import opened UserStore
  import opened RegisterDto
  import Jwt

  /** The configured `JWT_SECRET` and `REFRESH_TOKEN_SECRET`. */
  datatype Secrets = Secrets(access: string, refresh: string)

  /** `expiresIn: '30s'` and `expiresIn: '7d'`, in seconds. */
  const AccessTokenLifetime: nat := 30
  const RefreshTokenLifetime: nat := 7 * 24 * 60 * 60

  datatype TokenPair = TokenPair(accessToken: Token, refreshToken: Token)

  /** What register and login return: `{ user: { id, username, role }, ...tokens }`. */
  datatype Session = Session(user: Claims, tokens: TokenPair)

  /** The body of `POST /auth/login`. */
  datatype Credentials = Credentials(username: string, password: string)

  /** The JWT payload of an account: `{ sub: id, username, role }`. */
  function ClaimsOf(a: Account): Claims {
    Claims(a.id, a.username, a.role)
  }

  /**
   * `getTokens`: an access token and a refresh token over the same payload,
   * with their own secrets and lifetimes.
   */
  function IssueTokens(a: Account, secrets: Secrets, now: Timestamp): (p: TokenPair)
    ensures Verify(p.accessToken, secrets.access) == Some(ClaimsOf(a))
    ensures Verify(p.refreshToken, secrets.refresh) == Some(ClaimsOf(a))
    ensures p.accessToken.expiresIn == 30 && p.refreshToken.expiresIn == 604800
    ensures secrets.access != secrets.refresh ==>
      Verify(p.accessToken, secrets.refresh).None? && Verify(p.refreshToken, secrets.access).None?
  {
    TokenPair(Sign(ClaimsOf(a), secrets.access, AccessTokenLifetime, now),
              Sign(ClaimsOf(a), secrets.refresh, RefreshTokenLifetime, now))
  }

  /** The password check of `login`: one error for both ways of failing. */
  function CheckCredentials(found: Option<Account>, password: string): (r: Result<Account, Error>)
    ensures r.Ok? <==> found.Some? && BcryptCompare(password, found.value.password)
    ensures r.Ok? ==> r.value == found.value
    ensures r.Err? ==> r.error == Unauthorized("Invalid credentials")
  {
    if found.None? then Err(Unauthorized("Invalid credentials"))
    else if !BcryptCompare(password, found.value.password) then Err(Unauthorized("Invalid credentials"))
    else Ok(found.value)
  }

  /** An unknown username and a wrong password cannot be told apart. */
  lemma LoginFailuresIndistinguishable(a: Account, wrong: string, anyPassword: string)
    requires a.password != BcryptHash(wrong)
    ensures CheckCredentials(Some(a), wrong) == CheckCredentials(None, anyPassword)
  {
  }

  /**
   * The checks of `refreshTokens`: the token verifies with the refresh secret,
   * its subject exists, holds a stored hash, and that hash is of this token.
   * The hash is compared exactly; `CheckRefreshAsWritten` is the same check
   * with bcrypt's 72-byte compare.
   */
  function CheckRefresh(accounts: map<Uuid, Account>, secrets: Secrets, t: Token): (r: Result<Account, Error>)
    ensures r.Ok? <==> (Verify(t, secrets.refresh).Some? && t.claims.sub in accounts &&
                        accounts[t.claims.sub].refreshToken == Some(BcryptHash(t)))
    ensures r.Ok? ==> r.value == accounts[t.claims.sub]
    ensures r.Err? ==> r.error == Unauthorized("Invalid refresh token")
  {
    match Verify(t, secrets.refresh)
    case None => Err(Unauthorized("Invalid refresh token"))
    case Some(claims) =>
      if claims.sub !in accounts || accounts[claims.sub].refreshToken.None? then
        Err(Unauthorized("Invalid refresh token"))
      else if !BcryptCompare(t, accounts[claims.sub].refreshToken.value) then
        Err(Unauthorized("Invalid refresh token"))
      else Ok(accounts[claims.sub])
  }

  /** The slot after `updateRefreshToken(id, token)`. */
  function WithRefreshToken(accounts: map<Uuid, Account>, id: Uuid, slot: Option<Hash<Token>>): map<Uuid, Account> {
    if id in accounts then accounts[id := accounts[id].(refreshToken := slot)] else accounts
  }

  /**
   * After a refresh has rotated the slot, the token just used is refused and
   * the one just issued is accepted, provided the two differ (two tokens over
   * the same payload issued at the same time are the same string).
   */
  lemma NoReplayAfterRotation(accounts: map<Uuid, Account>, secrets: Secrets, used: Token, now: Timestamp)
    requires forall id :: id in accounts ==> accounts[id].id == id
    requires CheckRefresh(accounts, secrets, used).Ok?
    requires IssueTokens(CheckRefresh(accounts, secrets, used).value, secrets, now).refreshToken != used
    ensures var a := CheckRefresh(accounts, secrets, used).value;
            var issued := IssueTokens(a, secrets, now).refreshToken;
            var rotated := WithRefreshToken(accounts, a.id, Some(BcryptHash(issued)));
            CheckRefresh(rotated, secrets, used).Err? && CheckRefresh(rotated, secrets, issued).Ok?
  {
  }

  /**
   * The checks of `refreshTokens` with the last one as the bcrypt library
   * performs it: the presented token's text and the text whose hash is
   * stored are compared on their first 72 bytes only. `subText` writes an id
   * as the token carries it and `mac` is the token signature.
   */
  function CheckRefreshAsWritten(accounts: map<Uuid, Account>, secrets: Secrets, t: Token,
                                 subText: Uuid -> string, mac: (string, string) -> string): (r: Result<Account, Error>)
    ensures r.Ok? <==> (Verify(t, secrets.refresh).Some? && t.claims.sub in accounts &&
                        accounts[t.claims.sub].refreshToken.Some? &&
                        BcryptInput(Jwt.Utf8(Jwt.TokenText(t, subText, mac))) ==
                        BcryptInput(Jwt.Utf8(Jwt.TokenText(accounts[t.claims.sub].refreshToken.value.preimage, subText, mac))))
    ensures r.Ok? ==> r.value == accounts[t.claims.sub]
    ensures r.Err? ==> r.error == Unauthorized("Invalid refresh token")
  {
    match Verify(t, secrets.refresh)
    case None => Err(Unauthorized("Invalid refresh token"))
    case Some(claims) =>
      if claims.sub !in accounts || accounts[claims.sub].refreshToken.None? then
        Err(Unauthorized("Invalid refresh token"))
      else
        var stored := accounts[claims.sub].refreshToken.value.preimage;
        if !BcryptCompareBytes(Jwt.Utf8(Jwt.TokenText(t, subText, mac)),
                               BcryptHashBytes(Jwt.Utf8(Jwt.TokenText(stored, subText, mac)))) then
          Err(Unauthorized("Invalid refresh token"))
        else Ok(accounts[claims.sub])
  }

  /** Whatever the exact check accepts, the check as written accepts too. */
  lemma AsWrittenAcceptsMore(accounts: map<Uuid, Account>, secrets: Secrets, t: Token,
                             subText: Uuid -> string, mac: (string, string) -> string)
    ensures CheckRefresh(accounts, secrets, t).Ok? ==> CheckRefreshAsWritten(accounts, secrets, t, subText, mac).Ok?
  {
  }

  /**
   * As written, rotation does not stop replay: once a refresh at `now` has
   * stored the hash of a new token, the token issued to the same account at
   * any other time `earlier` is still accepted, because every refresh token
   * of an account has the same first 72 bytes. The exact check refuses it.
   */
  lemma ReplayAfterRotationAsWritten(accounts: map<Uuid, Account>, secrets: Secrets, a: Account,
                                     earlier: Timestamp, now: Timestamp,
                                     subText: Uuid -> string, mac: (string, string) -> string)
    requires a.id in accounts && earlier != now
    ensures var used := IssueTokens(a, secrets, earlier).refreshToken;
            var issued := IssueTokens(a, secrets, now).refreshToken;
            var rotated := WithRefreshToken(accounts, a.id, Some(BcryptHash(issued)));
            && used != issued
            && CheckRefresh(rotated, secrets, used).Err?
            && CheckRefreshAsWritten(rotated, secrets, used, subText, mac).Ok?
  {
    Jwt.SameClaimsSameFirst72Bytes(ClaimsOf(a), secrets.refresh, secrets.refresh, earlier, now,
                                   RefreshTokenLifetime, RefreshTokenLifetime, subText, mac);
  }

  /** Once the slot is empty, no token refreshes that account. */
  lemma LogoutRevokes(accounts: map<Uuid, Account>, secrets: Secrets, id: Uuid, t: Token)
    requires t.Signed? && t.claims.sub == id
    ensures CheckRefresh(WithRefreshToken(accounts, id, None), secrets, t).Err?
  {
  }

  /** An access token is never accepted as a refresh token when the secrets differ. */
  lemma AccessTokenCannotRefresh(accounts: map<Uuid, Account>, secrets: Secrets, a: Account, now: Timestamp)
    requires secrets.access != secrets.refresh
    ensures CheckRefresh(accounts, secrets, IssueTokens(a, secrets, now).accessToken).Err?
  {
  }

  /** Only the token issued last for an account can refresh it. */
  lemma OnlyLatestTokenRefreshes(accounts: map<Uuid, Account>, secrets: Secrets, a: Account, t: Token, now: Timestamp)
    requires a.id in accounts
    requires t != IssueTokens(a, secrets, now).refreshToken
    requires t.Signed? && t.claims.sub == a.id
    ensures CheckRefresh(WithRefreshToken(accounts, a.id, Some(BcryptHash(IssueTokens(a, secrets, now).refreshToken))),
                         secrets, t).Err?
  {
  }

  /**
   * `register`: refuses a taken username; otherwise saves a USER account, then
   * its profile, then the refresh hash. The two saves are separate, so a taken
   * email fails the second one after the account row was already written.
   * `dateOf` is `new Date(...)` on the validated date string.
   */
  method Register(users: UserTable, secrets: Secrets, dto: RegisterBody, dateOf: string -> Timestamp, now: Timestamp)
    returns (r: Result<Session, Error>)
    requires users.Valid()
    modifies users
    ensures users.Valid()
    ensures old(users.UsernameTaken(dto.username)) ==>
      r == Err(Conflict("Username already exists")) &&
      users.accounts == old(users.accounts) && users.profiles == old(users.profiles)
    ensures !old(users.UsernameTaken(dto.username)) && old(users.EmailTaken(dto.email)) ==>
      r == Err(Database(UniqueViolation)) && users.profiles == old(users.profiles) &&
      users.accounts == old(users.accounts)[old(users.nextId) :=
        Account(old(users.nextId), dto.username, BcryptHash(dto.password), User, now, None)]
    ensures r.Ok? <==> !old(users.UsernameTaken(dto.username)) && !old(users.EmailTaken(dto.email))
    ensures r.Ok? ==>
      var a := Account(old(users.nextId), dto.username, BcryptHash(dto.password), User, now, None);
      && r.value == Session(ClaimsOf(a), IssueTokens(a, secrets, now))
      && users.accounts == old(users.accounts)[a.id := a.(refreshToken := Some(BcryptHash(r.value.tokens.refreshToken)))]
      && users.profiles == old(users.profiles)[a.id := Profile(a.id, dto.fullName, dto.email, dto.phone,
           dateOf(dto.dateOfBirth), dto.address, dto.city, dto.country, dto.nationality, dto.occupation)]
  {
    if users.FindByUsername(dto.username).Some? {
      return Err(Conflict("Username already exists"));
    }
    var saved := users.InsertAccount(dto.username, BcryptHash(dto.password), User, now);
    // the username was found free just above, so this save succeeds
    var a := saved.value;
    var profile := users.InsertProfile(Profile(a.id, dto.fullName, dto.email, dto.phone,
      dateOf(dto.dateOfBirth), dto.address, dto.city, dto.country, dto.nationality, dto.occupation));
    if profile.Err? {
      return Err(profile.error);
    }
    var tokens := IssueTokens(a, secrets, now);
    users.SetRefreshToken(a.id, Some(BcryptHash(tokens.refreshToken)));
    r := Ok(Session(ClaimsOf(a), tokens));
  }

  /** `login`: on valid credentials, fresh tokens whose refresh hash replaces the slot. */
  method Login(users: UserTable, secrets: Secrets, dto: Credentials, now: Timestamp)
    returns (r: Result<Session, Error>)
    requires users.Valid()
    modifies users
    ensures users.Valid()
    ensures users.profiles == old(users.profiles) && users.nextId == old(users.nextId)
    ensures r.Err? <==> CheckCredentials(old(users.FindByUsername(dto.username)), dto.password).Err?
    ensures r.Err? ==> r == Err(Unauthorized("Invalid credentials")) && users.accounts == old(users.accounts)
    ensures r.Ok? ==>
      var a := old(users.FindByUsername(dto.username)).value;
      && r.value == Session(ClaimsOf(a), IssueTokens(a, secrets, now))
      && users.accounts == WithRefreshToken(old(users.accounts), a.id, Some(BcryptHash(r.value.tokens.refreshToken)))
  {
    var checked := CheckCredentials(users.FindByUsername(dto.username), dto.password);
    if checked.Err? {
      return Err(checked.error);
    }
    var a := checked.value;
    var tokens := IssueTokens(a, secrets, now);
    users.SetRefreshToken(a.id, Some(BcryptHash(tokens.refreshToken)));
    r := Ok(Session(ClaimsOf(a), tokens));
  }

  /** `refreshTokens`, with the exact check: every failure is the same 401; success rotates the slot. */
  method Refresh(users: UserTable, secrets: Secrets, presented: Token, now: Timestamp)
    returns (r: Result<TokenPair, Error>)
    requires users.Valid()
    modifies users
    ensures users.Valid()
    ensures users.profiles == old(users.profiles) && users.nextId == old(users.nextId)
    ensures r.Err? <==> CheckRefresh(old(users.accounts), secrets, presented).Err?
    ensures r.Err? ==> r == Err(Unauthorized("Invalid refresh token")) && users.accounts == old(users.accounts)
    ensures r.Ok? ==>
      var a := old(users.accounts)[presented.claims.sub];
      && r.value == IssueTokens(a, secrets, now)
      && users.accounts == WithRefreshToken(old(users.accounts), a.id, Some(BcryptHash(r.value.refreshToken)))
  {
    var checked := CheckRefresh(users.accounts, secrets, presented);
    if checked.Err? {
      return Err(checked.error);
    }
    var a := checked.value;
    var tokens := IssueTokens(a, secrets, now);
    users.SetRefreshToken(a.id, Some(BcryptHash(tokens.refreshToken)));
    r := Ok(tokens);
  }

  /** `logout`: the caller's slot is emptied. */
  method Logout(users: UserTable, id: Uuid)
    requires users.Valid()
    modifies users
    ensures users.Valid()
    ensures users.profiles == old(users.profiles) && users.nextId == old(users.nextId)
    ensures users.accounts == WithRefreshToken(old(users.accounts), id, None)
  {
    users.SetRefreshToken(id, None);
  }
}
