/**
 * Accounts and tokens (internal/usecase/auth_usecase.go): registration, password and
 * social login, refresh tokens, password resets and the profile operations.
 *
 * The user, refresh-token and password-reset collections are maps held by the usecase:
 * users by ID, refresh tokens and resets by their token string. The password service
 * and the access-token issuer are uninterpreted functions fixed at construction; the
 * values the source draws at random (a bcrypt salt is inside `hashPassword`, a refresh
 * token, a reset UUID, a new document ID) and whether a store write succeeds are
 * parameters of each operation. Instants are seconds.
 */
module Auth {
  import opened Common
  import opened ObjectIds
  import opened Domain

  /** ExpiresIn of every access token: 15 minutes. */
  const AccessTokenSeconds := 15 * 60
  /** A refresh token is valid for 7 days. */
  const RefreshTokenSeconds := 7 * 24 * 60 * 60
  /** A password reset is valid for one hour. */
  const ResetSeconds := 60 * 60

  const EmailExists := "user with this email already exists"
  const HashFailed := "failed to hash password"
  const CreateFailed := "failed to create user"
  const InvalidCredentials := "invalid email or password"
  const EmailRequired := "email is required for social authentication"
  const UpdateFailed := "failed to update user"
  const InvalidRefreshToken := "invalid refresh token"
  const RefreshTokenExpired := "refresh token expired"
  const AccessTokenFailed := "failed to generate access token"
  const RefreshTokenFailed := "failed to generate refresh token"
  const SaveTokenFailed := "failed to save refresh token"
  const ResetCreateFailed := "failed to create password reset"
  const InvalidReset := "invalid or expired reset token"
  const UserNotFound := "user not found"
  const PasswordUpdateFailed := "failed to update password"
  const MarkUsedFailed := "failed to mark reset token as used"

  datatype AuthResponse = AuthResponse(user: User, accessToken: string, refreshToken: string, expiresIn: int)

  datatype TokenResponse = TokenResponse(accessToken: string, expiresIn: int)

  /** A password-reset mail handed to the mail service: recipient, reset token, name. */
  datatype ResetMail = ResetMail(to: string, token: string, name: string)

  /** The copy of a user that leaves the usecase: everything but the password hash. */
  function Scrubbed(u: User): (r: User)
    ensures r.passwordHash == ""
    ensures r.(passwordHash := u.passwordHash) == u
  {
    u.(passwordHash := "")
  }

  /** The user Register creates: no provider, empty settings, no streak. */
  function NewUser(id: ObjectId, name: string, email: string, hash: string): (u: User)
    ensures u.id == id && u.name == name && u.email == email && u.passwordHash == hash
    ensures u.provider == "" && u.providerId == "" && u.settings == map[]
    ensures u.currentStreak == 0 && u.longestStreak == 0 && u.lastActivityDate.None?
    ensures !u.streakFrozen && u.freezeCount == 0
  {
    User(id, name, email, hash, "", "", map[], 0, 0, None, false, 0)
  }

  /** The user SocialAuth creates: linked to the provider, no password, empty settings. */
  function NewSocialUser(id: ObjectId, name: string, email: string, provider: string, providerId: string): (u: User)
    ensures u.id == id && u.name == name && u.email == email && u.passwordHash == ""
    ensures u.provider == provider && u.providerId == providerId && u.settings == map[]
    ensures u.currentStreak == 0 && u.longestStreak == 0 && u.lastActivityDate.None?
    ensures !u.streakFrozen && u.freezeCount == 0
  {
    User(id, name, email, "", provider, providerId, map[], 0, 0, None, false, 0)
  }

  /**
   * generateAuthResponse's reply for `user`: `access` is the access token issued for
   * it, `refresh` the generated refresh token, `saveOk` whether the store kept it.
   * The first failing step decides the error; a reply never carries a password hash.
   */
  function Issued(user: User, access: Option<string>, refresh: Option<string>, saveOk: bool)
    : (r: Result<AuthResponse, string>)
    ensures r.Ok? <==> access.Some? && refresh.Some? && saveOk
    ensures access.None? ==> r == Err(AccessTokenFailed)
    ensures access.Some? && refresh.None? ==> r == Err(RefreshTokenFailed)
    ensures access.Some? && refresh.Some? && !saveOk ==> r == Err(SaveTokenFailed)
    ensures r.Ok? ==>
      && r.value.user == Scrubbed(user) && r.value.user.passwordHash == ""
      && r.value.accessToken == access.value && r.value.refreshToken == refresh.value
      && r.value.expiresIn == AccessTokenSeconds
  {
    if access.None? then Err(AccessTokenFailed)
    else if refresh.None? then Err(RefreshTokenFailed)
    else if !saveOk then Err(SaveTokenFailed)
    else Ok(AuthResponse(Scrubbed(user), access.value, refresh.value, AccessTokenSeconds))
  }

  /** The refresh tokens after a reply `r` for `userId` issued at instant `now`. */
  function TokensAfter(tokens: map<string, RefreshToken>, r: Result<AuthResponse, string>, userId: ObjectId, now: int)
    : (t: map<string, RefreshToken>)
    ensures r.Err? ==> t == tokens
    ensures r.Ok? ==>
      && t.Keys == tokens.Keys + {r.value.refreshToken}
      && t[r.value.refreshToken] == RefreshToken(userId, r.value.refreshToken, now + RefreshTokenSeconds)
      && forall k :: k in tokens && k != r.value.refreshToken ==> t[k] == tokens[k]
  {
    if r.Err? then tokens
    else tokens[r.value.refreshToken := RefreshToken(userId, r.value.refreshToken, now + RefreshTokenSeconds)]
  }

  /** The refresh tokens without those of `userId` (DeleteUserRefreshTokens). */
  function WithoutUser(tokens: map<string, RefreshToken>, userId: ObjectId): (t: map<string, RefreshToken>)
    ensures forall k :: k in t <==> k in tokens && tokens[k].userId != userId
    ensures forall k :: k in t ==> t[k] == tokens[k]
  {
    map k | k in tokens && tokens[k].userId != userId :: tokens[k]
  }

  /** UpdateProfile's settings merge: a given key overwrites, every other key is kept. */
  function MergedSettings(settings: map<string, JsonValue>, given: map<string, JsonValue>)
    : (r: map<string, JsonValue>)
    ensures r.Keys == settings.Keys + given.Keys
    ensures forall k :: k in given ==> r[k] == given[k]
    ensures forall k :: k in settings && k !in given ==> r[k] == settings[k]
  {
    settings + given
  }

  /** The merge as the source does it: one key of `given` at a time, in any order. */
  method MergeSettings(settings: map<string, JsonValue>, given: map<string, JsonValue>)
    returns (merged: map<string, JsonValue>)
    ensures merged == MergedSettings(settings, given)
  {
    merged := settings;
    var pending := given.Keys;
    while pending != {}
      invariant pending <= given.Keys
      invariant merged.Keys == settings.Keys + (given.Keys - pending)
      invariant forall k :: k in given && k !in pending ==> merged[k] == given[k]
      invariant forall k :: k in settings && k !in given ==> merged[k] == settings[k]
      invariant forall k :: k in settings && k in pending ==> merged[k] == settings[k]
      decreases pending
    {
      var k :| k in pending;
      merged := merged[k := given[k]];
      pending := pending - {k};
    }
    assert forall k :: k in merged ==> merged[k] == MergedSettings(settings, given)[k];
  }

  /** The profile fields UpdateProfile changes: the name when given, the settings merged
      when given. */
  function Updated(u: User, name: Option<string>, settings: Option<map<string, JsonValue>>): (v: User)
    ensures v.name == (if name.Some? then name.value else u.name)
    ensures v.settings == (if settings.Some? then MergedSettings(u.settings, settings.value) else u.settings)
    ensures v.(name := u.name, settings := u.settings) == u
  {
    var named := if name.Some? then u.(name := name.value) else u;
    if settings.Some? then named.(settings := MergedSettings(u.settings, settings.value)) else named
  }

  /** The users collection's indexes: users are keyed by their ID, and no two share an
      email or a linked provider account. */
  predicate UniqueUsers(users: map<ObjectId, User>)
  {
    && (forall id :: id in users ==> users[id].id == id)
    && (forall a, b :: a in users && b in users && users[a].email == users[b].email ==> a == b)
    && (forall a, b ::
          (a in users && b in users && users[a].providerId != "" &&
           users[a].provider == users[b].provider && users[a].providerId == users[b].providerId) ==> a == b)
  }

  /** Storing `u` under its ID keeps the indexes when no other user has its email or its
      provider account. */
  lemma PutKeepsUnique(users: map<ObjectId, User>, u: User)
    requires UniqueUsers(users)
    requires forall id :: id in users && id != u.id ==> users[id].email != u.email
    requires u.providerId != "" ==>
      forall id :: id in users && id != u.id ==> !(users[id].provider == u.provider && users[id].providerId == u.providerId)
    ensures UniqueUsers(users[u.id := u])
  {
    var r := users[u.id := u];
    forall a, b | a in r && b in r && r[a].providerId != "" &&
                  r[a].provider == r[b].provider && r[a].providerId == r[b].providerId
      ensures a == b
    {
      if a != u.id && b != u.id {
        assert r[a] == users[a] && r[b] == users[b];
      }
    }
  }

  /** Storing a changed copy of a user that keeps its ID, email and provider account
      keeps the indexes. */
  lemma SameKeysKeepUnique(users: map<ObjectId, User>, u: User)
    requires UniqueUsers(users) && u.id in users
    requires u.email == users[u.id].email && u.provider == users[u.id].provider && u.providerId == users[u.id].providerId
    ensures UniqueUsers(users[u.id := u])
  {
    PutKeepsUnique(users, u);
  }

  class AuthUsecase {
    var users: map<ObjectId, User>
    var refreshTokens: map<string, RefreshToken>
    var resets: map<string, PasswordReset>
    /** The reset mails the mail service accepted. */
    var outbox: seq<ResetMail>
    /** HashPassword: a hash of the password, `None` when hashing fails. */
    const hashPassword: string -> Option<string>
    /** CheckPassword(password, hash). */
    const checkPassword: (string, string) -> bool
    /** GenerateAccessToken for a user ID, `None` when signing fails. */
    const issueAccessToken: ObjectId -> Option<string>

    /** A hash the password service produces is one it accepts for that password. */
    ghost predicate HashesCheck()
      reads this
    {
      forall p :: hashPassword(p).Some? ==> checkPassword(p, hashPassword(p).value)
    }

    ghost predicate Valid()
      reads this
    {
      && HashesCheck()
      && UniqueUsers(users)
      && (forall t :: t in refreshTokens ==> refreshTokens[t].token == t)
      && (forall t :: t in resets ==> resets[t].token == t)
    }

    constructor(hashPassword: string -> Option<string>, checkPassword: (string, string) -> bool,
                issueAccessToken: ObjectId -> Option<string>)
      requires forall p :: hashPassword(p).Some? ==> checkPassword(p, hashPassword(p).value)
      ensures Valid()
      ensures users == map[] && refreshTokens == map[] && resets == map[] && outbox == []
      ensures this.hashPassword == hashPassword && this.checkPassword == checkPassword
      ensures this.issueAccessToken == issueAccessToken
    {
      users := map[];
      refreshTokens := map[];
      resets := map[];
      outbox := [];
      this.hashPassword := hashPassword;
      this.checkPassword := checkPassword;
      this.issueAccessToken := issueAccessToken;
    }

    ghost predicate EmailTaken(email: string)
      reads this
    {
      exists id :: id in users && users[id].email == email
    }

    /** The user with `email`; there is one only, by Valid(). */
    ghost function Owner(email: string): User
      reads this
      requires EmailTaken(email)
    {
      var id :| id in users && users[id].email == email; users[id]
    }

    ghost predicate ProviderLinked(provider: string, providerId: string)
      reads this
    {
      exists id :: id in users && users[id].provider == provider && users[id].providerId == providerId
    }

    /** The user linked to the provider account; there is one only, by Valid(). */
    ghost function ProviderOwner(provider: string, providerId: string): User
      reads this
      requires ProviderLinked(provider, providerId)
    {
      var id :| id in users && users[id].provider == provider && users[id].providerId == providerId; users[id]
    }

    /** Login accepts `password` for `email`. */
    ghost predicate PasswordAccepted(email: string, password: string)
      reads this
    {
      EmailTaken(email) && checkPassword(password, Owner(email).passwordHash)
    }

    /** GetUserByEmail. */
    method FindByEmail(email: string) returns (u: Option<User>)
      requires Valid()
      ensures u.Some? <==> EmailTaken(email)
      ensures u.Some? ==> u.value == Owner(email) && u.value.id in users && users[u.value.id] == u.value
    {
      if exists id | id in users :: users[id].email == email {
        var id :| id in users && users[id].email == email;
        return Some(users[id]);
      }
      return None;
    }

    /** GetUserByProviderID. */
    method FindByProvider(provider: string, providerId: string) returns (u: Option<User>)
      requires Valid() && providerId != ""
      ensures u.Some? <==> ProviderLinked(provider, providerId)
      ensures u.Some? ==>
        u.value == ProviderOwner(provider, providerId) && u.value.id in users && users[u.value.id] == u.value
    {
      if exists id | id in users :: users[id].provider == provider && users[id].providerId == providerId {
        var id :| id in users && users[id].provider == provider && users[id].providerId == providerId;
        return Some(users[id]);
      }
      return None;
    }

    /** generateAuthResponse at instant `now`. */
    method GenerateAuthResponse(user: User, refresh: Option<string>, saveOk: bool, now: int)
      returns (r: Result<AuthResponse, string>)
      requires Valid()
      modifies this
      ensures Valid()
      ensures r == Issued(user, issueAccessToken(user.id), refresh, saveOk)
      ensures refreshTokens == TokensAfter(old(refreshTokens), r, user.id, now)
      ensures users == old(users) && resets == old(resets) && outbox == old(outbox)
    {
      var access := issueAccessToken(user.id);
      if access.None? {
        return Err(AccessTokenFailed);
      }
      if refresh.None? {
        return Err(RefreshTokenFailed);
      }
      if !saveOk {
        return Err(SaveTokenFailed);
      }
      refreshTokens := refreshTokens[refresh.value := Domain.RefreshToken.RefreshToken(user.id, refresh.value, now + RefreshTokenSeconds)];
      return Ok(AuthResponse(Scrubbed(user), access.value, refresh.value, AccessTokenSeconds));
    }

    /**
     * Register at instant `now`; `newId` is the ID the store gives a new document and
     * `createOk` whether it stores it. A taken email is refused before anything else;
     * the user stays created when issuing its tokens fails.
     */
    method Register(name: string, email: string, password: string, newId: ObjectId, createOk: bool,
                    refresh: Option<string>, saveOk: bool, now: int)
      returns (r: Result<AuthResponse, string>)
      requires Valid() && newId !in users
      modifies this
      ensures Valid()
      ensures resets == old(resets) && outbox == old(outbox)
      ensures old(EmailTaken(email)) ==>
        r == Err(EmailExists) && users == old(users) && refreshTokens == old(refreshTokens)
      ensures !old(EmailTaken(email)) && (hashPassword(password).None? || !createOk) ==>
        && r == Err(if hashPassword(password).None? then HashFailed else CreateFailed)
        && users == old(users) && refreshTokens == old(refreshTokens)
      ensures !old(EmailTaken(email)) && hashPassword(password).Some? && createOk ==>
        var u := NewUser(newId, name, email, hashPassword(password).value);
        && users == old(users)[newId := u]
        && r == Issued(u, issueAccessToken(newId), refresh, saveOk)
        && refreshTokens == TokensAfter(old(refreshTokens), r, newId, now)
        && PasswordAccepted(email, password)
    {
      var existing := FindByEmail(email);
      if existing.Some? {
        return Err(EmailExists);
      }
      var hashed := hashPassword(password);
      if hashed.None? {
        return Err(HashFailed);
      }
      if !createOk {
        return Err(CreateFailed);
      }
      var u := NewUser(newId, name, email, hashed.value);
      PutKeepsUnique(users, u);
      users := users[newId := u];
      assert users[newId].email == email;
      assert Owner(email) == u;
      r := GenerateAuthResponse(u, refresh, saveOk, now);
    }

    /** Login at instant `now`: an unknown email and a wrong password are the same error. */
    method Login(email: string, password: string, refresh: Option<string>, saveOk: bool, now: int)
      returns (r: Result<AuthResponse, string>)
      requires Valid()
      modifies this
      ensures Valid()
      ensures users == old(users) && resets == old(resets) && outbox == old(outbox)
      ensures r == Err(InvalidCredentials) <==> !PasswordAccepted(email, password)
      ensures !PasswordAccepted(email, password) ==> refreshTokens == old(refreshTokens)
      ensures PasswordAccepted(email, password) ==>
        var u := Owner(email);
        && r == Issued(u, issueAccessToken(u.id), refresh, saveOk)
        && refreshTokens == TokensAfter(old(refreshTokens), r, u.id, now)
    {
      var user := FindByEmail(email);
      if user.None? {
        return Err(InvalidCredentials);
      }
      if !checkPassword(password, user.value.passwordHash) {
        return Err(InvalidCredentials);
      }
      r := GenerateAuthResponse(user.value, refresh, saveOk, now);
    }

    /**
     * SocialAuth at instant `now`; the provider's access token is taken as the
     * provider's user ID. A user linked to the provider account signs in; otherwise
     * the email is required, and the account with that email is linked to the
     * provider, or a new user is created (`updateOk`/`createOk`: the store's writes).
     */
    method SocialAuth(provider: string, providerToken: string, name: string, email: string,
                      newId: ObjectId, createOk: bool, updateOk: bool,
                      refresh: Option<string>, saveOk: bool, now: int)
      returns (r: Result<AuthResponse, string>)
      requires Valid() && newId !in users
      requires provider != "" && providerToken != ""
      modifies this
      ensures Valid()
      ensures resets == old(resets) && outbox == old(outbox)
      ensures old(ProviderLinked(provider, providerToken)) ==>
        var u := old(ProviderOwner(provider, providerToken));
        && users == old(users)
        && r == Issued(u, issueAccessToken(u.id), refresh, saveOk)
        && refreshTokens == TokensAfter(old(refreshTokens), r, u.id, now)
      ensures !old(ProviderLinked(provider, providerToken)) && email == "" ==>
        r == Err(EmailRequired) && users == old(users) && refreshTokens == old(refreshTokens)
      ensures !old(ProviderLinked(provider, providerToken)) && email != "" && old(EmailTaken(email)) ==>
        var u := old(Owner(email)).(provider := provider, providerId := providerToken);
        if !updateOk then
          r == Err(UpdateFailed) && users == old(users) && refreshTokens == old(refreshTokens)
        else
          && users == old(users)[u.id := u]
          && r == Issued(u, issueAccessToken(u.id), refresh, saveOk)
          && refreshTokens == TokensAfter(old(refreshTokens), r, u.id, now)
      ensures !old(ProviderLinked(provider, providerToken)) && email != "" && !old(EmailTaken(email)) ==>
        var u := NewSocialUser(newId, name, email, provider, providerToken);
        if !createOk then
          r == Err(CreateFailed) && users == old(users) && refreshTokens == old(refreshTokens)
        else
          && users == old(users)[newId := u]
          && r == Issued(u, issueAccessToken(newId), refresh, saveOk)
          && refreshTokens == TokensAfter(old(refreshTokens), r, newId, now)
    {
      var linked := FindByProvider(provider, providerToken);
      if linked.Some? {
        r := GenerateAuthResponse(linked.value, refresh, saveOk, now);
        return;
      }
      if email == "" {
        return Err(EmailRequired);
      }
      var existing := FindByEmail(email);
      var user: User;
      if existing.None? {
        if !createOk {
          return Err(CreateFailed);
        }
        user := NewSocialUser(newId, name, email, provider, providerToken);
      } else {
        if !updateOk {
          return Err(UpdateFailed);
        }
        user := existing.value.(provider := provider, providerId := providerToken);
      }
      PutKeepsUnique(users, user);
      users := users[user.id := user];
      r := GenerateAuthResponse(user, refresh, saveOk, now);
    }

    /**
     * Logout: a non-empty token deletes that refresh token, whoever holds it; an empty
     * one deletes every refresh token of `userId`. `storeErr` is the store's error.
     */
    method Logout(userId: ObjectId, token: string, storeErr: Option<string>) returns (err: Option<string>)
      requires Valid()
      modifies this
      ensures Valid()
      ensures err == storeErr
      ensures users == old(users) && resets == old(resets) && outbox == old(outbox)
      ensures refreshTokens ==
        if storeErr.Some? then old(refreshTokens)
        else if token != "" then old(refreshTokens) - {token}
        else WithoutUser(old(refreshTokens), userId)
    {
      if storeErr.None? {
        if token != "" {
          refreshTokens := refreshTokens - {token};
        } else {
          refreshTokens := WithoutUser(refreshTokens, userId);
        }
      }
      return storeErr;
    }

    /** RefreshToken at instant `now`: a token past its expiry is deleted and refused. */
    method RefreshToken(token: string, now: int) returns (r: Result<TokenResponse, string>)
      requires Valid()
      modifies this
      ensures Valid()
      ensures users == old(users) && resets == old(resets) && outbox == old(outbox)
      ensures token !in old(refreshTokens) ==>
        r == Err(InvalidRefreshToken) && refreshTokens == old(refreshTokens)
      ensures token in old(refreshTokens) && old(refreshTokens)[token].expiresAt < now ==>
        r == Err(RefreshTokenExpired) && refreshTokens == old(refreshTokens) - {token}
      ensures token in old(refreshTokens) && old(refreshTokens)[token].expiresAt >= now ==>
        var access := issueAccessToken(old(refreshTokens)[token].userId);
        && refreshTokens == old(refreshTokens)
        && r == if access.None? then Err(AccessTokenFailed) else Ok(TokenResponse(access.value, AccessTokenSeconds))
    {
      if token !in refreshTokens {
        return Err(InvalidRefreshToken);
      }
      var stored := refreshTokens[token];
      if stored.expiresAt < now {
        refreshTokens := refreshTokens - {token};
        return Err(RefreshTokenExpired);
      }
      var access := issueAccessToken(stored.userId);
      if access.None? {
        return Err(AccessTokenFailed);
      }
      return Ok(TokenResponse(access.value, AccessTokenSeconds));
    }

    /**
     * ForgotPassword at instant `now`; `resetToken` is the generated UUID, `createOk`
     * whether the store keeps the reset, `mailOk` whether the mail service accepts the
     * mail. An unknown email and a failed mail both report success.
     */
    method ForgotPassword(email: string, resetToken: string, createOk: bool, mailOk: bool, now: int)
      returns (err: Option<string>)
      requires Valid()
      modifies this
      ensures Valid()
      ensures users == old(users) && refreshTokens == old(refreshTokens)
      ensures err.Some? <==> old(EmailTaken(email)) && !createOk
      ensures err.Some? ==> err == Some(ResetCreateFailed)
      ensures !(old(EmailTaken(email)) && createOk) ==> resets == old(resets) && outbox == old(outbox)
      ensures old(EmailTaken(email)) && createOk ==>
        var u := old(Owner(email));
        && resets == old(resets)[resetToken := PasswordReset(u.id, resetToken, now + ResetSeconds, false)]
        && outbox == old(outbox) + (if mailOk then [ResetMail(u.email, resetToken, u.name)] else [])
    {
      var user := FindByEmail(email);
      if user.None? {
        return None;
      }
      if !createOk {
        return Some(ResetCreateFailed);
      }
      resets := resets[resetToken := PasswordReset(user.value.id, resetToken, now + ResetSeconds, false)];
      if mailOk {
        outbox := outbox + [ResetMail(user.value.email, resetToken, user.value.name)];
      }
      return None;
    }

    /**
     * ResetPassword: any stored reset, used or expired, sets a new password for its
     * user, is then marked used, and every refresh token of that user is deleted.
     * `updateOk`/`markOk` are the store's writes; a failed mark leaves the password set.
     */
    method ResetPassword(token: string, newPassword: string, updateOk: bool, markOk: bool)
      returns (err: Option<string>)
      requires Valid()
      modifies this
      ensures Valid()
      ensures outbox == old(outbox)
      ensures token !in old(resets) ==>
        err == Some(InvalidReset) && users == old(users) && resets == old(resets) && refreshTokens == old(refreshTokens)
      ensures token in old(resets) && old(resets)[token].userId !in old(users) ==>
        err == Some(UserNotFound) && users == old(users) && resets == old(resets) && refreshTokens == old(refreshTokens)
      ensures token in old(resets) && old(resets)[token].userId in old(users) ==>
        var id := old(resets)[token].userId;
        var hash := hashPassword(newPassword);
        if hash.None? || !updateOk then
          && err == Some(if hash.None? then HashFailed else PasswordUpdateFailed)
          && users == old(users) && resets == old(resets) && refreshTokens == old(refreshTokens)
        else
          && users == old(users)[id := old(users)[id].(passwordHash := hash.value)]
          && PasswordAccepted(users[id].email, newPassword)
          && if !markOk then
               err == Some(MarkUsedFailed) && resets == old(resets) && refreshTokens == old(refreshTokens)
             else
               && err.None?
               && resets == old(resets)[token := old(resets)[token].(used := true)]
               && refreshTokens == WithoutUser(old(refreshTokens), id)
    {
      if token !in resets {
        return Some(InvalidReset);
      }
      var reset := resets[token];
      if reset.userId !in users {
        return Some(UserNotFound);
      }
      var user := users[reset.userId];
      var hash := hashPassword(newPassword);
      if hash.None? {
        return Some(HashFailed);
      }
      if !updateOk {
        return Some(PasswordUpdateFailed);
      }
      user := user.(passwordHash := hash.value);
      SameKeysKeepUnique(users, user);
      users := users[user.id := user];
      assert users[user.id].email == user.email;
      assert Owner(user.email) == user;
      if !markOk {
        return Some(MarkUsedFailed);
      }
      resets := resets[token := reset.(used := true)];
      refreshTokens := WithoutUser(refreshTokens, user.id);
      return None;
    }

    /** GetProfile: the user without its password hash. */
    function GetProfile(userId: ObjectId): (r: Result<User, string>)
      reads this
      ensures r.Ok? <==> userId in users
      ensures r.Err? ==> r.error == UserNotFound
      ensures r.Ok? ==> r.value == Scrubbed(users[userId]) && r.value.passwordHash == ""
    {
      if userId !in users then Err(UserNotFound) else Ok(Scrubbed(users[userId]))
    }

    /** UpdateProfile: `name` and `settings` are `None` when the request leaves them out;
        `updateOk` is the store's write. */
    method UpdateProfile(userId: ObjectId, name: Option<string>, settings: Option<map<string, JsonValue>>,
                         updateOk: bool)
      returns (r: Result<User, string>)
      requires Valid()
      modifies this
      ensures Valid()
      ensures refreshTokens == old(refreshTokens) && resets == old(resets) && outbox == old(outbox)
      ensures userId !in old(users) ==> r == Err(UserNotFound) && users == old(users)
      ensures userId in old(users) && !updateOk ==> r == Err(UpdateFailed) && users == old(users)
      ensures userId in old(users) && updateOk ==>
        var u := Updated(old(users)[userId], name, settings);
        && users == old(users)[userId := u]
        && r == Ok(Scrubbed(u)) && r.value.passwordHash == ""
    {
      if userId !in users {
        return Err(UserNotFound);
      }
      var user := users[userId];
      if name.Some? {
        user := user.(name := name.value);
      }
      if settings.Some? {
        var merged := MergeSettings(user.settings, settings.value);
        user := user.(settings := merged);
      }
      if !updateOk {
        return Err(UpdateFailed);
      }
      SameKeysKeepUnique(users, user);
      users := users[userId := user];
      return Ok(Scrubbed(user));
    }

    /** DeleteAccount: the user's refresh tokens go first, then the user, whose deletion
        error (`deleteErr`) is the result. */
    method DeleteAccount(userId: ObjectId, deleteErr: Option<string>) returns (err: Option<string>)
      requires Valid()
      modifies this
      ensures Valid()
      ensures err == deleteErr
      ensures resets == old(resets) && outbox == old(outbox)
      ensures refreshTokens == WithoutUser(old(refreshTokens), userId)
      ensures users == if deleteErr.None? then old(users) - {userId} else old(users)
    {
      refreshTokens := WithoutUser(refreshTokens, userId);
      if deleteErr.None? {
        users := users - {userId};
      }
      return deleteErr;
    }
  }
}
