/** The authentication controller: login, registration, logout, refresh, the
    current-user queries and the profile update. The refresh-token session
    bookkeeping lives in the `tokens` list of each user: login, registration and
    refresh append the fingerprint of the refresh token they issue, logout and
    refresh remove every copy of the fingerprint of the token the client
    presents. Removal does not check that the fingerprint was there, so a
    verified refresh token keeps working after it has been removed. */
module Auth {
  import opened Wrappers
  import opened Crypto
  import opened Errors
  import opened Js
  import opened UserModel

  const InvalidTokenMessage: string := "Не валидный токен"
  const UserNotInDbMessage: string := "Пользователь не найден в базе"
  const UserByIdMissingMessage: string := "Пользователь по заданному id отсутствует в базе"
  const EmailTakenMessage: string := "Пользователь с таким email уже существует"

  /** The user view every response carries: `{ _id, email, name, roles }`. */
  datatype PublicUser = PublicUser(id: UserId, email: string, name: string, roles: seq<Role>)

  function View(u: User): PublicUser
    reads u`email, u`name, u`roles
  {
    PublicUser(u.id, u.email, u.name, u.roles)
  }

  /** The refresh-token cookie a response sets: the configured options, with
      `maxAge` overridden when `maxAge` is present. */
  datatype Cookie = Cookie(value: RawToken, maxAge: Option<int>)

  /** Logout's cookie: an empty value that expires at once. */
  const ClearedCookie: Cookie := Cookie(Opaque(""), Some(-1))

  /** The body `{ success: true, user, accessToken }` with its status and cookie. */
  datatype SessionReply = SessionReply(status: int, user: PublicUser, accessToken: RawToken, cookie: Cookie)

  /** The body `{ success: true }` with its status and cookie. */
  datatype LogoutReply = LogoutReply(status: int, cookie: Cookie)

  /** `!rfTkn`: no cookie, or the empty string. */
  predicate Falsy(cookie: Option<RawToken>)
  {
    cookie.None? || cookie.value == Opaque("")
  }

  /** The fingerprint the session list holds for a refresh token. */
  function Fingerprint(cfg: AuthConfig, t: RawToken): Digest
  {
    HmacSha256(cfg.refresh.secret, t)
  }

  /** Whom a presented cookie identifies, by the checks of `deleteRefreshTokenInUser`
      in their order, before any change: the id claim, or the error. */
  function PresentedUser(store: UserStore, cookie: Option<RawToken>, cfg: AuthConfig, now: int): (r: Result<UserId, Error>)
    reads store
    ensures Falsy(cookie) ==> r == Failure(Unauthorized(InvalidTokenMessage))
    ensures !Falsy(cookie) && Verify(cookie.value, cfg.refresh.secret, now).Failure? ==>
      r == Failure(Jwt(Verify(cookie.value, cfg.refresh.secret, now).error))
    ensures r.Success? <==>
      !Falsy(cookie) && cookie.value.Signed? && cookie.value.key == cfg.refresh.secret &&
      now < cookie.value.claims.expiresAt && cookie.value.claims.id in store.users
    ensures r.Success? ==> r.value == cookie.value.claims.id
    ensures r.Failure? && !Falsy(cookie) && !r.error.Jwt? ==> r.error == Unauthorized(UserNotInDbMessage)
  {
    if Falsy(cookie) then Failure(Unauthorized(InvalidTokenMessage))
    else
      match Verify(cookie.value, cfg.refresh.secret, now)
      case Failure(e) => Failure(Jwt(e))
      case Success(claims) =>
        if claims.id in store.users then Success(claims.id) else Failure(Unauthorized(UserNotInDbMessage))
  }

  /** `deleteRefreshTokenInUser`: the checks of `PresentedUser`, then every copy of
      the fingerprint of the presented token is filtered out of the user's list
      and the user is saved. Other documents and the user's other fields are
      left as they were; the method does not require the fingerprint to be
      present. */
  method DeleteRefreshTokenInUser(store: UserStore, cookie: Option<RawToken>, cfg: AuthConfig, now: int)
    returns (r: Result<User, Error>)
    requires store.Valid()
    modifies store.users.Values
    ensures r.Failure? <==> PresentedUser(store, cookie, cfg, now).Failure?
    ensures r.Failure? ==> r.error == PresentedUser(store, cookie, cfg, now).error
    ensures r.Success? ==>
      r.value == store.users[cookie.value.claims.id] &&
      r.value.tokens == RemoveAll(old(r.value.tokens), Fingerprint(cfg, cookie.value))
    ensures forall u :: u in store.users.Values && (r.Failure? || u != r.value) ==> u.tokens == old(u.tokens)
    ensures forall u :: u in store.users.Values ==>
      u.name == old(u.name) && u.email == old(u.email) && u.password == old(u.password) &&
      u.roles == old(u.roles) && u.orders == old(u.orders)
    ensures store.Valid()
  {
    var who := PresentedUser(store, cookie, cfg, now);
    if who.Failure? {
      return Failure(who.error);
    }
    var user := store.users[who.value];
    var fingerprint := Fingerprint(cfg, cookie.value);
    store.SetTokens(user, RemoveAll(user.tokens, fingerprint));
    r := Success(user);
  }

  /** `logout`: the presented refresh token's fingerprint is removed, the cookie is
      cleared and the reply is `{ success: true }` with status 200. */
  method Logout(store: UserStore, cookie: Option<RawToken>, cfg: AuthConfig, now: int)
    returns (r: Result<LogoutReply, Error>)
    requires store.Valid()
    modifies store.users.Values
    ensures r.Failure? <==> PresentedUser(store, cookie, cfg, now).Failure?
    ensures r.Failure? ==> r.error == PresentedUser(store, cookie, cfg, now).error
    ensures r.Success? ==> r.value == LogoutReply(200, ClearedCookie)
    ensures r.Success? ==>
      var u := store.users[cookie.value.claims.id];
      u.tokens == RemoveAll(old(u.tokens), Fingerprint(cfg, cookie.value))
    ensures forall u :: u in store.users.Values && (r.Failure? || u.id != cookie.value.claims.id) ==> u.tokens == old(u.tokens)
    ensures forall u :: u in store.users.Values ==>
      u.name == old(u.name) && u.email == old(u.email) && u.password == old(u.password) &&
      u.roles == old(u.roles) && u.orders == old(u.orders)
    ensures store.Valid()
  {
    var removed := DeleteRefreshTokenInUser(store, cookie, cfg, now);
    if removed.Failure? {
      return Failure(removed.error);
    }
    r := Success(LogoutReply(200, ClearedCookie));
  }

  /** `refreshAccessToken`: the presented fingerprint is removed, then a new refresh
      token is issued and its fingerprint appended, and a new access token is
      returned with the user view. */
  method RefreshAccessToken(store: UserStore, cookie: Option<RawToken>, cfg: AuthConfig, now: int)
    returns (r: Result<SessionReply, Error>)
    requires store.Valid()
    modifies store.users.Values
    ensures r.Failure? <==> PresentedUser(store, cookie, cfg, now).Failure?
    ensures r.Failure? ==> r.error == PresentedUser(store, cookie, cfg, now).error
    ensures r.Success? ==>
      var u := store.users[cookie.value.claims.id];
      && u.tokens == RemoveAll(old(u.tokens), Fingerprint(cfg, cookie.value)) + [Fingerprint(cfg, u.RefreshToken(cfg, now))]
      && r.value == SessionReply(200, View(u), u.GenerateAccessToken(cfg, now), Cookie(u.RefreshToken(cfg, now), None))
    ensures forall u :: u in store.users.Values && (r.Failure? || u.id != cookie.value.claims.id) ==> u.tokens == old(u.tokens)
    ensures forall u :: u in store.users.Values ==>
      u.name == old(u.name) && u.email == old(u.email) && u.password == old(u.password) &&
      u.roles == old(u.roles) && u.orders == old(u.orders)
    ensures store.Valid()
  {
    var removed := DeleteRefreshTokenInUser(store, cookie, cfg, now);
    if removed.Failure? {
      return Failure(removed.error);
    }
    var user := removed.value;
    var accessToken := user.GenerateAccessToken(cfg, now);
    var refreshToken := store.IssueRefreshToken(user, cfg, now);
    r := Success(SessionReply(200, View(user), accessToken, Cookie(refreshToken, None)));
  }

  /** `login`: the credential check, then a new access token and a new refresh
      token whose fingerprint is appended to the user's list. */
  method Login(store: UserStore, email: string, password: string, cfg: AuthConfig, now: int)
    returns (r: Result<SessionReply, Error>)
    requires store.Valid()
    modifies store.users.Values
    ensures r.Failure? <==> old(store.FindUserByCredentials(email, password)).Failure?
    ensures r.Failure? ==> r.error == Unauthorized(BadCredentialsMessage)
    ensures r.Success? ==>
      var u := store.users[store.emails[email]];
      && u.tokens == old(u.tokens) + [Fingerprint(cfg, u.RefreshToken(cfg, now))]
      && r.value == SessionReply(200, View(u), u.GenerateAccessToken(cfg, now), Cookie(u.RefreshToken(cfg, now), None))
    ensures forall u :: u in store.users.Values && (r.Failure? || u.email != email) ==> u.tokens == old(u.tokens)
    ensures forall u :: u in store.users.Values ==>
      u.name == old(u.name) && u.email == old(u.email) && u.password == old(u.password) &&
      u.roles == old(u.roles) && u.orders == old(u.orders)
    ensures store.Valid()
  {
    var found := store.FindUserByCredentials(email, password);
    if found.Failure? {
      return Failure(found.error);
    }
    var user := found.value;
    var accessToken := user.GenerateAccessToken(cfg, now);
    var refreshToken := store.IssueRefreshToken(user, cfg, now);
    r := Success(SessionReply(200, View(user), accessToken, Cookie(refreshToken, None)));
  }

  /** The catch block of `register`: a validation error becomes a bad request with
      the error's message, an error whose message mentions E11000 a conflict, any
      other error passes unchanged. */
  function RegisterError(e: Error): (r: Error)
    ensures e.Validation? ==> r == BadRequest(Message(e))
    ensures e.DuplicateKey? ==> r == Conflict(EmailTakenMessage)
    ensures !e.Validation? && !Includes(Message(e), "E11000") ==> r == e
    ensures !e.Validation? && Includes(Message(e), "E11000") ==> r == Conflict(EmailTakenMessage)
  {
    if e.Validation? then BadRequest(Message(e))
    else if e.DuplicateKey? then
      DuplicateKeyMentionsCode(e.collection, e.index);
      Conflict(EmailTakenMessage)
    else if Includes(Message(e), "E11000") then Conflict(EmailTakenMessage)
    else e
  }

  /** `register`: a new document under the fresh id `id` is saved (validated,
      hashed with `salt`, inserted), then the tokens are issued as in login, and
      the reply has status 201. */
  method Register(store: UserStore, id: UserId, salt: nat, email: string, password: string, name: Option<string>,
                  cfg: AuthConfig, now: int)
    returns (r: Result<SessionReply, Error>)
    requires store.Valid() && id !in store.users
    modifies store
    ensures var failures := UserFailures(if name.Some? then name.value else DefaultName, email, Plain(password), None, store.isEmail);
      && (failures != [] ==> r == Failure(BadRequest(Message(Validation("user", failures)))))
      && (failures == [] && email in old(store.emails) ==> r == Failure(Conflict(EmailTakenMessage)))
      && (r.Success? <==> failures == [] && email !in old(store.emails))
    ensures r.Failure? ==> store.users == old(store.users) && store.emails == old(store.emails)
    ensures r.Success? ==>
      store.users.Keys == old(store.users.Keys) + {id} &&
      (forall k :: k in old(store.users) ==> store.users[k] == old(store.users[k])) &&
      var u := store.users[id];
      && u.email == email && u.name == (if name.Some? then name.value else DefaultName)
      && u.password == BcryptHash(Plain(password), salt) && u.roles == DefaultRoles
      && u.tokens == [Fingerprint(cfg, u.RefreshToken(cfg, now))]
      && r.value == SessionReply(201, View(u), u.GenerateAccessToken(cfg, now), Cookie(u.RefreshToken(cfg, now), None))
    ensures store.Valid()
  {
    var user := new User(id, email, password, name);
    var saved := store.Insert(user, salt);
    if saved.Failure? {
      return Failure(RegisterError(saved.error));
    }
    assert store.users[id] == user;
    forall k | k in old(store.users)
      ensures store.users[k] == old(store.users[k])
    {
      assert k != id;
    }
    ghost var roles, userName, hash := user.roles, user.name, user.password;
    assert roles == DefaultRoles && userName == (if name.Some? then name.value else DefaultName);
    var accessToken := user.GenerateAccessToken(cfg, now);
    var refreshToken := store.IssueRefreshToken(user, cfg, now);
    assert user.roles == roles && user.name == userName && user.password == hash;
    r := Success(SessionReply(201, View(user), accessToken, Cookie(refreshToken, None)));
  }

  /** `getCurrentUser`: the view of the document whose id the auth middleware put
      on `res.locals`, or NotFound. */
  function GetCurrentUser(store: UserStore, userId: UserId): (r: Result<PublicUser, Error>)
    requires store.Valid()
    reads store, store.users.Values
    ensures r.Failure? <==> userId !in store.users
    ensures r.Failure? ==> r.error == NotFound(UserByIdMissingMessage)
    ensures r.Success? ==> r.value.id == userId && r.value == View(store.users[userId])
  {
    if userId in store.users then Success(View(store.users[userId])) else Failure(NotFound(UserByIdMissingMessage))
  }

  /** `getCurrentUserRoles`: the document must exist, but the roles returned are
      those of the middleware's `res.locals.user`, not those of the document. */
  function GetCurrentUserRoles(store: UserStore, userId: UserId, localRoles: seq<Role>): (r: Result<seq<Role>, Error>)
    reads store
    ensures r.Failure? <==> userId !in store.users
    ensures r.Failure? ==> r.error == NotFound(UserByIdMissingMessage)
    ensures r.Success? ==> r.value == localRoles
  {
    if userId in store.users then Success(localRoles) else Failure(NotFound(UserByIdMissingMessage))
  }

  /** `typeof req.body[key] === 'string' ? req.body[key] : undefined`. */
  function StringField(body: map<string, Json>, key: string): (r: Option<string>)
    ensures r.Some? <==> key in body && body[key].JStr?
    ensures r.Some? ==> body[key] == JStr(r.value)
  {
    if key in body && body[key].JStr? then Some(body[key].s) else None
  }

  /** `updateCurrentUser`: only `name` and `email`, and only string values, go into
      the update; the update's errors (validation, duplicate email, NotFound) are
      passed on unchanged; the reply is the updated user's view with status 200. */
  method UpdateCurrentUser(store: UserStore, userId: UserId, body: map<string, Json>)
    returns (r: Result<(int, PublicUser), Error>)
    requires store.Valid()
    modifies store`emails, store.Stored(userId)`name, store.Stored(userId)`email
    ensures var name, email := StringField(body, "name"), StringField(body, "email");
      && (ProfileFailures(name, email, store.isEmail) != [] ==>
           r == Failure(Validation("", ProfileFailures(name, email, store.isEmail))))
      && (ProfileFailures(name, email, store.isEmail) == [] && userId !in store.users ==>
           r == Failure(NotFound(UserByIdMissingMessage)))
      && (r.Success? <==>
           ProfileFailures(name, email, store.isEmail) == [] && userId in store.users &&
           (email.Some? ==> email.value !in old(store.emails) || old(store.emails)[email.value] == userId))
      && (r.Success? ==>
           var u := store.users[userId];
           && r.value == (200, View(u))
           && u.name == (if name.Some? then name.value else old(u.name))
           && u.email == (if email.Some? then email.value else old(u.email)))
    ensures r.Failure? && !r.error.Validation? && !r.error.NotFound? ==> r.error == DuplicateKey("users", "email_1")
    ensures forall u :: u in old(store.users.Values) ==>
      u.tokens == old(u.tokens) && u.password == old(u.password) &&
      u.roles == old(u.roles) && u.orders == old(u.orders) && u.phone == old(u.phone) &&
      u.totalAmount == old(u.totalAmount) && u.orderCount == old(u.orderCount) &&
      u.lastOrderDate == old(u.lastOrderDate) && u.lastOrder == old(u.lastOrder)
    ensures forall k :: k in store.users && (r.Failure? || k != userId) ==>
      store.users[k].name == old(store.users[k].name) && store.users[k].email == old(store.users[k].email)
    ensures store.users == old(store.users) && store.Valid()
  {
    var name := StringField(body, "name");
    var email := StringField(body, "email");
    var updated := store.UpdateProfile(userId, name, email);
    if updated.Failure? {
      if updated.error.NotFound? {
        return Failure(NotFound(UserByIdMissingMessage));
      }
      return Failure(updated.error);
    }
    r := Success((200, View(updated.value)));
  }

  /** Fingerprint removal is not single use: a verified refresh token whose
      fingerprint is no longer in the list still logs the user out, and logging
      out twice with the same cookie succeeds twice and leaves the list as the
      first logout left it. */
  method LogoutTwice(store: UserStore, cookie: Option<RawToken>, cfg: AuthConfig, now: int)
    returns (first: Result<LogoutReply, Error>, second: Result<LogoutReply, Error>)
    requires store.Valid() && PresentedUser(store, cookie, cfg, now).Success?
    modifies store.users.Values
    ensures first.Success? && second.Success?
    ensures var u := store.users[cookie.value.claims.id];
      u.tokens == RemoveAll(old(u.tokens), Fingerprint(cfg, cookie.value)) &&
      Fingerprint(cfg, cookie.value) !in u.tokens
  {
    first := Logout(store, cookie, cfg, now);
    second := Logout(store, cookie, cfg, now);
  }
}
