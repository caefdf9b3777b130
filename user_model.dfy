/** The user model: the schema's defaults and validators, the pre-save password
    hashing, the two token generators, the order statistics and the credential
    check. A `User` is a document whose fields the methods update in place; a
    `UserStore` is the collection, a map from id to document together with the
    unique index on `email`. */
module UserModel {
  import opened Wrappers
  import opened Crypto
  import opened Errors
  import Js

  /** An ObjectId in its 24-digit lower-case hexadecimal form. */
  type UserId = string
  type OrderId = string

  datatype Role = Customer | Admin

  function RoleName(r: Role): string
  {
    match r
    case Customer => "customer"
    case Admin => "admin"
  }

  /** The `enum` validator of `roles`: only the two names of `Role` are stored. */
  function ParseRole(s: string): (r: Option<Role>)
    ensures r.Some? ==> RoleName(r.value) == s
    ensures r.None? ==> forall role :: RoleName(role) != s
  {
    if s == "customer" then Some(Customer) else if s == "admin" then Some(Admin) else None
  }

  lemma RoleNameRoundTrip(r: Role)
    ensures ParseRole(RoleName(r)) == Some(r)
  {
  }

  const DefaultName: string := "Евлампий"
  const DefaultRoles: seq<Role> := [Customer]
  const NameMinLength: nat := 2
  const NameMaxLength: nat := 30
  const PasswordMinLength: nat := 6
  const PhoneMaxLength: nat := 30

  const NameTooShortMessage: string := "Минимальная длина поля \"name\" - 2"
  const NameTooLongMessage: string := "Максимальная длина поля \"name\" - 30"
  const EmailRequiredMessage: string := "Поле \"email\" должно быть заполнено"
  const EmailInvalidMessage: string := "Поле \"email\" должно быть валидным email-адресом"
  const PasswordRequiredMessage: string := "Поле \"password\" должно быть заполнено"
  const PasswordTooShortMessage: string := "Минимальная длина поля \"password\" - 6"
  const PhoneTooLongMessage: string := "Максимальная длина поля \"phone\" - 30"
  const BadCredentialsMessage: string := "Неправильные почта или пароль"

  // ---- schema validation ----

  /** The first failing validator of `name`, if any. */
  function NameFailure(name: string): (r: Option<FieldFailure>)
    ensures r.None? <==> NameMinLength <= |name| <= NameMaxLength
  {
    if |name| < NameMinLength then Some(FieldFailure("name", NameTooShortMessage))
    else if |name| > NameMaxLength then Some(FieldFailure("name", NameTooLongMessage))
    else None
  }

  /** The first failing validator of `email`: `required` refuses the empty string. */
  function EmailFailure(email: string, isEmail: string -> bool): (r: Option<FieldFailure>)
    ensures r.None? <==> email != "" && isEmail(email)
  {
    if email == "" then Some(FieldFailure("email", EmailRequiredMessage))
    else if !isEmail(email) then Some(FieldFailure("email", EmailInvalidMessage))
    else None
  }

  /** The validators of `password` see the plaintext, since validation runs before
      the pre-save hook hashes it; a stored hash is not validated again. */
  function PasswordFailure(password: Password): (r: Option<FieldFailure>)
    ensures r.None? <==> password.Hashed? || |password.text| >= PasswordMinLength
  {
    if password.Hashed? then None
    else if password.text == "" then Some(FieldFailure("password", PasswordRequiredMessage))
    else if |password.text| < PasswordMinLength then Some(FieldFailure("password", PasswordTooShortMessage))
    else None
  }

  function PhoneFailure(phone: Option<string>): (r: Option<FieldFailure>)
    ensures r.None? <==> phone.None? || |phone.value| <= PhoneMaxLength
  {
    if phone.Some? && |phone.value| > PhoneMaxLength then Some(FieldFailure("phone", PhoneTooLongMessage)) else None
  }

  function OptionList<T>(o: Option<T>): (r: seq<T>)
    ensures r == [] <==> o.None?
    ensures o.Some? ==> r == [o.value]
  {
    if o.Some? then [o.value] else []
  }

  /** The failures a `ValidationError` of the user model lists, one per failing
      path, in schema order. */
  function UserFailures(name: string, email: string, password: Password, phone: Option<string>, isEmail: string -> bool)
    : (r: seq<FieldFailure>)
    ensures r == [] <==>
      NameMinLength <= |name| <= NameMaxLength && email != "" && isEmail(email) &&
      (password.Hashed? || |password.text| >= PasswordMinLength) &&
      (phone.None? || |phone.value| <= PhoneMaxLength)
    ensures forall i :: 0 <= i < |r| ==> r[i].path in {"name", "email", "password", "phone"}
  {
    OptionList(NameFailure(name)) + OptionList(EmailFailure(email, isEmail)) +
    OptionList(PasswordFailure(password)) + OptionList(PhoneFailure(phone))
  }

  // ---- order statistics ----

  /** What the statistics aggregation reads of one order. */
  datatype OrderFact = OrderFact(id: OrderId, customer: UserId, totalAmount: int, createdAt: int)

  /** The result of `$group` over a user's orders, or the reset values. */
  datatype OrderStats = OrderStats(totalAmount: int, orderCount: nat, lastOrderDate: Option<int>, lastOrder: Option<OrderId>)

  const NoStats: OrderStats := OrderStats(0, 0, None, None)

  /** `$match: { customer }`: the orders of one customer, in collection order. */
  function OrdersOf(facts: seq<OrderFact>, customer: UserId): (r: seq<OrderFact>)
    ensures |r| <= |facts|
    ensures forall i :: 0 <= i < |r| ==> r[i].customer == customer && r[i] in facts
    ensures forall f :: f in facts && f.customer == customer ==> f in r
  {
    if facts == [] then []
    else
      var rest := OrdersOf(facts[..|facts| - 1], customer);
      var last := facts[|facts| - 1];
      assert forall f :: f in facts ==> f in facts[..|facts| - 1] || f == last;
      if last.customer == customer then rest + [last] else rest
  }

  /** The match keeps each of the customer's orders exactly as often as the
      collection holds it, and no other order. */
  lemma {:induction false} OrdersOfMultiplicity(facts: seq<OrderFact>, customer: UserId)
    ensures forall x ::
      multiset(OrdersOf(facts, customer))[x] == (if x.customer == customer then multiset(facts)[x] else 0)
  {
    if facts != [] {
      var init, last := facts[..|facts| - 1], facts[|facts| - 1];
      OrdersOfMultiplicity(init, customer);
      assert facts == init + [last];
    }
  }

  /** The match keeps collection order: the orders of a concatenation are the
      orders of each part, one after the other. */
  lemma {:induction false} OrdersOfConcat(a: seq<OrderFact>, b: seq<OrderFact>, customer: UserId)
    ensures OrdersOf(a + b, customer) == OrdersOf(a, customer) + OrdersOf(b, customer)
    decreases |b|
  {
    if b == [] {
      assert a + b == a;
    } else {
      var init, last := b[..|b| - 1], b[|b| - 1];
      var tail := if last.customer == customer then [last] else [];
      assert a + b == (a + init) + [last] by { assert b == init + [last]; }
      calc {
        OrdersOf(a + b, customer);
        { OrdersOfSnoc(a + init, last, customer); }
        OrdersOf(a + init, customer) + tail;
        { OrdersOfConcat(a, init, customer); }
        OrdersOf(a, customer) + OrdersOf(init, customer) + tail;
        { OrdersOfSnoc(init, last, customer); assert b == init + [last]; }
        OrdersOf(a, customer) + OrdersOf(b, customer);
      }
    }
  }

  lemma OrdersOfSnoc(s: seq<OrderFact>, x: OrderFact, customer: UserId)
    ensures OrdersOf(s + [x], customer) == OrdersOf(s, customer) + (if x.customer == customer then [x] else [])
  {
    assert (s + [x])[..|s|] == s;
  }

  function SumAmounts(facts: seq<OrderFact>): int
  {
    if facts == [] then 0 else SumAmounts(facts[..|facts| - 1]) + facts[|facts| - 1].totalAmount
  }

  /** `$max: '$createdAt'` over a non-empty group. */
  function MaxDate(ms: seq<OrderFact>): (d: int)
    requires ms != []
    ensures forall i :: 0 <= i < |ms| ==> ms[i].createdAt <= d
    ensures exists i :: 0 <= i < |ms| && ms[i].createdAt == d
  {
    var last := ms[|ms| - 1];
    if |ms| == 1 then last.createdAt
    else
      var m := MaxDate(ms[..|ms| - 1]);
      assert forall i :: 0 <= i < |ms| - 1 ==> ms[..|ms| - 1][i] == ms[i];
      if m > last.createdAt then m else last.createdAt
  }

  /** The accumulators `$sum: '$totalAmount'`, `$sum: 1`, `$max: '$createdAt'` and
      `$last: '$_id'` over one group. */
  function Group(ms: seq<OrderFact>): (s: OrderStats)
    ensures s.orderCount == |ms| && s.totalAmount == SumAmounts(ms)
    ensures ms == [] ==> s == NoStats
    ensures ms != [] ==> s.lastOrderDate == Some(MaxDate(ms)) && s.lastOrder == Some(ms[|ms| - 1].id)
  {
    if ms == [] then NoStats
    else OrderStats(SumAmounts(ms), |ms|, Some(MaxDate(ms)), Some(ms[|ms| - 1].id))
  }

  /** `calculateOrderStats` on the facts of the whole collection: the group of the
      user's orders, or the reset values when there is none. */
  function StatsOf(facts: seq<OrderFact>, customer: UserId): (s: OrderStats)
    ensures s.orderCount == |OrdersOf(facts, customer)|
    ensures s.totalAmount == SumAmounts(OrdersOf(facts, customer))
    ensures OrdersOf(facts, customer) == [] ==> s == NoStats
    ensures s.lastOrderDate.Some? <==> OrdersOf(facts, customer) != []
    ensures OrdersOf(facts, customer) != [] ==>
      s.lastOrder == Some(OrdersOf(facts, customer)[|OrdersOf(facts, customer)| - 1].id)
  {
    Group(OrdersOf(facts, customer))
  }

  /** `$max` is attained: the last order date is the date of one of the user's
      orders and no order of the user is later. */
  lemma LastOrderDateIsLatest(facts: seq<OrderFact>, customer: UserId)
    requires OrdersOf(facts, customer) != []
    ensures var d := StatsOf(facts, customer).lastOrderDate.value;
      (forall f :: f in facts && f.customer == customer ==> f.createdAt <= d) &&
      (exists f :: f in facts && f.customer == customer && f.createdAt == d)
  {
    var ms := OrdersOf(facts, customer);
    var d := MaxDate(ms);
    forall f | f in facts && f.customer == customer
      ensures f.createdAt <= d
    {
      var i :| 0 <= i < |ms| && ms[i] == f;
    }
    var i :| 0 <= i < |ms| && ms[i].createdAt == d;
    assert ms[i] in facts && ms[i].customer == customer;
  }

  /** The statistics depend only on the user's own orders. */
  lemma {:induction false} StatsIgnoreOtherCustomers(facts: seq<OrderFact>, f: OrderFact, customer: UserId)
    requires f.customer != customer
    ensures StatsOf(facts + [f], customer) == StatsOf(facts, customer)
  {
    assert (facts + [f])[..|facts|] == facts;
  }

  /** Adding an order of the user adds its amount and one to the count, and makes
      it the last order. */
  lemma {:induction false} StatsOfNewOrder(facts: seq<OrderFact>, f: OrderFact)
    ensures StatsOf(facts + [f], f.customer).totalAmount == StatsOf(facts, f.customer).totalAmount + f.totalAmount
    ensures StatsOf(facts + [f], f.customer).orderCount == StatsOf(facts, f.customer).orderCount + 1
    ensures StatsOf(facts + [f], f.customer).lastOrder == Some(f.id)
  {
    var all := facts + [f];
    assert all[..|facts|] == facts;
    var m := OrdersOf(facts, f.customer);
    assert OrdersOf(all, f.customer) == m + [f];
    assert (m + [f])[..|m|] == m;
  }

  // ---- the JSON projection ----

  /** The keys the `toJSON` transform deletes. */
  const HiddenKeys: set<string> := {"tokens", "password", "_id", "roles"}

  /** `toJSON`'s transform on the plain object `ret`. */
  method ToJsonTransform(ret: map<string, Js.Json>) returns (r: map<string, Js.Json>)
    ensures forall k :: k in r <==> k in ret && k !in HiddenKeys
    ensures forall k :: k in r ==> r[k] == ret[k]
  {
    r := ret;
    r := r - {"tokens"};
    r := r - {"password"};
    r := r - {"_id"};
    r := r - {"roles"};
  }

  // ---- documents ----

  /** The two signing contexts: a secret and a lifetime in seconds each. */
  datatype TokenConfig = TokenConfig(secret: string, expiry: int)
  datatype AuthConfig = AuthConfig(access: TokenConfig, refresh: TokenConfig)

  /** A user document. `passwordModified` is Mongoose's `isModified('password')`. */
  class User {
    const id: UserId
    var name: string
    var email: string
    var password: Password
    var passwordModified: bool
    var tokens: seq<Digest>
    var roles: seq<Role>
    var phone: Option<string>
    var totalAmount: int
    var orderCount: nat
    var orders: seq<OrderId>
    var lastOrderDate: Option<int>
    var lastOrder: Option<OrderId>

    /** `new User({ email, password, name })`: an undefined name takes the default,
        the roles default to `[customer]`, the statistics start at zero. */
    constructor (id: UserId, email: string, password: string, name: Option<string>)
      ensures this.id == id && this.email == email && this.password == Plain(password)
      ensures this.name == (if name.Some? then name.value else DefaultName)
      ensures passwordModified && tokens == [] && roles == DefaultRoles && phone == None
      ensures totalAmount == 0 && orderCount == 0 && orders == [] && lastOrderDate == None && lastOrder == None
    {
      this.id := id;
      this.email := email;
      this.password := Plain(password);
      this.name := if name.Some? then name.value else DefaultName;
      passwordModified := true;
      tokens := [];
      roles := DefaultRoles;
      phone := None;
      totalAmount := 0;
      orderCount := 0;
      orders := [];
      lastOrderDate := None;
      lastOrder := None;
    }

    /** The validation failures of this document. */
    function Failures(isEmail: string -> bool): seq<FieldFailure>
      reads this
    {
      UserFailures(name, email, password, phone, isEmail)
    }

    /** The pre-save hook: the password is hashed only when it was modified. */
    method HashPasswordIfModified(salt: nat)
      modifies this`password
      ensures old(passwordModified) ==> password == BcryptHash(old(password), salt)
      ensures !old(passwordModified) ==> password == old(password)
    {
      if passwordModified {
        password := BcryptHash(password, salt);
      }
    }

    /** `generateAccessToken`: the `_id` and `email` claims, the id as subject, signed
        with the access secret. */
    function GenerateAccessToken(cfg: AuthConfig, now: int): (t: RawToken)
      reads this`email
      ensures t.Signed? && t.claims.id == id && t.claims.email == email && t.claims.subject == id
      ensures forall k, later :: Verify(t, k, later).Success? <==> k == cfg.access.secret && later < now + cfg.access.expiry
    {
      Sign(id, email, cfg.access.secret, cfg.access.expiry, id, now)
    }

    /** The token `generateRefreshToken` signs: the same claims under the refresh
        secret and lifetime. */
    function RefreshToken(cfg: AuthConfig, now: int): (t: RawToken)
      reads this`email
      ensures t.Signed? && t.claims.id == id && t.claims.email == email && t.claims.subject == id
      ensures forall k, later :: Verify(t, k, later).Success? <==> k == cfg.refresh.secret && later < now + cfg.refresh.expiry
    {
      Sign(id, email, cfg.refresh.secret, cfg.refresh.expiry, id, now)
    }

    /** `generateRefreshToken`: it appends the HMAC fingerprint of the new token and
        nothing else to `tokens`, and returns the token. */
    method GenerateRefreshToken(cfg: AuthConfig, now: int) returns (t: RawToken)
      modifies this`tokens
      ensures t == RefreshToken(cfg, now)
      ensures tokens == old(tokens) + [HmacSha256(cfg.refresh.secret, t)]
    {
      t := RefreshToken(cfg, now);
      tokens := tokens + [HmacSha256(cfg.refresh.secret, t)];
    }

    /** `calculateOrderStats` given the orders collection: the four fields are set
        from the group of this user's orders, or reset. */
    method CalculateOrderStats(facts: seq<OrderFact>)
      modifies this`totalAmount, this`orderCount, this`lastOrderDate, this`lastOrder
      ensures OrderStats(totalAmount, orderCount, lastOrderDate, lastOrder) == StatsOf(facts, id)
    {
      var stats := StatsOf(facts, id);
      if OrdersOf(facts, id) != [] {
        totalAmount := stats.totalAmount;
        orderCount := stats.orderCount;
        lastOrderDate := stats.lastOrderDate;
        lastOrder := stats.lastOrder;
      } else {
        totalAmount := 0;
        orderCount := 0;
        lastOrderDate := None;
        lastOrder := None;
      }
    }
  }

  /** Access and refresh tokens issued together carry the same claims; with distinct
      secrets neither verifies in the other's place. */
  lemma AccessAndRefreshTokensDiffer(u: User, cfg: AuthConfig, now: int, later: int)
    requires cfg.access.secret != cfg.refresh.secret
    ensures u.GenerateAccessToken(cfg, now).claims.id == u.RefreshToken(cfg, now).claims.id
    ensures u.GenerateAccessToken(cfg, now).claims.email == u.RefreshToken(cfg, now).claims.email
    ensures u.GenerateAccessToken(cfg, now).claims.subject == u.RefreshToken(cfg, now).claims.subject
    ensures Verify(u.GenerateAccessToken(cfg, now), cfg.refresh.secret, later).Failure?
    ensures Verify(u.RefreshToken(cfg, now), cfg.access.secret, later).Failure?
  {
  }

  /** The users collection with its unique index on `email`. */
  class UserStore {
    var users: map<UserId, User>
    var emails: map<string, UserId>
    /** `validator.isEmail`. */
    const isEmail: string -> bool

    /** Every document sits under its own id, the email index maps each stored
        email to its document and nothing else, and every stored document passes
        the schema's validators and has no unsaved password change, so that the
        whole-document `save()` of a loaded user does not fail or re-hash. */
    ghost predicate Valid()
      reads this, users.Values
    {
      && (forall k :: k in users ==> users[k].id == k && users[k].email in emails && emails[users[k].email] == k)
      && (forall k :: k in users ==> !users[k].passwordModified && users[k].Failures(isEmail) == [])
      && (forall e :: e in emails ==> emails[e] in users && users[emails[e]].email == e)
    }

    /** Changes to fields the invariant does not mention (the session list, the
        order statistics) keep it. */
    twostate lemma ValidKept()
      requires old(Valid()) && users == old(users) && emails == old(emails)
      requires forall u :: u in users.Values ==>
        u.name == old(u.name) && u.email == old(u.email) && u.password == old(u.password) &&
        u.phone == old(u.phone) && u.passwordModified == old(u.passwordModified)
      ensures Valid()
    {
      forall k | k in users
        ensures users[k].Failures(isEmail) == old(users[k].Failures(isEmail))
      {
        assert users[k] in users.Values;
      }
    }

    /** The assignment of a new session list to a stored document. */
    method SetTokens(u: User, tokens: seq<Digest>)
      requires Valid() && u in users.Values
      modifies u`tokens
      ensures u.tokens == tokens && Valid()
    {
      u.tokens := tokens;
      ValidKept();
    }

    /** `generateRefreshToken` on a stored document. */
    method IssueRefreshToken(u: User, cfg: AuthConfig, now: int) returns (t: RawToken)
      requires Valid() && u in users.Values
      modifies u`tokens
      ensures t == u.RefreshToken(cfg, now)
      ensures u.tokens == old(u.tokens) + [HmacSha256(cfg.refresh.secret, t)]
      ensures Valid()
    {
      t := u.GenerateRefreshToken(cfg, now);
      ValidKept();
    }

    /** The post-save hook of an order on its customer: the order id is pushed onto
        `orders` and the statistics are recomputed from the orders collection. */
    method RecordOrder(u: User, order: OrderId, facts: seq<OrderFact>)
      requires Valid() && u in users.Values
      modifies u`orders, u`totalAmount, u`orderCount, u`lastOrderDate, u`lastOrder
      ensures u.orders == old(u.orders) + [order]
      ensures OrderStats(u.totalAmount, u.orderCount, u.lastOrderDate, u.lastOrder) == StatsOf(facts, u.id)
      ensures Valid()
    {
      SetOrders(u, u.orders + [order]);
      RefreshStats(u, facts);
    }

    /** The post-delete hook of an order on its customer: `$pull` removes every copy
        of the order id from `orders`, then the statistics are recomputed. */
    method PullOrder(u: User, order: OrderId, facts: seq<OrderFact>)
      requires Valid() && u in users.Values
      modifies u`orders, u`totalAmount, u`orderCount, u`lastOrderDate, u`lastOrder
      ensures u.orders == Js.RemoveAll(old(u.orders), order)
      ensures OrderStats(u.totalAmount, u.orderCount, u.lastOrderDate, u.lastOrder) == StatsOf(facts, u.id)
      ensures Valid()
    {
      var kept := Js.RemoveAll(u.orders, order);
      SetOrders(u, kept);
      RefreshStats(u, facts);
    }

    /** The assignment of a new order list to a stored document. */
    method SetOrders(u: User, orders: seq<OrderId>)
      requires Valid() && u in users.Values
      modifies u`orders
      ensures u.orders == orders && Valid()
    {
      u.orders := orders;
      ValidKept();
    }

    /** `calculateOrderStats` on a stored document. */
    method RefreshStats(u: User, facts: seq<OrderFact>)
      requires Valid() && u in users.Values
      modifies u`totalAmount, u`orderCount, u`lastOrderDate, u`lastOrder
      ensures OrderStats(u.totalAmount, u.orderCount, u.lastOrderDate, u.lastOrder) == StatsOf(facts, u.id)
      ensures Valid()
    {
      u.CalculateOrderStats(facts);
      ValidKept();
    }

    constructor (isEmail: string -> bool)
      ensures Valid() && users == map[] && emails == map[] && this.isEmail == isEmail
    {
      users := map[];
      emails := map[];
      this.isEmail := isEmail;
    }

    /** `User.findById(id)`. */
    function FindById(id: UserId): (r: Option<User>)
      reads this
      ensures r.Some? <==> id in users
      ensures r.Some? ==> r.value == users[id]
    {
      if id in users then Some(users[id]) else None
    }

    /** `User.findOne({ email })`, answered from the unique index. */
    function FindByEmail(email: string): (r: Option<User>)
      requires Valid()
      reads this, users.Values
      ensures r.Some? <==> exists k :: k in users && users[k].email == email
      ensures r.Some? ==> r.value.email == email && r.value in users.Values
    {
      if email in emails then Some(users[emails[email]]) else None
    }

    /** `findUserByCredentials`: an unknown email and a wrong password fail with the
        same Unauthorized error. */
    function FindUserByCredentials(email: string, password: string): (r: Result<User, Error>)
      requires Valid()
      reads this, users.Values
      ensures r.Failure? ==> r.error == Unauthorized(BadCredentialsMessage)
      ensures r.Success? <==> exists k :: k in users && users[k].email == email && BcryptCompare(password, users[k].password)
      ensures r.Success? ==> r.value in users.Values && r.value.email == email && BcryptCompare(password, r.value.password)
    {
      var found := FindByEmail(email);
      if found.None? then Failure(Unauthorized(BadCredentialsMessage))
      else if !BcryptCompare(password, found.value.password) then Failure(Unauthorized(BadCredentialsMessage))
      else Success(found.value)
    }

    /** `save()` of a new document: validation first, then the pre-save hook, then
        the insert, which the unique index on `email` can refuse. */
    method Insert(u: User, salt: nat) returns (r: Result<(), Error>)
      requires Valid() && u.id !in users && u.passwordModified
      modifies this, u`password, u`passwordModified
      ensures old(u.Failures(isEmail)) != [] ==> r == Failure(Validation("user", old(u.Failures(isEmail))))
      ensures old(u.Failures(isEmail)) == [] && u.email in old(emails) ==> r == Failure(DuplicateKey("users", "email_1"))
      ensures r.Success? <==> old(u.Failures(isEmail)) == [] && u.email !in old(emails)
      ensures r.Success? ==> users == old(users)[u.id := u] && emails == old(emails)[u.email := u.id]
      ensures r.Success? ==> u.password == BcryptHash(old(u.password), salt) && !u.passwordModified
      ensures r.Failure? ==> users == old(users) && emails == old(emails)
      ensures Valid()
    {
      var failures := u.Failures(isEmail);
      if failures != [] {
        return Failure(Validation("user", failures));
      }
      u.HashPasswordIfModified(salt);
      if u.email in emails {
        return Failure(DuplicateKey("users", "email_1"));
      }
      u.passwordModified := false;
      Add(u);
      r := Success(());
    }

    /** The insert itself, once the document has passed validation and the hook. */
    method Add(u: User)
      requires Valid() && u.id !in users && u.email !in emails
      requires !u.passwordModified && u.Failures(isEmail) == []
      modifies this`users, this`emails
      ensures users == old(users)[u.id := u] && emails == old(emails)[u.email := u.id]
      ensures Valid()
    {
      users := users[u.id := u];
      emails := emails[u.email := u.id];
    }

    /** `findByIdAndUpdate(id, { name, email }, { runValidators: true })`: undefined
        fields are dropped, the update validators run on the fields that are set,
        then a missing document and a duplicate email fail. */
    method UpdateProfile(id: UserId, name: Option<string>, email: Option<string>) returns (r: Result<User, Error>)
      requires Valid()
      modifies this`emails, Stored(id)`name, Stored(id)`email
      ensures ProfileFailures(name, email, isEmail) != [] ==> r == Failure(Validation("", ProfileFailures(name, email, isEmail)))
      ensures ProfileFailures(name, email, isEmail) == [] && id !in users ==> r.Failure? && r.error.NotFound?
      ensures r.Success? <==>
        ProfileFailures(name, email, isEmail) == [] && id in users &&
        (email.Some? ==> email.value !in old(emails) || old(emails)[email.value] == id)
      ensures r.Failure? && !r.error.Validation? && !r.error.NotFound? ==> r.error == DuplicateKey("users", "email_1")
      ensures users == old(users)
      ensures r.Success? ==>
        r.value == users[id] &&
        r.value.name == (if name.Some? then name.value else old(users[id].name)) &&
        r.value.email == (if email.Some? then email.value else old(users[id].email))
      ensures forall k :: k in users && (r.Failure? || k != id) ==>
        users[k].name == old(users[k].name) && users[k].email == old(users[k].email)
      ensures Valid()
    {
      var failures := ProfileFailures(name, email, isEmail);
      if failures != [] {
        return Failure(Validation("", failures));
      }
      if id !in users {
        return Failure(NotFound("Пользователь по заданному id отсутствует в базе"));
      }
      if email.Some? && email.value in emails && emails[email.value] != id {
        return Failure(DuplicateKey("users", "email_1"));
      }
      var u := users[id];
      SetProfile(u, id, name, email);
      r := Success(u);
    }

    /** The `$set` of the validated fields that are given, on an existing document. */
    method SetProfile(u: User, id: UserId, name: Option<string>, email: Option<string>)
      requires Valid() && id in users && u == users[id] && ProfileFailures(name, email, isEmail) == []
      requires email.Some? ==> email.value !in emails || emails[email.value] == id
      modifies this`emails, u`name, u`email
      ensures u.name == (if name.Some? then name.value else old(u.name))
      ensures u.email == (if email.Some? then email.value else old(u.email))
      ensures Valid()
    {
      if name.Some? {
        SetName(u, id, name.value);
      }
      ghost var named := u.name;
      if email.Some? {
        SetEmail(u, id, email.value);
      }
      assert u.name == named;
    }

    /** The document stored under `id`, as a set for frames. */
    function Stored(id: UserId): (r: set<User>)
      reads this
      ensures r == (if id in users then {users[id]} else {})
    {
      if id in users then {users[id]} else {}
    }

    /** The `$set` of a validated `name` on an existing document. */
    method SetName(u: User, id: UserId, name: string)
      requires Valid() && id in users && u == users[id]
      requires NameMinLength <= |name| <= NameMaxLength
      modifies u`name
      ensures u.name == name
      ensures Valid()
    {
      u.name := name;
      forall k | k in users
        ensures users[k].id == k && !users[k].passwordModified && users[k].Failures(isEmail) == []
      {
        if k != id {
          assert users[k] != u;
        }
      }
    }

    /** The `$set` of a validated, not yet taken `email` on an existing document,
        together with the update of the unique index. */
    method SetEmail(u: User, id: UserId, email: string)
      requires Valid() && id in users && u == users[id]
      requires email != "" && isEmail(email)
      requires email !in emails || emails[email] == id
      modifies this`emails, u`email
      ensures u.email == email && emails == (old(emails) - {old(u.email)})[email := id]
      ensures Valid()
    {
      ghost var before := emails;
      emails := (emails - {u.email})[email := id];
      u.email := email;
      forall k | k in users
        ensures users[k].id == k && users[k].email in emails && emails[users[k].email] == k
        ensures !users[k].passwordModified && users[k].Failures(isEmail) == []
      {
        if k != id {
          assert users[k] != u;
          assert before[users[k].email] == k;
        }
      }
      forall e | e in emails
        ensures emails[e] in users && users[emails[e]].email == e
      {
        if e != email {
          assert before[e] != id;
          assert users[before[e]] != u;
        }
      }
    }
  }


  /** The failures of the update validators on the fields an update sets. */
  function ProfileFailures(name: Option<string>, email: Option<string>, isEmail: string -> bool): (r: seq<FieldFailure>)
    ensures r == [] <==>
      (name.Some? ==> NameMinLength <= |name.value| <= NameMaxLength) &&
      (email.Some? ==> email.value != "" && isEmail(email.value))
  {
    (if name.Some? then OptionList(NameFailure(name.value)) else []) +
    (if email.Some? then OptionList(EmailFailure(email.value, isEmail)) else [])
  }
}
