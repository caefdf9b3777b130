/** The request validators applied before the controllers. Each is a Joi schema
    wrapped by celebrate with no options; here a schema is a value of a small rule
    language with the Joi semantics the schemas use (an object accepts only its
    declared keys, a string must be non-empty unless `allow('')`, bounds count
    characters, and `Joi.number()` converts a numeric string, as Joi does by default),
    and each validator's contract states the accepted bodies field by field. Joi's
    `.email()` is a predicate supplied by the caller. */
module Validations {
  import opened Js
  import opened Wrappers

  /** `/^[\d\s()+-]{6,30}$/`. */
  const PhoneMinLength: nat := 6
  const PhoneMaxLength: nat := 30

  /** `\s` of JavaScript regular expressions: the ASCII and Unicode white space. */
  predicate IsRegexSpace(c: char)
  {
    var k := c as int;
    k == 0x20 || (0x09 <= k <= 0x0D) || k == 0xA0 || k == 0x1680 || (0x2000 <= k <= 0x200A) ||
    k == 0x2028 || k == 0x2029 || k == 0x202F || k == 0x205F || k == 0x3000 || k == 0xFEFF
  }

  /** The character class `[\d\s()+-]`. */
  predicate InPhoneClass(c: char)
  {
    IsDigit(c) || IsRegexSpace(c) || c == '(' || c == ')' || c == '+' || c == '-'
  }

  /** Anchored repetition of the phone class between `lo` and `hi` times, matched one
      character at a time. */
  function MatchPhoneClass(s: string, lo: nat, hi: nat): bool
    decreases |s|
  {
    if s == [] then lo == 0
    else hi > 0 && InPhoneClass(s[0]) && MatchPhoneClass(s[1..], if lo > 0 then lo - 1 else 0, hi - 1)
  }

  /** `phoneRegExp.test(s)`. */
  predicate PhoneRegExpTest(s: string)
  {
    MatchPhoneClass(s, PhoneMinLength, PhoneMaxLength)
  }

  lemma {:induction false} MatchPhoneClassIff(s: string, lo: nat, hi: nat)
    ensures MatchPhoneClass(s, lo, hi) <==> lo <= |s| <= hi && forall i :: 0 <= i < |s| ==> InPhoneClass(s[i])
    decreases |s|
  {
    if s != [] && hi > 0 {
      MatchPhoneClassIff(s[1..], if lo > 0 then lo - 1 else 0, hi - 1);
      assert forall i :: 1 <= i < |s| ==> s[i] == s[1..][i - 1];
    }
  }

  /** A phone is accepted exactly when it has 6 to 30 characters, each a digit, white
      space, '(', ')', '+' or '-'. */
  lemma PhonePatternIff(s: string)
    ensures PhoneRegExpTest(s) <==> 6 <= |s| <= 30 && forall i :: 0 <= i < |s| ==> InPhoneClass(s[i])
  {
    MatchPhoneClassIff(s, PhoneMinLength, PhoneMaxLength);
  }

  /** The payment kinds an order may name. */
  datatype PaymentType = Card | Online

  function PaymentName(p: PaymentType): string
  {
    match p
    case Card => "card"
    case Online => "online"
  }

  /** The enum's stored strings, as Mongoose's `enum` validator reads them. */
  function ParsePayment(s: string): (r: Option<PaymentType>)
    ensures r.Some? ==> PaymentName(r.value) == s
    ensures r.None? ==> s != "card" && s != "online"
  {
    if s == "card" then Some(Card) else if s == "online" then Some(Online) else None
  }

  /** `Types.ObjectId.isValid` on a string: 24 hexadecimal digits. */
  predicate IsObjectId(s: string)
  {
    |s| == 24 && forall i :: 0 <= i < |s| ==> IsHexDigit(s[i])
  }

  /** `Number.MAX_SAFE_INTEGER`: beyond it in either direction Joi refuses a number
      as unsafe. */
  const MaxSafeInteger: int := 9007199254740991

  predicate SafeInteger(n: int)
  {
    -MaxSafeInteger <= n <= MaxSafeInteger
  }

  /** Text whose number prints differently from the text once its sign and
      leading zeros are normalised; for integer text that is a minus sign before
      zero, since `String(-0)` is "0". */
  predicate LosesPrecision(s: string)
  {
    s != "" && s[0] == '-' && ParseNumber(s) == Finite(0)
  }

  /** The number `Joi.number()` reads from a value under Joi's default conversion:
      a number as it is, and a non-empty string that reads as a number converted to
      that number; a value outside the safe integers, or text that loses precision,
      is refused. */
  function JoiNumber(v: Json): (r: Option<int>)
    ensures r.Some? ==> SafeInteger(r.value)
    ensures v.JNum? ==> (r.Some? <==> SafeInteger(v.n)) && (r.Some? ==> r.value == v.n)
    ensures v.JStr? ==>
      (r.Some? <==> v.s != "" && ParseNumber(v.s).Finite? && SafeInteger(ParseNumber(v.s).n) && !LosesPrecision(v.s))
    ensures v.JStr? && r.Some? ==> ParseNumber(v.s) == Finite(r.value)
    ensures !v.JNum? && !v.JStr? ==> r.None?
  {
    match v
    case JNum(n) => if SafeInteger(n) then Some(n) else None
    case JStr(s) =>
      if s != "" && ParseNumber(s).Finite? && SafeInteger(ParseNumber(s).n) && !LosesPrecision(s)
      then Some(ParseNumber(s).n) else None
    case _ => None
  }

  /** Every safe integer sent as its decimal text is read as that integer. */
  lemma JoiNumberOfDecimal(n: int)
    requires SafeInteger(n)
    ensures JoiNumber(JStr(Decimal(n))) == Some(n)
  {
    ParseDecimal(n);
    if n == 0 {
      assert Decimal(n) == NatDigits(0) == [DigitChar(0)];
    }
  }

  /** The first integer past `Number.MAX_SAFE_INTEGER` is refused, as a number and
      as text. */
  lemma UnsafeIntegerIsRefused(n: int)
    requires n == MaxSafeInteger + 1 || n == -(MaxSafeInteger + 1)
    ensures JoiNumber(JNum(n)).None? && JoiNumber(JStr(Decimal(n))).None?
  {
    ParseDecimal(n);
  }

  /** The format rule a string schema chains after `Joi.string()`, if any. */
  datatype Format =
    | AnyText
    | Email
    | PhonePattern
    | OneOf(choices: seq<string>)
    | ObjectIdText

  /** A Joi schema. `Str(allowEmpty, minLength, maxLength, format)` is
      `Joi.string()` with `.allow('')` when `allowEmpty`, `.min`/`.max` bounds and a
      format rule; `Num(positive, allowNull)` is `Joi.number()`; `Arr(item, min)` is
      `Joi.array().items(item).min(min)`; `Obj(keys)` is `Joi.object().keys(...)`. */
  datatype Rule =
    | Str(allowEmpty: bool, minLength: nat, maxLength: Option<nat>, format: Format)
    | Num(positive: bool, allowNull: bool)
    | Arr(item: Rule, minItems: nat)
    | Obj(keys: seq<Key>)

  /** One declared key, with `.required()` recorded in `required`. */
  datatype Key = Key(name: string, rule: Rule, required: bool)

  predicate FormatHolds(f: Format, s: string, isEmail: string -> bool)
  {
    match f
    case AnyText => true
    case Email => isEmail(s)
    case PhonePattern => PhoneRegExpTest(s)
    case OneOf(choices) => s in choices
    case ObjectIdText => IsObjectId(s)
  }

  predicate Declared(keys: seq<Key>, name: string)
  {
    exists i :: 0 <= i < |keys| && keys[i].name == name
  }

  /** Whether `rule` accepts `v`. */
  predicate Accepts(rule: Rule, v: Json, isEmail: string -> bool)
    decreases rule
  {
    match rule
    case Str(allowEmpty, minLength, maxLength, format) =>
      v.JStr? &&
      if v.s == "" then allowEmpty
      else |v.s| >= minLength && (maxLength.Some? ==> |v.s| <= maxLength.value) && FormatHolds(format, v.s, isEmail)
    case Num(positive, allowNull) =>
      (JoiNumber(v).Some? && (positive ==> JoiNumber(v).value > 0)) || (allowNull && v.JNull?)
    case Arr(item, minItems) =>
      v.JArr? && |v.items| >= minItems &&
      forall i :: 0 <= i < |v.items| ==> Accepts(item, v.items[i], isEmail)
    case Obj(keys) =>
      v.JObj? &&
      (forall name :: name in v.fields ==> Declared(keys, name)) &&
      forall i :: 0 <= i < |keys| ==> KeyOk(keys[i], v.fields, isEmail)
  }

  /** A declared key is satisfied: absent only when optional, and accepted by its
      rule when present. */
  predicate KeyOk(k: Key, fields: map<string, Json>, isEmail: string -> bool)
    decreases k
  {
    if k.name in fields then Accepts(k.rule, fields[k.name], isEmail) else !k.required
  }

  /** A value of the map is a string satisfying `p`. */
  predicate StrField(body: map<string, Json>, key: string, p: string -> bool)
  {
    key in body && body[key].JStr? && p(body[key].s)
  }

  /** An optional key: absent, or a string satisfying `p`. */
  predicate OptStrField(body: map<string, Json>, key: string, p: string -> bool)
  {
    key in body ==> body[key].JStr? && p(body[key].s)
  }

  predicate OnlyKeys(body: map<string, Json>, names: set<string>)
  {
    forall k :: k in body ==> k in names
  }

  /** An object schema whose declared names are exactly `names` accepts a body
      exactly when the body has no other key and every declared key is satisfied. */
  lemma ObjAcceptsIff(keys: seq<Key>, fields: map<string, Json>, names: set<string>, isEmail: string -> bool)
    requires forall i :: 0 <= i < |keys| ==> keys[i].name in names
    requires forall name :: name in names ==> Declared(keys, name)
    ensures Accepts(Obj(keys), JObj(fields), isEmail) <==>
      OnlyKeys(fields, names) && forall i :: 0 <= i < |keys| ==> KeyOk(keys[i], fields, isEmail)
  {
    assert forall name :: Declared(keys, name) <==> name in names;
  }

  // ---- validateOrderBody ----

  const OrderBodyKeys: set<string> := {"items", "payment", "email", "phone", "address", "total", "comment"}

  const OrderBodySchema: seq<Key> := [
    Key("items", Arr(Str(false, 0, None, ObjectIdText), 1), true),
    Key("payment", Str(false, 0, None, OneOf([PaymentName(Card), PaymentName(Online)])), true),
    Key("email", Str(false, 0, Some(100), Email), true),
    Key("phone", Str(false, 0, Some(30), PhonePattern), true),
    Key("address", Str(false, 5, Some(200), AnyText), true),
    Key("total", Num(true, false), true),
    Key("comment", Str(true, 0, Some(1000), AnyText), false)
  ]

  /** The declared order-body fields, each as the schema constrains it. */
  ghost predicate OrderBodyFieldsOk(body: map<string, Json>, isEmail: string -> bool)
  {
    && "items" in body && body["items"].JArr? && |body["items"].items| >= 1
    && (forall i :: 0 <= i < |body["items"].items| ==>
          body["items"].items[i].JStr? && IsObjectId(body["items"].items[i].s))
    && StrField(body, "payment", s => s == "card" || s == "online")
    && StrField(body, "email", s => s != "" && isEmail(s) && |s| <= 100)
    && StrField(body, "phone", s => 6 <= |s| <= 30 && forall i :: 0 <= i < |s| ==> InPhoneClass(s[i]))
    && StrField(body, "address", s => 5 <= |s| <= 200)
    && "total" in body && JoiNumber(body["total"]).Some? && JoiNumber(body["total"]).value > 0
    && OptStrField(body, "comment", s => |s| <= 1000)
  }

  lemma OrderBodySchemaIff(body: map<string, Json>, isEmail: string -> bool)
    ensures Accepts(Obj(OrderBodySchema), JObj(body), isEmail) <==>
      OnlyKeys(body, OrderBodyKeys) && OrderBodyFieldsOk(body, isEmail)
  {
    var S := OrderBodySchema;
    assert S[0].name == "items" && S[1].name == "payment" && S[2].name == "email" && S[3].name == "phone";
    assert S[4].name == "address" && S[5].name == "total" && S[6].name == "comment";
    forall i | 0 <= i < |S| ensures S[i].name in OrderBodyKeys {
      assert i == 0 || i == 1 || i == 2 || i == 3 || i == 4 || i == 5 || i == 6;
    }
    ObjAcceptsIff(S, body, OrderBodyKeys, isEmail);
    OrderBodyKeysIff(body, isEmail);
  }

  lemma OrderBodyKeysIff(body: map<string, Json>, isEmail: string -> bool)
    ensures (forall i :: 0 <= i < |OrderBodySchema| ==> KeyOk(OrderBodySchema[i], body, isEmail)) <==>
      OrderBodyFieldsOk(body, isEmail)
  {
    var S := OrderBodySchema;
    OrderBodyFirstKeys(body, isEmail);
    OrderBodyLastKeys(body, isEmail);
    if KeyOk(S[0], body, isEmail) && KeyOk(S[1], body, isEmail) && KeyOk(S[2], body, isEmail) &&
       KeyOk(S[3], body, isEmail) && KeyOk(S[4], body, isEmail) && KeyOk(S[5], body, isEmail) &&
       KeyOk(S[6], body, isEmail) {
      forall i | 0 <= i < |S| ensures KeyOk(S[i], body, isEmail) {
        assert i == 0 || i == 1 || i == 2 || i == 3 || i == 4 || i == 5 || i == 6;
      }
    }
  }

  lemma OrderBodyFirstKeys(body: map<string, Json>, isEmail: string -> bool)
    ensures KeyOk(OrderBodySchema[0], body, isEmail) <==>
      "items" in body && body["items"].JArr? && |body["items"].items| >= 1 &&
      forall i :: 0 <= i < |body["items"].items| ==>
        body["items"].items[i].JStr? && IsObjectId(body["items"].items[i].s)
    ensures KeyOk(OrderBodySchema[1], body, isEmail) <==> StrField(body, "payment", s => s == "card" || s == "online")
    ensures KeyOk(OrderBodySchema[2], body, isEmail) <==> StrField(body, "email", s => s != "" && isEmail(s) && |s| <= 100)
  {
  }

  lemma OrderBodyLastKeys(body: map<string, Json>, isEmail: string -> bool)
    ensures KeyOk(OrderBodySchema[3], body, isEmail) <==>
      StrField(body, "phone", s => 6 <= |s| <= 30 && forall i :: 0 <= i < |s| ==> InPhoneClass(s[i]))
    ensures KeyOk(OrderBodySchema[4], body, isEmail) <==> StrField(body, "address", s => 5 <= |s| <= 200)
    ensures KeyOk(OrderBodySchema[5], body, isEmail) <==>
      "total" in body && JoiNumber(body["total"]).Some? && JoiNumber(body["total"]).value > 0
    ensures KeyOk(OrderBodySchema[6], body, isEmail) <==> OptStrField(body, "comment", s => |s| <= 1000)
  {
    if "phone" in body && body["phone"].JStr? {
      PhonePatternIff(body["phone"].s);
    }
  }

  /** `validateOrderBody`: items a non-empty array of ObjectIds, payment 'card' or
      'online', an email of at most 100 characters, a phone matching the pattern, an
      address of 5 to 200 characters, a positive total (a number, or text that reads
      as one), an optional comment of at
      most 1000 characters that may be empty, and no other key. */
  predicate ValidateOrderBody(body: map<string, Json>, isEmail: string -> bool)
    ensures ValidateOrderBody(body, isEmail) <==> OnlyKeys(body, OrderBodyKeys) && OrderBodyFieldsOk(body, isEmail)
  {
    OrderBodySchemaIff(body, isEmail);
    Accepts(Obj(OrderBodySchema), JObj(body), isEmail)
  }

  /** The body celebrate hands on to the controller: the validated value, in which
      a `total` sent as text has become the number it reads as. */
  function ConvertOrderBody(body: map<string, Json>): (r: map<string, Json>)
    ensures r.Keys == body.Keys
    ensures forall k :: k in body && k != "total" ==> r[k] == body[k]
  {
    if "total" in body && JoiNumber(body["total"]).Some? then body["total" := JNum(JoiNumber(body["total"]).value)]
    else body
  }

  /** A validated order body stays valid once converted, and its `total` is then
      the positive number the validator read. */
  lemma ConvertedOrderBodyIsValid(body: map<string, Json>, isEmail: string -> bool)
    requires ValidateOrderBody(body, isEmail)
    ensures ValidateOrderBody(ConvertOrderBody(body), isEmail)
    ensures ConvertOrderBody(body)["total"] == JNum(JoiNumber(body["total"]).value)
    ensures JoiNumber(body["total"]).value > 0
  {
    SameButTotal(body, ConvertOrderBody(body), isEmail);
  }

  /** Two bodies that differ at most in how `total` writes the same number are
      accepted alike. */
  lemma SameButTotal(b1: map<string, Json>, b2: map<string, Json>, isEmail: string -> bool)
    requires b1.Keys == b2.Keys && "total" in b1
    requires forall k :: k in b1 && k != "total" ==> b1[k] == b2[k]
    requires JoiNumber(b1["total"]) == JoiNumber(b2["total"])
    ensures ValidateOrderBody(b1, isEmail) <==> ValidateOrderBody(b2, isEmail)
  {
    SameButTotalFields(b1, b2, isEmail);
  }

  lemma SameButTotalFields(b1: map<string, Json>, b2: map<string, Json>, isEmail: string -> bool)
    requires b1.Keys == b2.Keys && "total" in b1
    requires forall k :: k in b1 && k != "total" ==> b1[k] == b2[k]
    requires JoiNumber(b1["total"]) == JoiNumber(b2["total"])
    ensures OnlyKeys(b1, OrderBodyKeys) <==> OnlyKeys(b2, OrderBodyKeys)
    ensures OrderBodyFieldsOk(b1, isEmail) <==> OrderBodyFieldsOk(b2, isEmail)
  {
  }

  /** A total sent as the text of a number passes validation wherever the number
      itself does. */
  lemma TextTotalIsAccepted(body: map<string, Json>, n: int, isEmail: string -> bool)
    requires ValidateOrderBody(body, isEmail) && body["total"] == JNum(n)
    ensures ValidateOrderBody(body["total" := JStr(Decimal(n))], isEmail)
  {
    JoiNumberOfDecimal(n);
    SameButTotal(body, body["total" := JStr(Decimal(n))], isEmail);
  }

  /** Conversion turns a total sent as the text of a number back into that number. */
  lemma TextTotalConvertsBack(body: map<string, Json>, n: int)
    requires "total" in body && body["total"] == JNum(n) && SafeInteger(n)
    ensures ConvertOrderBody(body["total" := JStr(Decimal(n))]) == body
  {
    JoiNumberOfDecimal(n);
    var t := body["total" := JStr(Decimal(n))];
    assert t["total" := JNum(n)] == body;
  }

  // ---- validateUserBody and validateAuthentication ----

  const UserBodyKeys: set<string> := {"name", "password", "email"}

  const UserBodySchema: seq<Key> := [
    Key("name", Str(false, 2, Some(30), AnyText), false),
    Key("password", Str(false, 6, None, AnyText), true),
    Key("email", Str(false, 0, Some(100), Email), true)
  ]

  ghost predicate UserBodyFieldsOk(body: map<string, Json>, isEmail: string -> bool)
  {
    && OptStrField(body, "name", s => 2 <= |s| <= 30)
    && StrField(body, "password", s => |s| >= 6)
    && StrField(body, "email", s => s != "" && isEmail(s) && |s| <= 100)
  }

  lemma UserBodySchemaIff(body: map<string, Json>, isEmail: string -> bool)
    ensures Accepts(Obj(UserBodySchema), JObj(body), isEmail) <==>
      OnlyKeys(body, UserBodyKeys) && UserBodyFieldsOk(body, isEmail)
  {
    var S := UserBodySchema;
    assert S[0].name == "name" && S[1].name == "password" && S[2].name == "email";
    forall i | 0 <= i < |S| ensures S[i].name in UserBodyKeys {
      assert i == 0 || i == 1 || i == 2;
    }
    ObjAcceptsIff(S, body, UserBodyKeys, isEmail);
    if forall i :: 0 <= i < |S| ==> KeyOk(S[i], body, isEmail) {
      assert KeyOk(S[0], body, isEmail) && KeyOk(S[1], body, isEmail) && KeyOk(S[2], body, isEmail);
    }
    if UserBodyFieldsOk(body, isEmail) {
      forall i | 0 <= i < |S| ensures KeyOk(S[i], body, isEmail) {
        assert i == 0 || i == 1 || i == 2;
      }
    }
  }

  /** `validateUserBody` (registration): the name is optional but 2 to 30 characters
      when present, the password is required with at least 6 characters, the email
      is required with at most 100, and no other key is allowed. */
  predicate ValidateUserBody(body: map<string, Json>, isEmail: string -> bool)
    ensures ValidateUserBody(body, isEmail) <==> OnlyKeys(body, UserBodyKeys) && UserBodyFieldsOk(body, isEmail)
  {
    UserBodySchemaIff(body, isEmail);
    Accepts(Obj(UserBodySchema), JObj(body), isEmail)
  }

  const AuthenticationKeys: set<string> := {"email", "password"}

  const AuthenticationSchema: seq<Key> := [
    Key("email", Str(false, 0, Some(100), Email), true),
    Key("password", Str(false, 0, None, AnyText), true)
  ]

  ghost predicate AuthenticationFieldsOk(body: map<string, Json>, isEmail: string -> bool)
  {
    && StrField(body, "email", s => s != "" && isEmail(s) && |s| <= 100)
    && StrField(body, "password", s => s != "")
  }

  lemma AuthenticationSchemaIff(body: map<string, Json>, isEmail: string -> bool)
    ensures Accepts(Obj(AuthenticationSchema), JObj(body), isEmail) <==>
      OnlyKeys(body, AuthenticationKeys) && AuthenticationFieldsOk(body, isEmail)
  {
    var S := AuthenticationSchema;
    assert S[0].name == "email" && S[1].name == "password";
    forall i | 0 <= i < |S| ensures S[i].name in AuthenticationKeys {
      assert i == 0 || i == 1;
    }
    ObjAcceptsIff(S, body, AuthenticationKeys, isEmail);
    if forall i :: 0 <= i < |S| ==> KeyOk(S[i], body, isEmail) {
      assert KeyOk(S[0], body, isEmail) && KeyOk(S[1], body, isEmail);
    }
    if AuthenticationFieldsOk(body, isEmail) {
      forall i | 0 <= i < |S| ensures KeyOk(S[i], body, isEmail) {
        assert i == 0 || i == 1;
      }
    }
  }

  /** `validateAuthentication` (login): email and password are required, and the
      password has no length rule beyond being non-empty. */
  predicate ValidateAuthentication(body: map<string, Json>, isEmail: string -> bool)
    ensures ValidateAuthentication(body, isEmail) <==>
      OnlyKeys(body, AuthenticationKeys) && AuthenticationFieldsOk(body, isEmail)
  {
    AuthenticationSchemaIff(body, isEmail);
    Accepts(Obj(AuthenticationSchema), JObj(body), isEmail)
  }

  /** A one-character password passes login validation although registration
      refuses it. */
  lemma LoginHasNoPasswordMinimum(email: string, isEmail: string -> bool)
    requires email != "" && isEmail(email) && |email| <= 100
    ensures ValidateAuthentication(map["email" := JStr(email), "password" := JStr("x")], isEmail)
    ensures !ValidateUserBody(map["email" := JStr(email), "password" := JStr("x")], isEmail)
  {
  }

  // ---- validateProductBody and validateProductUpdateBody ----

  const ImageKeys: set<string> := {"fileName", "originalName"}

  const ImageSchema: seq<Key> := [
    Key("fileName", Str(false, 0, None, AnyText), true),
    Key("originalName", Str(false, 0, Some(100), AnyText), true)
  ]

  ghost predicate ImageOk(v: Json)
  {
    v.JObj? && OnlyKeys(v.fields, ImageKeys) &&
    StrField(v.fields, "fileName", s => s != "") &&
    StrField(v.fields, "originalName", s => s != "" && |s| <= 100)
  }

  lemma ImageSchemaIff(v: Json, isEmail: string -> bool)
    ensures Accepts(Obj(ImageSchema), v, isEmail) <==> ImageOk(v)
  {
    var S := ImageSchema;
    assert S[0].name == "fileName" && S[1].name == "originalName";
    forall i | 0 <= i < |S| ensures S[i].name in ImageKeys {
      assert i == 0 || i == 1;
    }
    if v.JObj? {
      ObjAcceptsIff(S, v.fields, ImageKeys, isEmail);
      if forall i :: 0 <= i < |S| ==> KeyOk(S[i], v.fields, isEmail) {
        assert KeyOk(S[0], v.fields, isEmail) && KeyOk(S[1], v.fields, isEmail);
      }
      if ImageOk(v) {
        forall i | 0 <= i < |S| ensures KeyOk(S[i], v.fields, isEmail) {
          assert i == 0 || i == 1;
        }
      }
    }
  }

  const ProductBodyKeys: set<string> := {"title", "image", "category", "description", "price"}

  /** The product schemas; `required` selects the creation schema, in which title,
      category and description are required, over the update schema, in which every
      key is optional. */
  function ProductSchema(required: bool): seq<Key>
  {
    [
      Key("title", Str(false, 2, Some(100), AnyText), required),
      Key("image", Obj(ImageSchema), false),
      Key("category", Str(false, 0, None, AnyText), required),
      Key("description", Str(false, 5, Some(1000), AnyText), required),
      Key("price", Num(false, true), false)
    ]
  }

  ghost predicate ProductFieldsOk(body: map<string, Json>, required: bool)
  {
    && (required ==> "title" in body && "category" in body && "description" in body)
    && OptStrField(body, "title", s => 2 <= |s| <= 100)
    && ("image" in body ==> ImageOk(body["image"]))
    && OptStrField(body, "category", s => s != "")
    && OptStrField(body, "description", s => 5 <= |s| <= 1000)
    && ("price" in body ==> JoiNumber(body["price"]).Some? || body["price"].JNull?)
  }

  lemma ProductSchemaIff(body: map<string, Json>, required: bool, isEmail: string -> bool)
    ensures Accepts(Obj(ProductSchema(required)), JObj(body), isEmail) <==>
      OnlyKeys(body, ProductBodyKeys) && ProductFieldsOk(body, required)
  {
    var S := ProductSchema(required);
    assert S[0].name == "title" && S[1].name == "image" && S[2].name == "category";
    assert S[3].name == "description" && S[4].name == "price";
    forall i | 0 <= i < |S| ensures S[i].name in ProductBodyKeys {
      assert i == 0 || i == 1 || i == 2 || i == 3 || i == 4;
    }
    ObjAcceptsIff(S, body, ProductBodyKeys, isEmail);
    ProductKeysIff(body, required, isEmail);
  }

  lemma ProductKeysIff(body: map<string, Json>, required: bool, isEmail: string -> bool)
    ensures (forall i :: 0 <= i < |ProductSchema(required)| ==> KeyOk(ProductSchema(required)[i], body, isEmail)) <==>
      ProductFieldsOk(body, required)
  {
    var S := ProductSchema(required);
    ProductEachKey(body, required, isEmail);
    if KeyOk(S[0], body, isEmail) && KeyOk(S[1], body, isEmail) && KeyOk(S[2], body, isEmail) &&
       KeyOk(S[3], body, isEmail) && KeyOk(S[4], body, isEmail) {
      forall i | 0 <= i < |S| ensures KeyOk(S[i], body, isEmail) {
        assert i == 0 || i == 1 || i == 2 || i == 3 || i == 4;
      }
    }
  }

  lemma ProductEachKey(body: map<string, Json>, required: bool, isEmail: string -> bool)
    ensures KeyOk(ProductSchema(required)[0], body, isEmail) <==>
      (required ==> "title" in body) && OptStrField(body, "title", s => 2 <= |s| <= 100)
    ensures KeyOk(ProductSchema(required)[1], body, isEmail) <==> ("image" in body ==> ImageOk(body["image"]))
    ensures KeyOk(ProductSchema(required)[2], body, isEmail) <==>
      (required ==> "category" in body) && OptStrField(body, "category", s => s != "")
    ensures KeyOk(ProductSchema(required)[3], body, isEmail) <==>
      (required ==> "description" in body) && OptStrField(body, "description", s => 5 <= |s| <= 1000)
    ensures KeyOk(ProductSchema(required)[4], body, isEmail) <==>
      ("price" in body ==> JoiNumber(body["price"]).Some? || body["price"].JNull?)
  {
    if "image" in body {
      ImageSchemaIff(body["image"], isEmail);
    }
  }

  /** `validateProductBody`: a title of 2 to 100 characters, an optional image with
      both names (the original one at most 100 characters), a category, a description
      of 5 to 1000 characters, and a price that is a number, text that reads as one,
      or null. */
  predicate ValidateProductBody(body: map<string, Json>)
    ensures ValidateProductBody(body) <==> OnlyKeys(body, ProductBodyKeys) && ProductFieldsOk(body, true)
  {
    ProductSchemaIff(body, true, s => false);
    Accepts(Obj(ProductSchema(true)), JObj(body), s => false)
  }

  /** `validateProductUpdateBody`: the same fields with none of them required. */
  predicate ValidateProductUpdateBody(body: map<string, Json>)
    ensures ValidateProductUpdateBody(body) <==> OnlyKeys(body, ProductBodyKeys) && ProductFieldsOk(body, false)
  {
    ProductSchemaIff(body, false, s => false);
    Accepts(Obj(ProductSchema(false)), JObj(body), s => false)
  }

  /** Every body a creation accepts an update accepts too. */
  lemma ProductCreateBodyIsUpdateBody(body: map<string, Json>)
    ensures ValidateProductBody(body) ==> ValidateProductUpdateBody(body)
    ensures ValidateProductUpdateBody(map[]) && !ValidateProductBody(map[])
  {
  }

  // ---- validateObjId ----

  const ObjIdParamsSchema: seq<Key> := [
    Key("productId", Str(false, 0, None, ObjectIdText), true)
  ]

  /** `validateObjId`: the route parameters hold exactly `productId`, an ObjectId. */
  predicate ValidateObjId(params: map<string, Json>)
    ensures ValidateObjId(params) <==> OnlyKeys(params, {"productId"}) && StrField(params, "productId", IsObjectId)
  {
    var S := ObjIdParamsSchema;
    assert S[0].name == "productId";
    ObjAcceptsIff(S, params, {"productId"}, s => false);
    assert (forall i :: 0 <= i < |S| ==> KeyOk(S[i], params, s => false)) <==> KeyOk(S[0], params, s => false);
    Accepts(Obj(S), JObj(params), s => false)
  }

  /** The order-delete route `/:id` runs `validateObjId`: its parameters always hold
      the key `id`, which that schema does not declare, so every request is refused. */
  lemma DeleteRouteParamsAlwaysRejected(params: map<string, Json>)
    requires "id" in params
    ensures !ValidateObjId(params)
  {
  }

  const OrderIdParamsSchema: seq<Key> := [
    Key("id", Str(false, 0, None, ObjectIdText), true)
  ]

  /** The check the `/:id` route evidently intends: its one parameter `id` holds an
      ObjectId. */
  predicate ValidateOrderIdParam(params: map<string, Json>)
    ensures ValidateOrderIdParam(params) <==> OnlyKeys(params, {"id"}) && StrField(params, "id", IsObjectId)
  {
    var S := OrderIdParamsSchema;
    assert S[0].name == "id";
    ObjAcceptsIff(S, params, {"id"}, s => false);
    assert (forall i :: 0 <= i < |S| ==> KeyOk(S[i], params, s => false)) <==> KeyOk(S[0], params, s => false);
    Accepts(Obj(S), JObj(params), s => false)
  }

  /** The intended check admits the parameters of every well-formed delete request. */
  lemma OrderIdParamAcceptsRouteParams(id: string)
    requires IsObjectId(id)
    ensures ValidateOrderIdParam(map["id" := JStr(id)])
  {
  }
}
