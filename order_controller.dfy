/** The order controller: creating an order from a request body (basket check and
    field clean-up), the current user's order list with its in-memory search and
    pagination, lookups by order number with the ownership check, status updates,
    deletion, and the filter, sort and pagination values the admin list builds. */
module OrderController {
  import opened Wrappers
  import opened Js
  import opened Errors
  import opened Validations
  import opened UserModel
  import opened OrderModel

  const ItemsNotArrayMessage := "Поле items должно быть массивом"
  const WrongTotalMessage := "Неверная сумма заказа"
  const OrderNotFoundMessage := "Заказ не найден"
  const BadOrderIdMessage := "Неверный ID заказа"
  const UserNotFoundMessage := "Пользователь не найден"

  /** A product as `Product.find({})` returns it; a `null` price means the product
      is not for sale. */
  datatype Product = Product(id: ProductId, title: string, price: Option<int>)

  // ---- createOrder ----

  /** `product._id.equals(item)`: a string item names the product when its
      lower-case form is the product's hexadecimal id. */
  predicate Designates(item: Json, p: Product)
  {
    item.JStr? && AsciiLower(item.s) == p.id
  }

  /** `products.find(...)`: the first product the item names. */
  function FindProduct(products: seq<Product>, item: Json): (r: Option<Product>)
    ensures r.Some? <==> exists j :: 0 <= j < |products| && Designates(item, products[j])
    ensures r.Some? ==> r.value in products && Designates(item, r.value)
  {
    if products == [] then None
    else if Designates(item, products[0]) then Some(products[0])
    else
      var rest := FindProduct(products[1..], item);
      assert forall j :: 1 <= j < |products| ==> products[j] == products[1..][j - 1];
      rest
  }

  function UnknownProductMessage(item: Json): string
  {
    "Товар с id " + JsString(item) + " не найден"
  }

  function NotForSaleMessage(item: Json): string
  {
    "Товар с id " + JsString(item) + " не продается"
  }

  /** The error one basket item raises, if any. */
  function ItemError(products: seq<Product>, item: Json): (r: Option<Error>)
    ensures r.None? <==> FindProduct(products, item).Some? && FindProduct(products, item).value.price.Some?
    ensures FindProduct(products, item).None? ==> r == Some(BadRequest(UnknownProductMessage(item)))
    ensures FindProduct(products, item).Some? && FindProduct(products, item).value.price.None? ==>
      r == Some(BadRequest(NotForSaleMessage(item)))
  {
    var found := FindProduct(products, item);
    if found.None? then Some(BadRequest(UnknownProductMessage(item)))
    else if found.value.price.None? then Some(BadRequest(NotForSaleMessage(item)))
    else None
  }

  /** The error the `forEach` over the items throws: that of the first failing item. */
  function FirstItemError(products: seq<Product>, items: seq<Json>): (r: Option<Error>)
    ensures r.None? <==> forall i :: 0 <= i < |items| ==> ItemError(products, items[i]).None?
    ensures r.Some? ==>
      exists k :: 0 <= k < |items| && r == ItemError(products, items[k]) &&
        forall i :: 0 <= i < k ==> ItemError(products, items[i]).None?
  {
    if items == [] then None
    else
      var init := items[..|items| - 1];
      assert forall i :: 0 <= i < |init| ==> init[i] == items[i];
      var e := FirstItemError(products, init);
      if e.Some? then e else ItemError(products, items[|items| - 1])
  }

  /** Once an item of a prefix fails, the whole list fails with the same error. */
  lemma {:induction false} FirstItemErrorPrefix(products: seq<Product>, items: seq<Json>, k: nat)
    requires k <= |items|
    requires FirstItemError(products, items[..k]).Some?
    ensures FirstItemError(products, items) == FirstItemError(products, items[..k])
    decreases |items| - k
  {
    if k < |items| {
      assert items[..k + 1][..k] == items[..k];
      assert FirstItemError(products, items[..k + 1]) == FirstItemError(products, items[..k]);
      FirstItemErrorPrefix(products, items, k + 1);
    } else {
      assert items[..k] == items;
    }
  }

  /** The basket of a list of items that all name products for sale. */
  function Basket(products: seq<Product>, items: seq<Json>): (b: seq<Product>)
    requires FirstItemError(products, items).None?
    ensures |b| == |items|
    ensures forall i :: 0 <= i < |items| ==> b[i] in products && Designates(items[i], b[i]) && b[i].price.Some?
  {
    seq(|items|, i requires 0 <= i < |items| => FindProduct(products, items[i]).value)
  }

  predicate Priced(basket: seq<Product>)
  {
    forall i :: 0 <= i < |basket| ==> basket[i].price.Some?
  }

  /** `basket.reduce((a, c) => a + c.price, 0)`. */
  function SumPrices(basket: seq<Product>): int
    requires Priced(basket)
  {
    if basket == [] then 0 else SumPrices(basket[..|basket| - 1]) + basket[|basket| - 1].price.value
  }

  /** The sum is additive, so an item listed twice is paid twice. */
  lemma {:induction false} SumPricesConcat(a: seq<Product>, b: seq<Product>)
    requires Priced(a) && Priced(b)
    ensures Priced(a + b) && SumPrices(a + b) == SumPrices(a) + SumPrices(b)
    decreases |b|
  {
    assert Priced(a + b) by {
      forall i | 0 <= i < |a + b| ensures (a + b)[i].price.Some? {
        if i >= |a| { assert (a + b)[i] == b[i - |a|]; }
      }
    }
    if b == [] {
      assert a + b == a;
    } else {
      var init := b[..|b| - 1];
      assert (a + b)[..|a + b| - 1] == a + init;
      SumPricesConcat(a, init);
    }
  }

  /** The `forEach` that fills `basket`, stopping at the first item that names no
      product or a product without a price. */
  method CollectBasket(products: seq<Product>, items: seq<Json>) returns (r: Result<seq<Product>, Error>)
    ensures FirstItemError(products, items).Some? ==> r == Failure(FirstItemError(products, items).value)
    ensures FirstItemError(products, items).None? ==> r == Success(Basket(products, items))
  {
    var basket: seq<Product> := [];
    var i := 0;
    while i < |items|
      invariant 0 <= i <= |items|
      invariant FirstItemError(products, items[..i]).None?
      invariant basket == Basket(products, items[..i])
    {
      assert items[..i + 1][..i] == items[..i];
      var found := FindProduct(products, items[i]);
      if found.None? || found.value.price.None? {
        assert FirstItemError(products, items[..i + 1]) == ItemError(products, items[i]);
        FirstItemErrorPrefix(products, items, i + 1);
        return Failure(ItemError(products, items[i]).value);
      }
      BasketExtend(products, items, i);
      basket := basket + [found.value];
      i := i + 1;
    }
    assert items[..i] == items;
    r := Success(basket);
  }

  /** One more item that names a product for sale adds that product to the basket. */
  lemma BasketExtend(products: seq<Product>, items: seq<Json>, i: nat)
    requires i < |items| && FirstItemError(products, items[..i]).None?
    requires ItemError(products, items[i]).None?
    ensures FirstItemError(products, items[..i + 1]).None?
    ensures Basket(products, items[..i + 1]) == Basket(products, items[..i]) + [FindProduct(products, items[i]).value]
  {
    var a, b := items[..i], items[..i + 1];
    assert b[..i] == a && b[i] == items[i];
    assert FirstItemError(products, b) == FirstItemError(products, a);
    var x, y := Basket(products, a), Basket(products, b);
    var z := x + [FindProduct(products, items[i]).value];
    forall k | 0 <= k < i + 1
      ensures y[k] == z[k]
    {
      assert y[k] == FindProduct(products, b[k]).value;
      if k < i {
        assert x[k] == FindProduct(products, a[k]).value;
      }
    }
    assert |y| == |z|;
  }

  /** `phone.replace(/\D/g, '')`, with `phone` defaulting to the empty string: a
      value that is no string has no `replace` method. */
  function NormalizedPhone(body: map<string, Json>): (r: Result<string, Error>)
    ensures r.Success? <==> "phone" !in body || body["phone"].JStr?
    ensures r.Success? ==> AllDigits(r.value)
    ensures r.Success? && "phone" in body ==> r.value == DigitsOnly(body["phone"].s)
  {
    if "phone" !in body then Success("")
    else match body["phone"]
      case JStr(s) => Success(DigitsOnly(s))
      case JNull => Failure(Type("Cannot read properties of null (reading 'replace')"))
      case _ => Failure(Type("phone.replace is not a function"))
  }

  /** `escape(field).slice(0, n)`, with the field defaulting to the empty string. */
  function CleanField(body: map<string, Json>, key: string, n: nat): (r: string)
    ensures |r| <= n
    ensures r <= Escape(if key in body then JsString(body[key]) else "")
    ensures |Escape(if key in body then JsString(body[key]) else "")| <= n ==>
      r == Escape(if key in body then JsString(body[key]) else "")
  {
    Truncate(Escape(if key in body then JsString(body[key]) else ""), n)
  }

  predicate ItemsIsArray(body: map<string, Json>)
  {
    "items" in body && body["items"].JArr?
  }

  /** The fields `new Order({...})` receives. */
  datatype Draft = Draft(
    totalAmount: int,
    products: seq<ProductId>,
    payment: string,
    phone: string,
    email: string,
    comment: string,
    deliveryAddress: string)

  /** The ids of a basket, which the items cast to. */
  function Ids(basket: seq<Product>): (r: seq<ProductId>)
    ensures |r| == |basket| && forall i :: 0 <= i < |basket| ==> r[i] == basket[i].id
  {
    seq(|basket|, i requires 0 <= i < |basket| => basket[i].id)
  }

  /** What `createOrder` makes of a body before `save()`, in the order of its
      checks: the phone, the `items` type, the items one by one, the total; then
      the cleaned fields of the new order. */
  function Checked(body: map<string, Json>, products: seq<Product>): (r: Result<Draft, Error>)
  {
    var phone := NormalizedPhone(body);
    if phone.Failure? then Failure(phone.error)
    else if !ItemsIsArray(body) then Failure(BadRequest(ItemsNotArrayMessage))
    else
      var items := body["items"].items;
      var bad := FirstItemError(products, items);
      if bad.Some? then Failure(bad.value)
      else
        var basket := Basket(products, items);
        if !("total" in body && body["total"] == JNum(SumPrices(basket))) then Failure(BadRequest(WrongTotalMessage))
        else Success(Draft(body["total"].n, Ids(basket), CleanField(body, "payment", 50), phone.value,
                           CleanField(body, "email", 100), CleanField(body, "comment", 1000),
                           CleanField(body, "address", 200)))
  }

  /** A body passes the basket and total checks exactly when its phone is absent or
      a string, `items` is an array whose every element names a product for sale,
      and `total` is the sum of the prices of the products named, an item listed
      twice counting twice. */
  lemma CheckedSucceedsIff(body: map<string, Json>, products: seq<Product>)
    ensures Checked(body, products).Success? <==>
      && ("phone" !in body || body["phone"].JStr?)
      && ItemsIsArray(body)
      && (forall i :: 0 <= i < |body["items"].items| ==> ItemError(products, body["items"].items[i]).None?)
      && "total" in body && body["total"].JNum?
      && body["total"].n == SumPrices(Basket(products, body["items"].items))
  {
  }

  /** A body the order validator accepts never fails the phone or `items` checks,
      and its payment passes through the clean-up unchanged. */
  lemma ValidatedBodyReachesBasket(body: map<string, Json>, isEmail: string -> bool)
    requires ValidateOrderBody(body, isEmail)
    ensures NormalizedPhone(body).Success? && ItemsIsArray(body)
    ensures CleanField(body, "payment", 50) == body["payment"].s
  {
    FieldsOkReachBasket(body, isEmail);
  }

  lemma FieldsOkReachBasket(body: map<string, Json>, isEmail: string -> bool)
    requires OrderBodyFieldsOk(body, isEmail)
    ensures NormalizedPhone(body).Success? && ItemsIsArray(body)
    ensures CleanField(body, "payment", 50) == body["payment"].s
  {
    assert NormalizedPhone(body).Success? && ItemsIsArray(body);
    assert StrField(body, "payment", s => s == "card" || s == "online");
    PaymentIsLowerCase(body["payment"].s);
    LowerCaseEscapesToItself(body["payment"].s);
  }

  /** Both payment names are short and made of lower-case letters only. */
  lemma PaymentIsLowerCase(p: string)
    requires p == "card" || p == "online"
    ensures |p| <= 50 && forall i :: 0 <= i < |p| ==> 'a' <= p[i] <= 'z'
  {
  }

  /** `escape` leaves lower-case letters alone. */
  lemma LowerCaseEscapesToItself(p: string)
    requires forall i :: 0 <= i < |p| ==> 'a' <= p[i] <= 'z'
    ensures Escape(p) == p
  {
    assert forall i :: 0 <= i < |p| ==> EscapeSafe(p[i]);
    EscapeSafeIdentity(p);
  }

  /** The stored phone is made of the digits of the input, each digit as often as
      there, and splitting the input splits the result the same way, so the digits
      keep their order. */
  lemma DraftPhoneDigits(body: map<string, Json>, products: seq<Product>, a: string, b: string)
    requires Checked(body, products).Success? && "phone" in body && body["phone"] == JStr(a + b)
    ensures AllDigits(Checked(body, products).value.phone)
    ensures Checked(body, products).value.phone == DigitsOnly(a) + DigitsOnly(b)
    ensures forall c :: IsDigit(c) ==> multiset(Checked(body, products).value.phone)[c] == multiset(a + b)[c]
  {
    CheckedPhone(body, products);
    DigitsOnlyConcat(a, b);
    DigitsOnlyKeepsDigits(a + b);
  }

  lemma CheckedPhone(body: map<string, Json>, products: seq<Product>)
    requires Checked(body, products).Success? && "phone" in body
    ensures body["phone"].JStr? && Checked(body, products).value.phone == DigitsOnly(body["phone"].s)
  {
  }

  /** The text fields are escaped, then cut to 50, 100, 1000 and 200 characters. */
  lemma DraftFieldsBounded(body: map<string, Json>, products: seq<Product>)
    requires Checked(body, products).Success?
    ensures var d := Checked(body, products).value;
      && |d.payment| <= 50 && |d.email| <= 100 && |d.comment| <= 1000 && |d.deliveryAddress| <= 200
      && d.payment <= Escape(if "payment" in body then JsString(body["payment"]) else "")
      && d.email <= Escape(if "email" in body then JsString(body["email"]) else "")
      && d.comment <= Escape(if "comment" in body then JsString(body["comment"]) else "")
      && d.deliveryAddress <= Escape(if "address" in body then JsString(body["address"]) else "")
  {
  }

  /** The order's products are the ids of the basket, one per item. */
  lemma DraftProductsAreBasket(body: map<string, Json>, products: seq<Product>)
    requires Checked(body, products).Success?
    ensures var items := body["items"].items;
      |Checked(body, products).value.products| == |items| &&
      forall i :: 0 <= i < |items| ==>
        exists j :: 0 <= j < |products| && products[j].id == Checked(body, products).value.products[i] &&
          Designates(items[i], products[j]) && products[j].price.Some?
  {
    var items := body["items"].items;
    var d := Checked(body, products).value;
    var basket := Basket(products, items);
    forall i | 0 <= i < |items|
      ensures exists j :: (0 <= j < |products| && products[j].id == d.products[i] &&
                           Designates(items[i], products[j]) && products[j].price.Some?)
    {
      var j :| 0 <= j < |products| && products[j] == basket[i];
      assert d.products[i] == basket[i].id;
    }
  }

  /** The pre-save part of `createOrder`, up to the fields of the new order. */
  method Prepare(body: map<string, Json>, products: seq<Product>) returns (r: Result<Draft, Error>)
    ensures r == Checked(body, products)
  {
    var phone := NormalizedPhone(body);
    if phone.Failure? {
      return Failure(phone.error);
    }
    if !ItemsIsArray(body) {
      return Failure(BadRequest(ItemsNotArrayMessage));
    }
    var items := body["items"].items;
    var basket := CollectBasket(products, items);
    if basket.Failure? {
      return Failure(basket.error);
    }
    var total := SumPrices(basket.value);
    if !("total" in body && body["total"] == JNum(total)) {
      return Failure(BadRequest(WrongTotalMessage));
    }
    r := Success(Draft(body["total"].n, Ids(basket.value),
                       CleanField(body, "payment", 50), phone.value, CleanField(body, "email", 100),
                       CleanField(body, "comment", 1000), CleanField(body, "address", 200)));
  }

  /** The validation failures `save()` reports for a draft. */
  function DraftFailures(d: Draft, isEmail: string -> bool): seq<FieldFailure>
  {
    OrderFailures(StatusName(DefaultStatus), d.payment, d.deliveryAddress, d.email, d.phone, d.comment, isEmail)
  }

  /** The stored document a draft becomes. */
  function DraftDoc(id: OrderId, number: int, d: Draft, customer: UserId, createdAt: int): OrderDoc
    requires ParsePayment(d.payment).Some?
  {
    OrderDoc(id, number, DefaultStatus, d.totalAmount, d.products, ParsePayment(d.payment).value, customer,
             d.deliveryAddress, d.email, d.phone, d.comment, createdAt)
  }

  /** `createOrder`: the checks of `Prepare`, then `save()` of the new order. */
  method CreateOrder(store: OrderStore, users: UserStore, products: seq<Product>, body: map<string, Json>,
                     userId: UserId, orderId: OrderId, now: int) returns (r: Result<OrderDoc, Error>)
    requires store.Valid() && users.Valid()
    requires forall i :: 0 <= i < |store.docs| ==> store.docs[i].id != orderId
    modifies store`counter, store`docs
    modifies CustomerEntry(users, Some(userId))`orders, CustomerEntry(users, Some(userId))`totalAmount,
      CustomerEntry(users, Some(userId))`orderCount, CustomerEntry(users, Some(userId))`lastOrderDate,
      CustomerEntry(users, Some(userId))`lastOrder
    ensures Checked(body, products).Failure? ==>
      r == Failure(Checked(body, products).error) && store.docs == old(store.docs) &&
      store.counter == old(store.counter)
    ensures Checked(body, products).Success? ==>
      var d := Checked(body, products).value;
      && (DraftFailures(d, store.isEmail) != [] ==>
            r == Failure(BadRequest(Message(Validation("order", DraftFailures(d, store.isEmail))))))
      && (r.Success? <==> DraftFailures(d, store.isEmail) == [])
      && (r.Success? ==> ParsePayment(d.payment).Some? && r.value == DraftDoc(orderId, store.counter, d, userId, now))
    ensures r.Failure? ==> store.docs == old(store.docs) && store.counter == old(store.counter)
    ensures r.Failure? && userId in users.users ==>
      OrderRecord(users.users[userId]) == old(OrderRecord(users.users[userId]))
    ensures r.Success? ==> store.counter == old(store.counter) + 1 && store.docs == old(store.docs) + [r.value]
    ensures r.Success? && userId in users.users ==>
      var u := users.users[userId];
      u.orders == old(u.orders) + [orderId] &&
      OrderStats(u.totalAmount, u.orderCount, u.lastOrderDate, u.lastOrder) == StatsOf(Facts(store.docs), userId)
    ensures store.Valid() && users.Valid()
  {
    var draft := Prepare(body, products);
    if draft.Failure? {
      return Failure(draft.error);
    }
    r := SaveDraft(store, users, draft.value, userId, orderId, now);
  }

  /** `new Order({...})` from the draft and its `save()`, whose validation errors
      become BadRequest with the validation message. */
  method SaveDraft(store: OrderStore, users: UserStore, d: Draft, userId: UserId, orderId: OrderId, now: int)
    returns (r: Result<OrderDoc, Error>)
    requires store.Valid() && users.Valid()
    requires forall i :: 0 <= i < |store.docs| ==> store.docs[i].id != orderId
    modifies store`counter, store`docs
    modifies CustomerEntry(users, Some(userId))`orders, CustomerEntry(users, Some(userId))`totalAmount,
      CustomerEntry(users, Some(userId))`orderCount, CustomerEntry(users, Some(userId))`lastOrderDate,
      CustomerEntry(users, Some(userId))`lastOrder
    ensures DraftFailures(d, store.isEmail) != [] ==>
      r == Failure(BadRequest(Message(Validation("order", DraftFailures(d, store.isEmail)))))
    ensures r.Success? <==> DraftFailures(d, store.isEmail) == []
    ensures r.Failure? ==> store.docs == old(store.docs) && store.counter == old(store.counter)
    ensures r.Failure? && userId in users.users ==>
      OrderRecord(users.users[userId]) == old(OrderRecord(users.users[userId]))
    ensures r.Success? ==>
      && ParsePayment(d.payment).Some?
      && store.counter == old(store.counter) + 1
      && r.value == DraftDoc(orderId, store.counter, d, userId, now)
      && store.docs == old(store.docs) + [r.value]
    ensures r.Success? && userId in users.users ==>
      var u := users.users[userId];
      u.orders == old(u.orders) + [orderId] &&
      OrderStats(u.totalAmount, u.orderCount, u.lastOrderDate, u.lastOrder) == StatsOf(Facts(store.docs), userId)
    ensures store.Valid() && users.Valid()
  {
    var order := new Order(orderId, userId, now, d.totalAmount, d.products, d.payment, d.deliveryAddress,
                           d.email, d.phone, d.comment);
    assert order.Failures(store.isEmail) == DraftFailures(d, store.isEmail);
    StatusNameRoundTrip(DefaultStatus);
    var saved := store.Save(order, users);
    if saved.Failure? {
      return Failure(BadRequest(Message(saved.error)));
    }
    r := saved;
  }

  // ---- getOrdersCurrentUser ----

  /** `populate('orders')`: the stored order of each id, in the order of the ids;
      an id with no stored order is dropped. */
  function Populate(ids: seq<OrderId>, docs: seq<OrderDoc>): (r: seq<OrderDoc>)
    ensures |r| <= |ids|
    ensures forall k :: 0 <= k < |r| ==> r[k] in docs && r[k].id in ids
  {
    if ids == [] then []
    else
      var i := IndexOfId(docs, ids[0]);
      (if i < |docs| then [docs[i]] else []) + Populate(ids[1..], docs)
  }

  /** Every id that has a stored order contributes that order. */
  lemma {:induction false} PopulateKeepsStored(ids: seq<OrderId>, docs: seq<OrderDoc>, k: nat)
    requires k < |ids| && IndexOfId(docs, ids[k]) < |docs|
    ensures docs[IndexOfId(docs, ids[k])] in Populate(ids, docs)
  {
    if k > 0 {
      PopulateKeepsStored(ids[1..], docs, k - 1);
      assert ids[1..][k - 1] == ids[k];
    }
  }

  /** `search && typeof search === 'string' && search.length < 100`. */
  predicate SearchApplies(search: Option<QueryValue>)
  {
    search.Some? && search.value.QStr? && search.value.s != "" && |search.value.s| < 100
  }

  /** The filter of the search: the order number equals the search as a number, or
      one of the order's products is among those whose title matched. */
  predicate MatchesSearch(o: OrderDoc, n: Number, matched: seq<ProductId>)
  {
    (n.Finite? && o.orderNumber == n.n) || exists j :: 0 <= j < |o.products| && o.products[j] in matched
  }

  function FilterSearch(orders: seq<OrderDoc>, n: Number, matched: seq<ProductId>): (r: seq<OrderDoc>)
    ensures |r| <= |orders|
    ensures forall o :: o in r <==> o in orders && MatchesSearch(o, n, matched)
  {
    if orders == [] then []
    else (if MatchesSearch(orders[0], n, matched) then [orders[0]] else []) + FilterSearch(orders[1..], n, matched)
  }

  /** Filtering is done element by element, so it keeps the orders' sequence. */
  lemma {:induction false} FilterSearchConcat(a: seq<OrderDoc>, b: seq<OrderDoc>, n: Number, matched: seq<ProductId>)
    ensures FilterSearch(a + b, n, matched) == FilterSearch(a, n, matched) + FilterSearch(b, n, matched)
  {
    if a == [] {
      assert a + b == b;
    } else {
      assert (a + b)[0] == a[0];
      assert (a + b)[1..] == a[1..] + b;
      FilterSearchConcat(a[1..], b, n, matched);
    }
  }

  /** The orders the search keeps, before pagination. */
  function SearchResults(orders: seq<OrderDoc>, search: Option<QueryValue>, matched: seq<ProductId>): (r: seq<OrderDoc>)
    ensures !SearchApplies(search) ==> r == orders
    ensures SearchApplies(search) ==>
      forall o :: o in r <==> o in orders && MatchesSearch(o, ParseNumber(Escape(search.value.s)), matched)
  {
    if SearchApplies(search) then FilterSearch(orders, ParseNumber(Escape(search.value.s)), matched) else orders
  }

  /** A page number or page size from the query, with its default. */
  function QueryNumber(q: Option<QueryValue>, default: int): Number
  {
    if q.None? then Finite(default) else NumberOfQuery(q.value)
  }

  datatype Pagination = Pagination(totalOrders: nat, totalPages: Number, currentPage: Number, pageSize: Number)

  datatype OrderPage = OrderPage(orders: seq<OrderDoc>, pagination: Pagination)

  /** The page of `orders` the query selects: skip `(page - 1) * limit`, take
      `limit`, with `totalOrders` counted before the slice. */
  function Paginate(orders: seq<OrderDoc>, page: Number, limit: Number): (r: OrderPage)
    ensures r.pagination.totalOrders == |orders| && |r.orders| <= |orders|
    ensures forall k :: 0 <= k < |r.orders| ==> r.orders[k] in orders
    ensures r.pagination.currentPage == page && r.pagination.pageSize == limit
  {
    var skip := Mul(Sub(page, Finite(1)), limit);
    var window := SliceNumbers(orders, skip, Add(skip, limit));
    assert forall k :: 0 <= k < |window| ==> window[k] in orders by {
      var a, b := SliceIndex(SliceArgument(skip, |orders|), |orders|), SliceIndex(SliceArgument(Add(skip, limit), |orders|), |orders|);
      if a < b {
        forall k | 0 <= k < |window| ensures window[k] in orders {
          assert window[k] == orders[a + k];
        }
      }
    }
    OrderPage(window, Pagination(|orders|, CeilDivNumber(|orders|, limit), page, limit))
  }

  lemma MulNonNegative(a: int, b: int)
    requires a >= 0 && b >= 0
    ensures a * b >= 0
  {
  }

  lemma MulDistributes(a: int, b: int, c: int)
    ensures (a - b) * c == a * c - b * c
  {
  }

  /** For a page `p >= 1` and a positive size `l`, the page is the slice of at most
      `l` orders starting at `(p - 1) * l`, and `totalPages` is `ceil(n / l)`. */
  lemma PaginateWindow(orders: seq<OrderDoc>, p: int, l: int)
    requires p >= 1 && l > 0
    ensures var r := Paginate(orders, Finite(p), Finite(l)); var start := (p - 1) * l;
      && start >= 0
      && r.pagination.totalPages.Finite?
      && (r.pagination.totalPages.n - 1) * l < |orders| <= r.pagination.totalPages.n * l
      && (start >= |orders| ==> r.orders == [])
      && (start < |orders| ==> r.orders == orders[start..if start + l < |orders| then start + l else |orders|])
  {
    MulNonNegative(p - 1, l);
  }

  /** The order at position `q * l + m` (with `0 <= m < l`) is the `m`-th of page
      `q + 1`, and that page is within `totalPages`: every order is on a page. */
  lemma PaginateReachesEveryOrder(orders: seq<OrderDoc>, l: int, q: int, m: int)
    requires l > 0 && q >= 0 && 0 <= m < l && q * l + m < |orders|
    ensures var r := Paginate(orders, Finite(q + 1), Finite(l));
      m < |r.orders| && r.orders[m] == orders[q * l + m] &&
      r.pagination.totalPages.Finite? && q + 1 <= r.pagination.totalPages.n
  {
    PaginateWindow(orders, q + 1, l);
    assert (q + 1 - 1) * l == q * l;
    var t := Paginate(orders, Finite(q + 1), Finite(l)).pagination.totalPages.n;
    if t <= q {
      MulNonNegative(q - t, l);
      MulDistributes(q, t, l);
      assert false;
    }
  }

  /** The current user's orders, searched, then paged (5 per page by default). */
  function UserOrdersPage(orders: seq<OrderDoc>, search: Option<QueryValue>, page: Option<QueryValue>,
                          limit: Option<QueryValue>, matched: seq<ProductId>): (r: OrderPage)
    ensures r.pagination.totalOrders == |SearchResults(orders, search, matched)|
    ensures forall k :: 0 <= k < |r.orders| ==> r.orders[k] in orders
    ensures SearchApplies(search) ==> forall k :: 0 <= k < |r.orders| ==>
      MatchesSearch(r.orders[k], ParseNumber(Escape(search.value.s)), matched)
  {
    Paginate(SearchResults(orders, search, matched), QueryNumber(page, 1), QueryNumber(limit, 5))
  }

  /** `getOrdersCurrentUser`: the user's own orders only; `matched` is what the
      product title search returned. */
  function GetOrdersCurrentUser(users: UserStore, docs: seq<OrderDoc>, userId: UserId, search: Option<QueryValue>,
                                page: Option<QueryValue>, limit: Option<QueryValue>, matched: seq<ProductId>)
    : (r: Result<OrderPage, Error>)
    reads users, users.users.Values
    ensures userId !in users.users ==> r == Failure(NotFound(UserNotFoundMessage))
    ensures r.Success? ==> userId in users.users
    ensures r.Success? ==> forall k :: 0 <= k < |r.value.orders| ==>
      r.value.orders[k] in docs && r.value.orders[k].id in users.users[userId].orders
  {
    if userId !in users.users then Failure(NotFound(UserNotFoundMessage))
    else Success(UserOrdersPage(Populate(users.users[userId].orders, docs), search, page, limit, matched))
  }

  // ---- getOrderByNumber, getOrderCurrentUserByNumber ----

  /** The cast of the `orderNumber` route parameter to a number: the empty string
      is `null`, which matches no order; a string `Number` cannot read fails. */
  function CastOrderNumber(param: string): (r: Result<Option<int>, Error>)
    ensures r.Failure? <==> param != "" && !ParseNumber(param).Finite?
    ensures r.Failure? ==> r.error.Cast?
    ensures r.Success? && r.value.Some? ==> ParseNumber(param) == Finite(r.value.value)
  {
    if param == "" then Success(None)
    else if ParseNumber(param).Finite? then Success(Some(ParseNumber(param).n))
    else Failure(Cast("Number", param, "orderNumber", "order"))
  }

  /** `Order.findOne({ orderNumber }).orFail(...)`, with a cast error reported as a
      bad order id. */
  function GetOrderByNumber(docs: seq<OrderDoc>, param: string): (r: Result<OrderDoc, Error>)
    ensures CastOrderNumber(param).Failure? ==> r == Failure(BadRequest(BadOrderIdMessage))
    ensures r.Success? ==> r.value in docs && ParseNumber(param) == Finite(r.value.orderNumber)
    ensures CastOrderNumber(param).Success? && r.Failure? ==>
      r == Failure(NotFound(OrderNotFoundMessage)) &&
      forall i :: 0 <= i < |docs| ==> Finite(docs[i].orderNumber) != ParseNumber(param) || param == ""
  {
    var n := CastOrderNumber(param);
    if n.Failure? then Failure(BadRequest(BadOrderIdMessage))
    else if n.value.None? then Failure(NotFound(OrderNotFoundMessage))
    else
      var found := FindNumberFrom(docs, n.value.value);
      if found.None? then Failure(NotFound(OrderNotFoundMessage)) else Success(found.value)
  }

  /** `getOrderCurrentUserByNumber`: as `GetOrderByNumber`, but an order of another
      customer is not found; when the order's customer is gone, `populate` leaves
      `null` and reading its `_id` throws. */
  function GetOrderCurrentUserByNumber(users: UserStore, docs: seq<OrderDoc>, param: string, userId: UserId)
    : (r: Result<OrderDoc, Error>)
    reads users
    ensures r.Success? ==> r.value.customer == userId && r == GetOrderByNumber(docs, param)
    ensures GetOrderByNumber(docs, param).Failure? ==> r == GetOrderByNumber(docs, param)
    ensures GetOrderByNumber(docs, param).Success? && GetOrderByNumber(docs, param).value.customer in users.users ==>
      (r == GetOrderByNumber(docs, param) <==> GetOrderByNumber(docs, param).value.customer == userId)
    ensures GetOrderByNumber(docs, param).Success? && GetOrderByNumber(docs, param).value.customer in users.users &&
            GetOrderByNumber(docs, param).value.customer != userId ==>
      r == Failure(NotFound(OrderNotFoundMessage))
    ensures GetOrderByNumber(docs, param).Success? && GetOrderByNumber(docs, param).value.customer !in users.users ==>
      r.Failure? && r.error.Type?
  {
    var found := GetOrderByNumber(docs, param);
    if found.Failure? then found
    else if found.value.customer !in users.users then
      Failure(Type("Cannot read properties of null (reading '_id')"))
    else if found.value.customer != userId then Failure(NotFound(OrderNotFoundMessage))
    else found
  }

  /** An order of another (existing) customer gets exactly the answer a number
      with no order gets. */
  lemma OtherCustomersOrderLooksMissing(users: UserStore, docs: seq<OrderDoc>, param: string, missing: string,
                                        userId: UserId)
    requires GetOrderByNumber(docs, param).Success?
    requires GetOrderByNumber(docs, param).value.customer in users.users
    requires GetOrderByNumber(docs, param).value.customer != userId
    requires CastOrderNumber(missing).Success? && GetOrderByNumber(docs, missing).Failure?
    ensures GetOrderCurrentUserByNumber(users, docs, param, userId) ==
            GetOrderCurrentUserByNumber(users, docs, missing, userId)
  {
  }

  // ---- updateOrder ----

  /** `typeof req.body.status === 'string' ? req.body.status : undefined`. */
  function StatusOfBody(body: map<string, Json>): (r: Option<string>)
    ensures r.Some? <==> "status" in body && body["status"].JStr?
  {
    if "status" in body && body["status"].JStr? then Some(body["status"].s) else None
  }

  /** `updateOrder`: only `status` is taken from the body; a cast error is a bad
      order id, a validation error a BadRequest with the validation message. */
  method UpdateOrder(store: OrderStore, body: map<string, Json>, param: string) returns (r: Result<OrderDoc, Error>)
    requires store.Valid()
    modifies store`docs
    ensures CastOrderNumber(param).Failure? ==> r == Failure(BadRequest(BadOrderIdMessage)) && store.docs == old(store.docs)
    ensures CastOrderNumber(param).Success? && StatusOfBody(body).Some? && ParseStatus(StatusOfBody(body).value).None? ==>
      var s := StatusOfBody(body).value;
      r == Failure(BadRequest(Message(Validation("", [FieldFailure("status", EnumMessage(s, "status"))]))))
    ensures CastOrderNumber(param).Success? && (StatusOfBody(body).None? || ParseStatus(StatusOfBody(body).value).Some?) &&
            old(store.FindByNumber(CastOrderNumber(param).value)).None? ==>
      r.Failure? && r.error.NotFound?
    ensures r.Success? <==>
      CastOrderNumber(param).Success? && (StatusOfBody(body).None? || ParseStatus(StatusOfBody(body).value).Some?) &&
      old(store.FindByNumber(CastOrderNumber(param).value)).Some?
    ensures r.Success? ==>
      var before := old(store.FindByNumber(CastOrderNumber(param).value)).value;
      r.value == (if StatusOfBody(body).Some? then before.(status := ParseStatus(StatusOfBody(body).value).value)
                  else before)
    ensures r.Failure? ==> store.docs == old(store.docs)
    ensures |store.docs| == |old(store.docs)|
    ensures forall i :: 0 <= i < |store.docs| ==>
      store.docs[i] == old(store.docs)[i] ||
      (r.Success? && old(store.docs)[i] == old(store.FindByNumber(CastOrderNumber(param).value)).value &&
       store.docs[i] == r.value)
    ensures store.Valid()
  {
    var status := StatusOfBody(body);
    var n := CastOrderNumber(param);
    if n.Failure? {
      return Failure(BadRequest(BadOrderIdMessage));
    }
    var updated := store.UpdateStatus(n.value, status);
    if updated.Failure? && updated.error.Validation? {
      return Failure(BadRequest(Message(updated.error)));
    }
    r := updated;
  }

  // ---- deleteOrder ----

  /** `deleteOrder`: the id must cast to an ObjectId (whose text is lower-case);
      a missing order is NotFound. */
  method DeleteOrder(store: OrderStore, users: UserStore, id: string) returns (r: Result<OrderDoc, Error>)
    requires store.Valid() && users.Valid()
    modifies store`docs
    modifies CustomerEntry(users, OwnerOf(store.docs, AsciiLower(id)))`orders,
      CustomerEntry(users, OwnerOf(store.docs, AsciiLower(id)))`totalAmount,
      CustomerEntry(users, OwnerOf(store.docs, AsciiLower(id)))`orderCount,
      CustomerEntry(users, OwnerOf(store.docs, AsciiLower(id)))`lastOrderDate,
      CustomerEntry(users, OwnerOf(store.docs, AsciiLower(id)))`lastOrder
    ensures !IsObjectId(id) ==> r == Failure(BadRequest(BadOrderIdMessage))
    ensures IsObjectId(id) && (forall i :: 0 <= i < |old(store.docs)| ==> old(store.docs)[i].id != AsciiLower(id)) ==>
      r == Failure(NotFound(OrderNotFoundMessage))
    ensures r.Failure? ==> store.docs == old(store.docs)
    ensures r.Success? ==>
      IsObjectId(id) && r.value.id == AsciiLower(id) &&
      exists i :: 0 <= i < |old(store.docs)| && old(store.docs)[i] == r.value &&
        store.docs == old(store.docs)[..i] + old(store.docs)[i + 1..]
    ensures r.Success? && r.value.customer in users.users ==>
      var u := users.users[r.value.customer];
      u.orders == RemoveAll(old(u.orders), r.value.id) &&
      OrderStats(u.totalAmount, u.orderCount, u.lastOrderDate, u.lastOrder) == StatsOf(Facts(store.docs), u.id)
    ensures store.Valid() && users.Valid()
  {
    if !IsObjectId(id) {
      return Failure(BadRequest(BadOrderIdMessage));
    }
    var deleted := store.FindByIdAndDelete(AsciiLower(id), users);
    if deleted.None? {
      return Failure(NotFound(OrderNotFoundMessage));
    }
    r := Success(deleted.value);
  }

  // ---- getOrders (admin) ----

  /** A range filter: `$gte` and `$lte` bounds, either of which may be absent. */
  datatype Bounds<T> = Bounds(gte: Option<T>, lte: Option<T>)

  /** One alternative of the search's `$or`. */
  datatype SearchCondition = TitleMatches(pattern: string) | NumberIs(n: int)

  /** The `filters` object; date bounds are kept as the query text. */
  datatype AdminFilters = AdminFilters(
    status: Option<string>,
    totalAmount: Option<Bounds<Number>>,
    createdAt: Option<Bounds<string>>,
    or: Option<seq<SearchCondition>>)

  /** `search && typeof search === 'string' && search.length < 100`, on a query. */
  predicate AdminSearchApplies(query: map<string, QueryValue>)
  {
    "search" in query && SearchApplies(Some(query["search"]))
  }

  /** The `$or` of a search: the escaped text as a title pattern, and the order
      number when the escaped text reads as a number. */
  function SearchConditions(search: string): (r: seq<SearchCondition>)
    ensures |r| >= 1 && r[0] == TitleMatches(Escape(search))
    ensures |r| == 2 <==> ParseNumber(Escape(search)).Finite?
    ensures |r| == 2 ==> r[1] == NumberIs(ParseNumber(Escape(search)).n)
  {
    var safe := Escape(search);
    [TitleMatches(safe)] + (if ParseNumber(safe).Finite? then [NumberIs(ParseNumber(safe).n)] else [])
  }

  predicate Truthy(query: map<string, QueryValue>, key: string)
  {
    key in query && QueryTruthy(query[key])
  }

  /** The lower and upper bounds, merged into one range as the object spreads do. */
  function Merge<T>(r: Option<Bounds<T>>, gte: Option<T>, lte: Option<T>): Bounds<T>
  {
    Bounds(if gte.Some? then gte else if r.Some? then r.value.gte else None,
           if lte.Some? then lte else if r.Some? then r.value.lte else None)
  }

  /** The filter building of `getOrders`: each present, truthy query field adds its
      condition, and the two bounds of a range merge into one range. */
  method BuildAdminFilters(query: map<string, QueryValue>) returns (f: AdminFilters)
    ensures f.status.Some? <==> "status" in query && query["status"].QStr? && query["status"].s != ""
    ensures f.status.Some? ==> f.status.value == query["status"].s
    ensures f.totalAmount.Some? <==> Truthy(query, "totalAmountFrom") || Truthy(query, "totalAmountTo")
    ensures f.totalAmount.Some? ==>
      (f.totalAmount.value.gte.Some? <==> Truthy(query, "totalAmountFrom")) &&
      (f.totalAmount.value.lte.Some? <==> Truthy(query, "totalAmountTo")) &&
      (Truthy(query, "totalAmountFrom") ==> f.totalAmount.value.gte.value == NumberOfQuery(query["totalAmountFrom"])) &&
      (Truthy(query, "totalAmountTo") ==> f.totalAmount.value.lte.value == NumberOfQuery(query["totalAmountTo"]))
    ensures f.createdAt.Some? <==> Truthy(query, "orderDateFrom") || Truthy(query, "orderDateTo")
    ensures f.createdAt.Some? ==>
      (f.createdAt.value.gte.Some? <==> Truthy(query, "orderDateFrom")) &&
      (f.createdAt.value.lte.Some? <==> Truthy(query, "orderDateTo")) &&
      (Truthy(query, "orderDateFrom") ==> f.createdAt.value.gte.value == QueryText(query["orderDateFrom"])) &&
      (Truthy(query, "orderDateTo") ==> f.createdAt.value.lte.value == QueryText(query["orderDateTo"]))
    ensures f.or.Some? <==> AdminSearchApplies(query)
    ensures f.or.Some? ==> f.or.value == SearchConditions(query["search"].s)
  {
    f := AdminFilters(None, None, None, None);
    if "status" in query && query["status"].QStr? && query["status"].s != "" {
      f := f.(status := Some(query["status"].s));
    }
    if Truthy(query, "totalAmountFrom") {
      f := f.(totalAmount := Some(Merge(f.totalAmount, Some(NumberOfQuery(query["totalAmountFrom"])), None)));
    }
    if Truthy(query, "totalAmountTo") {
      f := f.(totalAmount := Some(Merge(f.totalAmount, None, Some(NumberOfQuery(query["totalAmountTo"])))));
    }
    if Truthy(query, "orderDateFrom") {
      f := f.(createdAt := Some(Merge(f.createdAt, Some(QueryText(query["orderDateFrom"])), None)));
    }
    if Truthy(query, "orderDateTo") {
      f := f.(createdAt := Some(Merge(f.createdAt, None, Some(QueryText(query["orderDateTo"])))));
    }
    if AdminSearchApplies(query) {
      f := f.(or := Some(SearchConditions(query["search"].s)));
    }
  }

  /** The sort of `getOrders`: `sortField` (default `createdAt`) descending when
      `sortOrder` (default `desc`) is exactly `desc`, ascending otherwise; no sort
      key when either is empty. */
  function AdminSort(query: map<string, QueryValue>): (r: Option<(string, int)>)
    ensures r.Some? <==>
      ("sortField" !in query || QueryTruthy(query["sortField"])) &&
      ("sortOrder" !in query || QueryTruthy(query["sortOrder"]))
    ensures r.Some? ==> (r.value.1 == -1 <==> "sortOrder" !in query || query["sortOrder"] == QStr("desc"))
    ensures r.Some? ==> r.value.1 == -1 || r.value.1 == 1
    ensures r.Some? ==> r.value.0 == (if "sortField" in query then QueryText(query["sortField"]) else "createdAt")
  {
    var field := if "sortField" in query then query["sortField"] else QStr("createdAt");
    var order := if "sortOrder" in query then query["sortOrder"] else QStr("desc");
    if QueryTruthy(field) && QueryTruthy(order) then
      Some((QueryText(field), if order == QStr("desc") then -1 else 1))
    else None
  }

  /** The pagination of `getOrders` (10 per page by default), given the number of
      matching orders. */
  function AdminPagination(query: map<string, QueryValue>, totalOrders: nat): (r: Pagination)
    ensures r.totalOrders == totalOrders
    ensures "limit" !in query ==> r.pageSize == Finite(10) && r.totalPages == CeilDiv(totalOrders, 10)
    ensures "page" !in query ==> r.currentPage == Finite(1)
    ensures "page" in query ==> r.currentPage == NumberOfQuery(query["page"])
    ensures "limit" in query ==> r.pageSize == NumberOfQuery(query["limit"])
    ensures r.totalPages == CeilDivNumber(totalOrders, r.pageSize)
  {
    var page := QueryNumber(if "page" in query then Some(query["page"]) else None, 1);
    var limit := QueryNumber(if "limit" in query then Some(query["limit"]) else None, 10);
    Pagination(totalOrders, CeilDivNumber(totalOrders, limit), page, limit)
  }

  /** The search part of the first `$match` stage, as written: that stage runs on
      the stored orders, before the `$lookup` of the products, where `products`
      holds ids and no title. */
  predicate FirstStageSearchMatch(d: OrderDoc, conditions: seq<SearchCondition>)
  {
    exists k :: 0 <= k < |conditions| &&
      match conditions[k]
      case TitleMatches(_) => false
      case NumberIs(n) => d.orderNumber == n
  }

  /** As written, a search whose text is not a number keeps no order at all, even
      one whose product title matches, since the conditions reach the first stage. */
  lemma AdminTextSearchMatchesNothing(query: map<string, QueryValue>, d: OrderDoc)
    requires AdminSearchApplies(query) && !ParseNumber(Escape(query["search"].s)).Finite?
    ensures !FirstStageSearchMatch(d, SearchConditions(query["search"].s))
  {
    var c := SearchConditions(query["search"].s);
    assert |c| == 1;
  }

  /** The search as intended: the title condition holds for an order one of whose
      products is among those whose title matched (`matched`). */
  predicate IntendedSearchMatch(d: OrderDoc, conditions: seq<SearchCondition>, matched: seq<ProductId>)
  {
    exists k :: 0 <= k < |conditions| &&
      match conditions[k]
      case TitleMatches(_) => exists j :: 0 <= j < |d.products| && d.products[j] in matched
      case NumberIs(n) => d.orderNumber == n
  }

  /** With the conditions applied after the lookup, the admin search agrees with
      the current user's search. */
  lemma IntendedSearchAgreesWithUserSearch(search: string, d: OrderDoc, matched: seq<ProductId>)
    ensures IntendedSearchMatch(d, SearchConditions(search), matched) <==>
      MatchesSearch(d, ParseNumber(Escape(search)), matched)
  {
    var c := SearchConditions(search);
    if MatchesSearch(d, ParseNumber(Escape(search)), matched) {
      if exists j :: 0 <= j < |d.products| && d.products[j] in matched {
        assert c[0].TitleMatches?;
      } else {
        assert c[1] == NumberIs(d.orderNumber);
      }
    }
  }
}
