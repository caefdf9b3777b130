/** The order model: the status enum, the schema's validators, the pre-save hook
    that numbers new orders from a shared counter, and the post-save and
    post-delete hooks that keep the customer's `orders` list and statistics in
    step with the orders collection. */
module OrderModel {
  import opened Wrappers
  import opened Errors
  import opened Js
  import opened Validations
  import opened UserModel

  type ProductId = string

  datatype Status = Cancelled | Completed | New | Delivering

  function StatusName(s: Status): string
  {
    match s
    case Cancelled => "cancelled"
    case Completed => "completed"
    case New => "new"
    case Delivering => "delivering"
  }

  /** The `enum` validator of `status`. */
  function ParseStatus(s: string): (r: Option<Status>)
    ensures r.Some? ==> StatusName(r.value) == s
    ensures r.None? ==> forall st :: StatusName(st) != s
  {
    if s == "cancelled" then Some(Cancelled)
    else if s == "completed" then Some(Completed)
    else if s == "new" then Some(New)
    else if s == "delivering" then Some(Delivering)
    else None
  }

  lemma StatusNameRoundTrip(s: Status)
    ensures ParseStatus(StatusName(s)) == Some(s)
  {
  }

  const DefaultStatus: Status := New
  const AddressMaxLength: nat := 200
  const CommentMaxLength: nat := 1000

  const OrderPhoneRequiredMessage: string := "Поле \"phone\" должно быть заполнено"
  const OrderPhoneInvalidMessage: string := "Поле \"phone\" должно быть валидным телефоном."

  /** Mongoose's built-in validator messages. */
  function RequiredMessage(path: string): string
  {
    "Path `" + path + "` is required."
  }

  function EnumMessage(value: string, path: string): string
  {
    "`" + value + "` is not a valid enum value for path `" + path + "`."
  }

  /** `max` is the bound as its decimal text. */
  function MaxLengthMessage(path: string, value: string, max: string): string
  {
    "Path `" + path + "` (`" + value + "`) is longer than the maximum allowed length (" + max + ")."
  }

  function StatusFailure(status: string): (r: Option<FieldFailure>)
    ensures r.None? <==> ParseStatus(status).Some?
  {
    if ParseStatus(status).None? then Some(FieldFailure("status", EnumMessage(status, "status"))) else None
  }

  /** `required` is checked before `enum`; the empty string is missing. */
  function PaymentFailure(payment: string): (r: Option<FieldFailure>)
    ensures r.None? <==> ParsePayment(payment).Some?
  {
    if payment == "" then Some(FieldFailure("payment", RequiredMessage("payment")))
    else if ParsePayment(payment).None? then Some(FieldFailure("payment", EnumMessage(payment, "payment")))
    else None
  }

  function MaxLengthFailure(path: string, value: string, max: nat, maxText: string): (r: Option<FieldFailure>)
    ensures r.None? <==> |value| <= max
  {
    if |value| > max then Some(FieldFailure(path, MaxLengthMessage(path, value, maxText))) else None
  }

  function OrderPhoneFailure(phone: string): (r: Option<FieldFailure>)
    ensures r.None? <==> phone != "" && PhoneRegExpTest(phone)
  {
    if phone == "" then Some(FieldFailure("phone", OrderPhoneRequiredMessage))
    else if !PhoneRegExpTest(phone) then Some(FieldFailure("phone", OrderPhoneInvalidMessage))
    else None
  }

  /** The failures of `save()` on a new order, one per failing path, in schema
      order. */
  function OrderFailures(status: string, payment: string, deliveryAddress: string, email: string, phone: string,
                         comment: string, isEmail: string -> bool): (r: seq<FieldFailure>)
    ensures r == [] <==>
      ParseStatus(status).Some? && ParsePayment(payment).Some? && |deliveryAddress| <= AddressMaxLength &&
      email != "" && isEmail(email) && phone != "" && PhoneRegExpTest(phone) && |comment| <= CommentMaxLength
  {
    OptionList(StatusFailure(status)) + OptionList(PaymentFailure(payment)) +
    OptionList(MaxLengthFailure("deliveryAddress", deliveryAddress, AddressMaxLength, "200")) +
    OptionList(EmailFailure(email, isEmail)) + OptionList(OrderPhoneFailure(phone)) +
    OptionList(MaxLengthFailure("comment", comment, CommentMaxLength, "1000"))
  }

  /** A stored order. */
  datatype OrderDoc = OrderDoc(
    id: OrderId,
    orderNumber: int,
    status: Status,
    totalAmount: int,
    products: seq<ProductId>,
    payment: PaymentType,
    customer: UserId,
    deliveryAddress: string,
    email: string,
    phone: string,
    comment: string,
    createdAt: int)

  function Fact(d: OrderDoc): OrderFact
  {
    OrderFact(d.id, d.customer, d.totalAmount, d.createdAt)
  }

  /** What the statistics aggregation reads of the orders collection. */
  function Facts(docs: seq<OrderDoc>): (r: seq<OrderFact>)
    ensures |r| == |docs|
    ensures forall i :: 0 <= i < |docs| ==> r[i] == Fact(docs[i])
  {
    seq(|docs|, i requires 0 <= i < |docs| => Fact(docs[i]))
  }

  /** An order document in memory, before and during `save()`. */
  class Order {
    const id: OrderId
    const customer: UserId
    const createdAt: int
    var isNew: bool
    var orderNumber: Option<int>
    var status: string
    var totalAmount: int
    var products: seq<ProductId>
    var payment: string
    var deliveryAddress: string
    var email: string
    var phone: string
    var comment: string

    /** `new Order({...})`: not yet numbered, with the default status. */
    constructor (id: OrderId, customer: UserId, createdAt: int, totalAmount: int, products: seq<ProductId>,
                 payment: string, deliveryAddress: string, email: string, phone: string, comment: string)
      ensures this.id == id && this.customer == customer && this.createdAt == createdAt
      ensures isNew && orderNumber.None? && status == StatusName(DefaultStatus)
      ensures this.totalAmount == totalAmount && this.products == products && this.payment == payment
      ensures this.deliveryAddress == deliveryAddress && this.email == email && this.phone == phone
      ensures this.comment == comment
    {
      this.id := id;
      this.customer := customer;
      this.createdAt := createdAt;
      isNew := true;
      orderNumber := None;
      status := StatusName(DefaultStatus);
      this.totalAmount := totalAmount;
      this.products := products;
      this.payment := payment;
      this.deliveryAddress := deliveryAddress;
      this.email := email;
      this.phone := phone;
      this.comment := comment;
    }

    function Failures(isEmail: string -> bool): seq<FieldFailure>
      reads this
    {
      OrderFailures(status, payment, deliveryAddress, email, phone, comment, isEmail)
    }
  }

  /** The orders collection, with the counter document's `sequenceValue` (0 while
      the counter document does not exist, since the upsert then creates it). */
  class OrderStore {
    var counter: int
    var docs: seq<OrderDoc>
    /** `validator.isEmail`. */
    const isEmail: string -> bool

    /** Every stored number was drawn from the counter, numbers increase along the
        collection, and ids are distinct. */
    ghost predicate Valid()
      reads this
    {
      && counter >= 0
      && (forall i :: 0 <= i < |docs| ==> 1 <= docs[i].orderNumber <= counter)
      && (forall i, j :: 0 <= i < j < |docs| ==> docs[i].orderNumber < docs[j].orderNumber)
      && (forall i, j :: 0 <= i < j < |docs| ==> docs[i].id != docs[j].id)
    }

    constructor (isEmail: string -> bool)
      ensures Valid() && counter == 0 && docs == [] && this.isEmail == isEmail
    {
      counter := 0;
      docs := [];
      this.isEmail := isEmail;
    }

    /** The pre-save hook `incrementOrderNumber`: a new order takes the counter after
        the increment; saving an existing order changes neither. */
    method IncrementOrderNumber(o: Order)
      modifies this`counter, o`orderNumber
      ensures old(o.isNew) ==> counter == old(counter) + 1 && o.orderNumber == Some(counter)
      ensures !old(o.isNew) ==> counter == old(counter) && o.orderNumber == old(o.orderNumber)
    {
      if o.isNew {
        counter := counter + 1;
        o.orderNumber := Some(counter);
      }
    }

    /** `Order.findOne({ orderNumber })`: the order with that number; `null` (the
        cast of an empty string) matches none. */
    function FindByNumber(n: Option<int>): (r: Option<OrderDoc>)
      reads this
      ensures r.Some? <==> n.Some? && exists i :: 0 <= i < |docs| && docs[i].orderNumber == n.value
      ensures r.Some? ==> r.value in docs && r.value.orderNumber == n.value
    {
      if n.None? then None else FindNumberFrom(docs, n.value)
    }

    /** `save()` of a new order: validation, then the pre-save hook, then the insert,
        then the post-save hook on the customer, if the customer exists. */
    method Save(o: Order, users: UserStore) returns (r: Result<OrderDoc, Error>)
      requires Valid() && users.Valid() && o.isNew
      requires forall i :: 0 <= i < |docs| ==> docs[i].id != o.id
      modifies this`counter, this`docs, o`orderNumber, o`isNew
      modifies CustomerEntry(users, Some(o.customer))`orders, CustomerEntry(users, Some(o.customer))`totalAmount, CustomerEntry(users, Some(o.customer))`orderCount, CustomerEntry(users, Some(o.customer))`lastOrderDate, CustomerEntry(users, Some(o.customer))`lastOrder
      ensures old(o.Failures(isEmail)) != [] ==>
        r == Failure(Validation("order", old(o.Failures(isEmail)))) && counter == old(counter) && docs == old(docs)
      ensures r.Success? <==> old(o.Failures(isEmail)) == []
      ensures r.Success? ==>
        && counter == old(counter) + 1 && o.orderNumber == Some(counter) && !o.isNew
        && docs == old(docs) + [r.value]
        && (forall i :: 0 <= i < |old(docs)| ==> old(docs)[i].orderNumber < r.value.orderNumber)
        && r.value == OrderDoc(o.id, counter, ParseStatus(old(o.status)).value, old(o.totalAmount), old(o.products),
                               ParsePayment(old(o.payment)).value, o.customer, old(o.deliveryAddress),
                               old(o.email), old(o.phone), old(o.comment), o.createdAt)
      ensures r.Success? && o.customer in users.users ==>
        var u := users.users[o.customer];
        u.orders == old(u.orders) + [o.id] &&
        OrderStats(u.totalAmount, u.orderCount, u.lastOrderDate, u.lastOrder) == StatsOf(Facts(docs), o.customer)
      ensures r.Failure? && o.customer in users.users ==>
        OrderRecord(users.users[o.customer]) == old(OrderRecord(users.users[o.customer]))
      ensures Valid() && users.Valid()
    {
      var failures := o.Failures(isEmail);
      if failures != [] {
        return Failure(Validation("order", failures));
      }
      var doc := InsertNew(o);
      UpdateUserStats(users, o.customer, o.id);
      r := Success(doc);
    }

    /** The pre-save hook on a validated new order, then the insert. */
    method InsertNew(o: Order) returns (doc: OrderDoc)
      requires Valid() && o.isNew && ParseStatus(o.status).Some? && ParsePayment(o.payment).Some?
      requires forall i :: 0 <= i < |docs| ==> docs[i].id != o.id
      modifies this`counter, this`docs, o`orderNumber, o`isNew
      ensures counter == old(counter) + 1 && o.orderNumber == Some(counter) && !o.isNew
      ensures docs == old(docs) + [doc]
      ensures doc == OrderDoc(o.id, counter, ParseStatus(o.status).value, o.totalAmount, o.products,
                              ParsePayment(o.payment).value, o.customer, o.deliveryAddress,
                              o.email, o.phone, o.comment, o.createdAt)
      ensures Valid()
    {
      var status, payment := ParseStatus(o.status).value, ParsePayment(o.payment).value;
      IncrementOrderNumber(o);
      o.isNew := false;
      doc := OrderDoc(o.id, counter, status, o.totalAmount, o.products, payment, o.customer, o.deliveryAddress,
                      o.email, o.phone, o.comment, o.createdAt);
      assert forall i :: 0 <= i < |docs| ==> docs[i].orderNumber < doc.orderNumber;
      docs := docs + [doc];
    }

    /** The post-save hook `updateUserStats`: the customer, when found, gets the
        order id pushed onto `orders` and its statistics recomputed. */
    method UpdateUserStats(users: UserStore, customer: UserId, order: OrderId)
      requires users.Valid()
      modifies CustomerEntry(users, Some(customer))`orders, CustomerEntry(users, Some(customer))`totalAmount, CustomerEntry(users, Some(customer))`orderCount, CustomerEntry(users, Some(customer))`lastOrderDate, CustomerEntry(users, Some(customer))`lastOrder
      ensures customer in users.users ==>
        var u := users.users[customer];
        u.orders == old(u.orders) + [order] &&
        OrderStats(u.totalAmount, u.orderCount, u.lastOrderDate, u.lastOrder) == StatsOf(Facts(docs), customer)
      ensures users.Valid()
    {
      var found := users.FindById(customer);
      if found.Some? {
        users.RecordOrder(found.value, order, Facts(docs));
      }
    }

    /** `findByIdAndDelete(id)` with the post-delete hook: the order is removed, and
        its customer, if any, loses every copy of its id from `orders` and has the
        statistics recomputed; when no order has the id, nothing changes. */
    method FindByIdAndDelete(id: OrderId, users: UserStore) returns (r: Option<OrderDoc>)
      requires Valid() && users.Valid()
      modifies this`docs
      modifies CustomerEntry(users, OwnerOf(docs, id))`orders, CustomerEntry(users, OwnerOf(docs, id))`totalAmount, CustomerEntry(users, OwnerOf(docs, id))`orderCount, CustomerEntry(users, OwnerOf(docs, id))`lastOrderDate, CustomerEntry(users, OwnerOf(docs, id))`lastOrder
      ensures r.None? <==> forall i :: 0 <= i < |old(docs)| ==> old(docs)[i].id != id
      ensures r.None? ==> docs == old(docs)
      ensures r.Some? ==>
        r.value.id == id &&
        (exists i :: 0 <= i < |old(docs)| && old(docs)[i] == r.value && docs == old(docs)[..i] + old(docs)[i + 1..])
      ensures r.Some? && r.value.customer in users.users ==>
        var u := users.users[r.value.customer];
        u.orders == RemoveAll(old(u.orders), id) &&
        OrderStats(u.totalAmount, u.orderCount, u.lastOrderDate, u.lastOrder) == StatsOf(Facts(docs), u.id)
      ensures Valid() && users.Valid()
    {
      var i := IndexOfId(docs, id);
      if i == |docs| {
        return None;
      }
      var doc := docs[i];
      RemoveOne(i);
      UpdateUserStatsAfterDelete(users, doc.customer, id);
      r := Some(doc);
    }

    /** The delete itself. */
    method RemoveOne(i: nat)
      requires Valid() && i < |docs|
      modifies this`docs
      ensures docs == old(docs)[..i] + old(docs)[i + 1..]
      ensures Valid()
    {
      var rest := docs[..i] + docs[i + 1..];
      assert forall a :: 0 <= a < |rest| ==> rest[a] == (if a < i then docs[a] else docs[a + 1]);
      docs := rest;
    }

    /** The post-delete hook `updateUserStats`: `$pull` of the order id from the
        customer, when found, then the statistics recomputed. */
    method UpdateUserStatsAfterDelete(users: UserStore, customer: UserId, order: OrderId)
      requires users.Valid()
      modifies CustomerEntry(users, Some(customer))`orders, CustomerEntry(users, Some(customer))`totalAmount, CustomerEntry(users, Some(customer))`orderCount, CustomerEntry(users, Some(customer))`lastOrderDate, CustomerEntry(users, Some(customer))`lastOrder
      ensures customer in users.users ==>
        var u := users.users[customer];
        u.orders == RemoveAll(old(u.orders), order) &&
        OrderStats(u.totalAmount, u.orderCount, u.lastOrderDate, u.lastOrder) == StatsOf(Facts(docs), customer)
      ensures users.Valid()
    {
      var found := users.FindById(customer);
      if found.Some? {
        users.PullOrder(found.value, order, Facts(docs));
      }
    }

    /** `findOneAndUpdate({ orderNumber }, { status }, { new: true, runValidators: true })`:
        an undefined status is dropped from the update, a status outside the enum
        fails the update validator before the query runs; the updated order is
        returned. */
    method UpdateStatus(n: Option<int>, status: Option<string>) returns (r: Result<OrderDoc, Error>)
      requires Valid()
      modifies this`docs
      ensures status.Some? && ParseStatus(status.value).None? ==>
        r == Failure(Validation("", [FieldFailure("status", EnumMessage(status.value, "status"))]))
      ensures (status.None? || ParseStatus(status.value).Some?) && old(FindByNumber(n)).None? ==>
        r.Failure? && r.error.NotFound?
      ensures r.Success? <==> (status.None? || ParseStatus(status.value).Some?) && old(FindByNumber(n)).Some?
      ensures r.Success? ==>
        var before := old(FindByNumber(n)).value;
        r.value == (if status.Some? then before.(status := ParseStatus(status.value).value) else before)
      ensures |docs| == |old(docs)|
      ensures forall i :: 0 <= i < |docs| ==>
        docs[i] == old(docs)[i] || (r.Success? && old(docs)[i] == old(FindByNumber(n)).value && docs[i] == r.value)
      ensures Valid()
    {
      if status.Some? && ParseStatus(status.value).None? {
        return Failure(Validation("", [FieldFailure("status", EnumMessage(status.value, "status"))]));
      }
      var found := FindByNumber(n);
      if found.None? {
        return Failure(NotFound("Заказ не найден"));
      }
      var i := IndexOfNumber(docs, n.value);
      var updated := if status.Some? then docs[i].(status := ParseStatus(status.value).value) else docs[i];
      docs := docs[i := updated];
      r := Success(updated);
    }
  }

  /** What the statistics hooks maintain on a user document. */
  function OrderRecord(u: User): (seq<OrderId>, OrderStats)
    reads u
  {
    (u.orders, OrderStats(u.totalAmount, u.orderCount, u.lastOrderDate, u.lastOrder))
  }

  /** The customer's stored document, if any, as a frame: what a statistics hook
      may change. */
  function CustomerEntry(users: UserStore, customer: Option<UserId>): set<User>
    reads users
  {
    if customer.Some? && customer.value in users.users then {users.users[customer.value]} else {}
  }

  /** The customer of the first order with id `id`. */
  function OwnerOf(docs: seq<OrderDoc>, id: OrderId): Option<UserId>
  {
    var i := IndexOfId(docs, id);
    if i < |docs| then Some(docs[i].customer) else None
  }

  function FindNumberFrom(docs: seq<OrderDoc>, n: int): (r: Option<OrderDoc>)
    ensures r.Some? <==> exists i :: 0 <= i < |docs| && docs[i].orderNumber == n
    ensures r.Some? ==> r.value in docs && r.value.orderNumber == n
    ensures r.Some? ==> r.value == docs[IndexOfNumber(docs, n)]
  {
    var i := IndexOfNumber(docs, n);
    if i < |docs| then Some(docs[i]) else None
  }

  /** The position of the first order with number `n`, or `|docs|`. */
  function IndexOfNumber(docs: seq<OrderDoc>, n: int): (i: nat)
    ensures i <= |docs|
    ensures i < |docs| ==> docs[i].orderNumber == n
    ensures forall j :: 0 <= j < i ==> docs[j].orderNumber != n
  {
    if docs == [] then 0
    else if docs[0].orderNumber == n then 0
    else 1 + IndexOfNumber(docs[1..], n)
  }

  /** The position of the first order with id `id`, or `|docs|`. */
  function IndexOfId(docs: seq<OrderDoc>, id: OrderId): (i: nat)
    ensures i <= |docs|
    ensures i < |docs| ==> docs[i].id == id
    ensures forall j :: 0 <= j < i ==> docs[j].id != id
  {
    if docs == [] then 0
    else if docs[0].id == id then 0
    else 1 + IndexOfId(docs[1..], id)
  }

  /** Numbers that increase along the collection, as `Valid` keeps them, are
      pairwise distinct, so the unique index on `orderNumber` never refuses an
      insert. */
  lemma NumbersAreDistinct(docs: seq<OrderDoc>, i: int, j: int)
    requires forall a, b :: 0 <= a < b < |docs| ==> docs[a].orderNumber < docs[b].orderNumber
    requires 0 <= i < |docs| && 0 <= j < |docs| && i != j
    ensures docs[i].orderNumber != docs[j].orderNumber
  {
  }
}
