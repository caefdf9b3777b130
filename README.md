# bad-server backend core, modelled in Dafny

This project models the core of the bad-server backend, an Express + Mongoose shop API.

- **Sessions.** Each user document keeps a `tokens` list of HMAC-SHA256 fingerprints of the refresh tokens it has issued. Login, registration and refresh append one fingerprint. Logout and refresh filter out every copy of the fingerprint of the refresh-token cookie the client presents.
- **Users.** Around the sessions sit the user schema and the user's statistics:
  - the validators, the defaults and the pre-save password hashing;
  - the `toJSON` projection, and the public view every response carries;
  - the credential check;
  - the order statistics, recomputed after each order save and delete.
- **Orders.** The order rules:
  - the basket check and field clean-up of `createOrder`;
  - the order-number counter of the pre-save hook;
  - the statistics hooks after save and delete;
  - the search and pagination of a user's order list, and the ownership check;
  - the status-only update, and the cast checks of the admin routes;
  - the filter, sort and pagination values the admin list builds.
- **Small decision functions.**
  - the Joi request validators and the phone pattern;
  - the static-file gate (NUL stripping, `decodeURIComponent`, the `..` test, `path.resolve`, the prefix test);
  - the error handler's choice of status and message;
  - the upload endpoint's size rule and public file name.

Modules follow the source files:

| module | file | models |
|---|---|---|
| `Wrappers` | wrappers.dfy | Option and Result |
| `Crypto` | crypto.dfy | jwt sign/verify, HMAC and bcrypt as free constructions |
| `Errors` | errors.dfy | the error objects the handlers pass on, with their `message` text |
| `Js` | js.dfy | the JavaScript built-ins the core relies on |
| `UserModel` | user_model.dfy | models/user.ts: the `User` document class and the users collection with its unique email index |
| `Auth` | auth.dfy | controllers/auth.ts |
| `OrderModel` | order_model.dfy | models/order.ts: the unsaved `Order` document, the orders collection with its counter, the hooks |
| `OrderController` | order_controller.dfy | controllers/order.ts |
| `Validations` | validations.dfy | middlewares/validations.ts |
| `ServerStatic` | server_static.dfy | middlewares/serverStatic.ts |
| `ErrorHandler` | error_handler.dfy | middlewares/error-handler.ts |
| `Upload` | upload.dfy | controllers/upload.ts |

The `Js` built-ins are the global `escape`, `Number` on strings, `slice`, `Math.ceil`, `includes`, `startsWith`, `filter`/`replace` removal and the `\D` strip.

How the code's form is kept:

- **Classes for documents that change in place.** Documents that the source mutates and saves are classes:
  - `UserModel.User`, whose `tokens` is a `seq` that the methods reassign;
  - `UserModel.UserStore`, a map from id to `User` plus the email index;
  - `OrderModel.Order` and `OrderModel.OrderStore`.

  Their methods carry `modifies` clauses that name single fields (`u`tokens`).
- **Imperative code.** It becomes methods proved against functions:
  - the `forEach` that fills the basket (`OrderController.CollectBasket` against `Basket`/`FirstItemError`);
  - the filter building of `getOrders` (`OrderController.BuildAdminFilters`);
  - the `toJSON` key deletion (`UserModel.ToJsonTransform`).
- **Pure code.** Everything the source computes as expressions stays functions with named results, and lemmas relate them.

Inputs from outside the program are parameters:

- the clock (`now`, in seconds);
- the bcrypt salt;
- freshly generated ObjectIds;
- `validator.isEmail` (`isEmail`);
- `fs.access` (`fileExists`);
- the process working directory (`cwd`);
- `UPLOAD_PATH_TEMP`;
- the product ids whose title matched a search regex (`matched`).

Two behaviours of the code that a reader might not expect:

- **Refresh tokens are not single use.** A verified refresh token whose fingerprint is no longer in the list still logs out and refreshes successfully. `Auth.LogoutTwice` proves this.
- **`jwt.verify` errors pass through unchanged.** They are not turned into Unauthorized errors. The error handler then answers them with 500.

## Model

| member | source | states |
|---|---|---|
| Crypto.Sign | backend/src/models/user.ts:136-146 | the signed token carries the `_id`/`email` claims, the subject and `exp = now + expiresIn`, and verifies exactly under its own key before `exp` |
| Crypto.Verify | backend/src/controllers/auth.ts:116 | verification succeeds exactly for a token signed with that key whose `exp` is still ahead, and then yields its claims |
| Crypto.BcryptHash | backend/src/models/user.ts:125-126 | `bcrypt.compare` accepts a candidate against the hash exactly when the hashed value was that plaintext |
| Crypto.BcryptCompare | backend/src/models/user.ts:218 | a comparison can only succeed against a hash, never against a stored plaintext |
| Errors.StatusCode | backend/src/middlewares/error-handler.ts:4 | only the application's own error classes carry a `statusCode` |
| Errors.DuplicateKeyMentionsCode | backend/src/controllers/auth.ts:72 | a MongoDB duplicate-key error's message contains "E11000" |
| ErrorHandler.ResponseStatus | backend/src/middlewares/error-handler.ts:4 | the status is the error's `statusCode` when it is present and non-zero, 500 otherwise |
| ErrorHandler.Respond | backend/src/middlewares/error-handler.ts:4-15 | the reply carries the computed status; a 500 always carries the generic message, any other status the error's own message |
| ErrorHandler.OwnErrorsKeepMessage | backend/src/middlewares/error-handler.ts:4-6 | BadRequest, Unauthorized, NotFound and Conflict reach the client with their status and their own message |
| ErrorHandler.ForeignErrorsAreHidden | backend/src/middlewares/error-handler.ts:4-6 | every error without a status code (Mongoose, MongoDB, jwt, URIError, TypeError) becomes a 500 with the generic message |
| Upload.PublicFileName | backend/src/controllers/upload.ts:21-23 | the name is "/" + temp + "/" + filename when `UPLOAD_PATH_TEMP` is set and non-empty, "/" + filename otherwise; it always ends in "/" + filename |
| Upload.UploadFile | backend/src/controllers/upload.ts:11-25 | a missing file and a file under 2048 bytes are BadRequest with their messages; the upload succeeds exactly when a file of at least 2048 bytes is present, with status 201 and its public name |
| Js.DigitChar | backend/src/controllers/order.ts:88 | the printed digit is a decimal digit character of that value |
| Js.NatDigits | backend/src/controllers/order.ts:88 | a natural number prints as a non-empty string of decimal digits |
| Js.NatDigitsValue | backend/src/controllers/order.ts:88 | reading back the digits of `n` gives `n` |
| Js.ParseDecimal | backend/src/controllers/order.ts:88 | `Number(String(n)) === n` for every integer |
| Js.ParseNumberNaN | backend/src/controllers/order.ts:88-91 | in this model's reading of `Number`, a search text with a character that is neither a digit nor a leading sign reads as NaN, so it adds no order-number condition |
| Js.SliceIndex | backend/src/controllers/order.ts:184 | a relative `slice` argument denotes an index within the sequence |
| Js.Slice | backend/src/controllers/order.ts:184 | for `0 <= start <= end` the slice is the sub-sequence between the clamped bounds, for `end <= start` it is empty, and it is never longer than the input |
| Js.SliceArgument | backend/src/controllers/order.ts:184 | a NaN argument is 0; `+Infinity` denotes the end of the sequence and `-Infinity` its start |
| Js.SliceNumbers | backend/src/controllers/order.ts:184 | a slice with number arguments is never longer than the input; NaN counts as 0, `+Infinity` as the length and `-Infinity` as the start, so an infinite or NaN end gives the expected empty or whole slice |
| Js.Truncate | backend/src/controllers/order.ts:296-301 | `slice(0, n)` yields the longest prefix of at most `n` elements, the whole input when it is short enough |
| Js.CeilDiv | backend/src/controllers/order.ts:183 | for a positive divisor the result is the least integer `k` with `n <= k * d`; a zero divisor gives an infinity or NaN as in JavaScript |
| Js.CeilDivNumber | backend/src/controllers/order.ts:123 | a NaN page size gives NaN pages |
| Js.Sub | backend/src/controllers/order.ts:148 | a difference is finite exactly when both operands are |
| Js.Add | backend/src/controllers/order.ts:184 | a sum is finite exactly when both operands are |
| Js.Mul | backend/src/controllers/order.ts:148 | a product is finite exactly when both operands are |
| Js.Escape | backend/src/controllers/order.ts:296-301 | `escape` never shortens its input |
| Js.EscapeConcat | backend/src/controllers/order.ts:296-301 | `escape` works character by character: it distributes over concatenation |
| Js.EscapeSafeIdentity | backend/src/controllers/order.ts:296 | a string of `escape`-safe characters is left as it is |
| Js.EscapeCharOutput | backend/src/controllers/order.ts:296-301 | the escape sequence of any character, surrogate pairs included, holds only safe characters and '%' |
| Js.EscapeOutput | backend/src/controllers/order.ts:296-301 | every character of an escaped field is an `escape`-safe character or '%' |
| Js.Includes | backend/src/middlewares/serverStatic.ts:12 | `s.includes(sub)` holds exactly when `sub` occurs in `s` at some index |
| Js.IncludesStep | backend/src/middlewares/serverStatic.ts:12 | past a non-match at index 0, the occurrences of `sub` in `s` are those in `s[1..]` |
| Js.RemoveAll | backend/src/controllers/auth.ts:127 | the filter removes every copy of the fingerprint and keeps every other element with its multiplicity; a list without it is unchanged |
| Js.RemoveAllConcat | backend/src/controllers/auth.ts:127 | the filter works element by element, so the survivors keep their order |
| Js.RemoveAllLength | backend/src/controllers/auth.ts:127 | the filter drops exactly as many elements as there were copies of the fingerprint |
| Js.DigitsOnly | backend/src/controllers/order.ts:269 | `replace(/\D/g, '')` yields only digits and never lengthens the text |
| Js.DigitsOnlyKeepsDigits | backend/src/controllers/order.ts:269 | every digit survives as often as it occurs; no other character does |
| Js.DigitsOnlyConcat | backend/src/controllers/order.ts:269 | the strip works piecewise, so the digits keep their order |
| Js.DigitsOnlyIdentity | backend/src/controllers/order.ts:269 | a phone that is all digits is stored as given |
| Js.AsciiLower | backend/src/controllers/order.ts:351-352 | lower-casing keeps the length and maps each character on its own |
| UserModel.ParseRole | backend/src/models/user.ts:78-82 | the `roles` enum accepts exactly the names "customer" and "admin" |
| UserModel.RoleNameRoundTrip | backend/src/models/user.ts:17-20 | every role's stored name parses back to that role |
| UserModel.NameFailure | backend/src/models/user.ts:52-57 | `name` is valid exactly when it has 2 to 30 characters |
| UserModel.EmailFailure | backend/src/models/user.ts:58-66 | `email` is valid exactly when it is non-empty and an email address |
| UserModel.PasswordFailure | backend/src/models/user.ts:67-72 | a new plaintext password is valid exactly when it has at least 6 characters; a stored hash is not checked again |
| UserModel.PhoneFailure | backend/src/models/user.ts:83-86 | a phone, when present, has at most 30 characters |
| UserModel.OptionList | backend/src/models/user.ts:50-104 | a failing validator contributes exactly its failure to the list |
| UserModel.UserFailures | backend/src/models/user.ts:50-104 | a user document has no validation failure exactly when name, email, password and phone all pass their validators |
| UserModel.OrdersOf | backend/src/models/user.ts:181 | `$match: { customer }` keeps only the customer's orders, and every one of them |
| UserModel.OrdersOfMultiplicity | backend/src/models/user.ts:181 | each of the customer's orders is kept as often as the collection holds it, and no other order is kept |
| UserModel.OrdersOfConcat | backend/src/models/user.ts:181 | the match keeps collection order: the orders of a concatenation are those of each part, in turn |
| UserModel.OrdersOfSnoc | backend/src/models/user.ts:181 | a newly appended order is matched last when it is the customer's, and ignored otherwise |
| UserModel.MaxDate | backend/src/models/user.ts:186 | `$max` of the creation dates is one of them and no date is later |
| UserModel.Group | backend/src/models/user.ts:183-189 | the group of a customer's orders has their count and amount sum, the latest date, and the id of the last one |
| UserModel.StatsOf | backend/src/models/user.ts:180-204 | the statistics are the sum and count of the customer's orders, the latest date and the last id, or 0, 0, null, null when there is none |
| UserModel.LastOrderDateIsLatest | backend/src/models/user.ts:186 | the last order date is the date of one of the user's orders and none of them is later |
| UserModel.StatsIgnoreOtherCustomers | backend/src/models/user.ts:181 | an order of another customer does not change a user's statistics |
| UserModel.StatsOfNewOrder | backend/src/models/user.ts:183-189 | a new order of the user adds its amount and one to the count, and becomes the last order |
| UserModel.ToJsonTransform | backend/src/models/user.ts:110-116 | the JSON form keeps every key but `tokens`, `password`, `_id` and `roles`, with its value |
| UserModel.ProfileFailures | backend/src/models/user.ts:52-66 | the update validators pass exactly when a given name has 2 to 30 characters and a given email is a non-empty email address |
| UserModel.User.constructor | backend/src/models/user.ts:50-104 | a new user has the default name "Евлампий" when none is given, roles `[customer]`, no fingerprints, zero statistics and a plaintext password marked modified |
| UserModel.User.HashPasswordIfModified | backend/src/models/user.ts:122-132 | the password is replaced by its bcrypt hash only when it was modified, and left as it is otherwise |
| UserModel.User.GenerateAccessToken | backend/src/models/user.ts:135-147 | the access token carries `_id`, `email` and the id as subject, and verifies exactly under the access secret before its expiry |
| UserModel.User.RefreshToken | backend/src/models/user.ts:153-163 | the refresh token carries the same claims and verifies exactly under the refresh secret before its expiry |
| UserModel.User.GenerateRefreshToken | backend/src/models/user.ts:150-174 | exactly one fingerprint, HMAC(refresh secret, new token), is appended at the end of `tokens`; earlier entries are unchanged |
| UserModel.User.CalculateOrderStats | backend/src/models/user.ts:177-207 | the four statistics fields become `StatsOf` the orders collection for this user |
| UserModel.AccessAndRefreshTokensDiffer | backend/src/models/user.ts:135-163 | access and refresh tokens issued together carry the same id, email and subject; with distinct secrets neither verifies as the other |
| UserModel.UserStore.constructor | backend/src/models/user.ts:226 | an empty users collection satisfies the store invariant |
| UserModel.UserStore.SetTokens | backend/src/controllers/auth.ts:127-128 | a stored user's session list is replaced, and the store invariant holds |
| UserModel.UserStore.IssueRefreshToken | backend/src/models/user.ts:150-174 | on a stored user, the new refresh token's fingerprint is appended and the invariant is kept |
| UserModel.UserStore.RecordOrder | backend/src/models/order.ts:100-101 | the order id is pushed onto the user's `orders` and the statistics become `StatsOf` the collection |
| UserModel.UserStore.PullOrder | backend/src/models/order.ts:109-114 | every copy of the order id is pulled from `orders` and the statistics become `StatsOf` the collection |
| UserModel.UserStore.SetOrders | backend/src/models/order.ts:109-111 | a stored user's order list is replaced, and the invariant holds |
| UserModel.UserStore.RefreshStats | backend/src/models/user.ts:177-207 | a stored user's statistics become `StatsOf` the collection, and the invariant holds |
| UserModel.UserStore.FindById | backend/src/controllers/auth.ts:85 | a user is found exactly when the id is stored, and it is the stored document |
| UserModel.UserStore.FindByEmail | backend/src/models/user.ts:214 | a user is found exactly when some stored user has that email, and the found user has it |
| UserModel.UserStore.FindUserByCredentials | backend/src/models/user.ts:210-224 | success exactly when a stored user has the email and the password matches its hash; an unknown email and a wrong password fail with the same Unauthorized message |
| UserModel.UserStore.Insert | backend/src/models/user.ts:50-132 | a new user is refused with its validation failures, or with a duplicate-key error when the email is taken; otherwise it is stored under its id and email with its password hashed |
| UserModel.UserStore.Add | backend/src/models/user.ts:61 | a validated user with a fresh id and email is added to the collection and to the unique email index |
| UserModel.UserStore.UpdateProfile | backend/src/controllers/auth.ts:209-215 | update validators fail first, then a missing id is NotFound, then a taken email is a duplicate-key error; otherwise exactly the given name and email are set |
| UserModel.UserStore.SetProfile | backend/src/controllers/auth.ts:209-212 | the given name and email are set, the others kept, and the index moves with the email |
| UserModel.UserStore.Stored | backend/src/controllers/auth.ts:209 | the document stored under an id, if any |
| UserModel.UserStore.SetName | backend/src/controllers/auth.ts:211 | a validated name is set on the stored user, and the invariant holds |
| UserModel.UserStore.SetEmail | backend/src/controllers/auth.ts:211 | a validated, free email is set and the unique index moves from the old email to the new one |
| Auth.PresentedUser | backend/src/controllers/auth.ts:109-120 | no cookie or an empty one is Unauthorized; a failed `jwt.verify` passes its own error; an id with no user is Unauthorized; success exactly for a verified refresh token of a stored user |
| Auth.DeleteRefreshTokenInUser | backend/src/controllers/auth.ts:104-131 | on success the user's list loses every copy of HMAC(cookie); on any failure nothing changes; no other user and no other field changes; no membership check is made |
| Auth.Logout | backend/src/controllers/auth.ts:134-147 | logout fails exactly as the token checks fail, and then no user's tokens change; otherwise it removes the fingerprint from the presented user's tokens only and answers 200 with an empty cookie of `maxAge -1`; nobody's name, email, password, roles or orders change |
| Auth.RefreshAccessToken | backend/src/controllers/auth.ts:150-179 | tokens become (old minus the presented fingerprint) + [fingerprint of the new refresh token]; the reply holds the view, a new access token and the new cookie; other users' tokens and everybody's name, email, password, roles and orders stay as they were |
| Auth.Login | backend/src/controllers/auth.ts:15-41 | login fails with the one credential error exactly when the credential check fails; otherwise one fingerprint is appended and the reply holds the view and the new tokens; other users' tokens and everybody's name, email, password, roles and orders stay as they were |
| Auth.RegisterError | backend/src/controllers/auth.ts:68-78 | a validation error becomes BadRequest with its message; any other error becomes Conflict exactly when its message contains "E11000", and passes unchanged otherwise |
| Auth.Register | backend/src/controllers/auth.ts:44-79 | validation failures are BadRequest and a taken email is Conflict, with nothing stored; otherwise the new user has the hashed password, default roles and exactly one fingerprint, and the reply has status 201 |
| Auth.GetCurrentUser | backend/src/controllers/auth.ts:82-101 | the reply is the stored user's view of `_id`, `email`, `name` and `roles`, or NotFound when the id is not stored |
| Auth.GetCurrentUserRoles | backend/src/controllers/auth.ts:182-196 | the document must exist; the roles returned are those of the middleware's user, not of the document |
| Auth.StringField | backend/src/controllers/auth.ts:205-206 | a body field is taken exactly when it is a string |
| Auth.UpdateCurrentUser | backend/src/controllers/auth.ts:199-226 | the write frame is the store's email index and that one user's `name` and `email`, so every stored user's tokens, password, roles, orders, phone and order statistics stay as they were (also stated in the `ensures`); only string `name` and `email` are taken from the body; validation, NotFound and duplicate-key errors pass through; the reply is the updated view |
| Auth.LogoutTwice | backend/src/controllers/auth.ts:127-143 | two logouts with the same verified cookie both succeed, and the second leaves the list as the first did: removal is not single use |
| OrderModel.ParseStatus | backend/src/models/order.ts:32-36 | the `status` enum accepts exactly the four status names |
| OrderModel.StatusNameRoundTrip | backend/src/models/order.ts:8-13 | every status's stored name parses back to that status |
| OrderModel.StatusFailure | backend/src/models/order.ts:32-36 | `status` is valid exactly when it names a status |
| OrderModel.PaymentFailure | backend/src/models/order.ts:44-48 | `payment` is valid exactly when it is "card" or "online" |
| OrderModel.MaxLengthFailure | backend/src/models/order.ts:50-53 | a `maxlength` validator passes exactly when the value is within its bound |
| OrderModel.OrderPhoneFailure | backend/src/models/order.ts:62-69 | an order's phone is valid exactly when it is non-empty and matches the phone pattern |
| OrderModel.OrderFailures | backend/src/models/order.ts:29-77 | an order has no validation failure exactly when status and payment are in their enums, address ≤ 200, comment ≤ 1000, and email and phone are valid |
| OrderModel.Facts | backend/src/models/user.ts:180-191 | the aggregation reads one fact per stored order, in collection order |
| OrderModel.Order.constructor | backend/src/models/order.ts:29-77 | a new order is unnumbered, new, and has status "new" and the given fields |
| OrderModel.OrderStore.constructor | backend/src/models/counter.ts:7-14 | an empty collection with the counter at 0 satisfies the invariant |
| OrderModel.OrderStore.IncrementOrderNumber | backend/src/models/order.ts:80-94 | a new order takes the counter after a +1 increment; an existing order leaves both counter and number as they were |
| OrderModel.OrderStore.FindByNumber | backend/src/controllers/order.ts:207-209 | an order is found exactly when some stored order has that number; `null` matches none |
| OrderModel.OrderStore.Save | backend/src/models/order.ts:29-103 | validation failures are reported and nothing changes; otherwise the order gets the next number, is appended, and its customer, when stored, gets the id pushed and the statistics recomputed; the new number exceeds every stored number, and numbers stay increasing and distinct |
| OrderModel.OrderStore.InsertNew | backend/src/models/order.ts:80-94 | a validated new order is numbered from the counter and appended |
| OrderModel.OrderStore.UpdateUserStats | backend/src/models/order.ts:97-103 | a stored customer gets the order id appended and the statistics recomputed; a missing customer is left alone (empty frame) |
| OrderModel.OrderStore.FindByIdAndDelete | backend/src/controllers/order.ts:352 | the order with the id is removed, others keep their order, and its stored customer loses every copy of the id and has statistics recomputed; a missing id changes nothing |
| OrderModel.OrderStore.RemoveOne | backend/src/models/order.ts:106-107 | exactly one order is removed and the invariant holds |
| OrderModel.OrderStore.UpdateUserStatsAfterDelete | backend/src/models/order.ts:106-116 | a stored customer has every copy of the id pulled and the statistics recomputed; a missing customer is left alone |
| OrderModel.OrderStore.UpdateStatus | backend/src/controllers/order.ts:325-330 | a status outside the enum fails validation; a missing number is NotFound; otherwise exactly the matched order changes, in its status only, and is returned |
| OrderModel.FindNumberFrom | backend/src/controllers/order.ts:207-209 | an order is found exactly when some stored order has the number; it is the first such one |
| OrderModel.IndexOfNumber | backend/src/controllers/order.ts:207-209 | the first position holding the number, or the length |
| OrderModel.IndexOfId | backend/src/controllers/order.ts:352 | the first position holding the id, or the length |
| OrderModel.NumbersAreDistinct | backend/src/models/order.ts:31 | numbers that increase along the collection, as the store keeps them, are pairwise distinct, so the unique index never refuses an insert |
| OrderController.FindProduct | backend/src/controllers/order.ts:276-278 | a product is found exactly when some product's id equals the item, and the found one does |
| OrderController.ItemError | backend/src/controllers/order.ts:279-284 | an item fails exactly when it names no product or a product with a null price, with the matching message |
| OrderController.FirstItemError | backend/src/controllers/order.ts:275-286 | the basket fails exactly when some item fails, and then with the error of the first failing item |
| OrderController.FirstItemErrorPrefix | backend/src/controllers/order.ts:275-286 | once an item of a prefix fails, the whole list fails with that error |
| OrderController.Basket | backend/src/controllers/order.ts:275-286 | with no failing item the basket holds, per item, a product for sale that the item names |
| OrderController.SumPricesConcat | backend/src/controllers/order.ts:288 | the price sum is additive, so an item listed twice is paid twice |
| OrderController.CollectBasket | backend/src/controllers/order.ts:275-286 | the loop fails with the first item's error, or yields the basket of all items |
| OrderController.BasketExtend | backend/src/controllers/order.ts:285 | a further good item appends its product to the basket |
| OrderController.NormalizedPhone | backend/src/controllers/order.ts:259-269 | the phone defaults to "" and is reduced to its digits; a non-string phone throws |
| OrderController.CleanField | backend/src/controllers/order.ts:296-301 | a cleaned field is a prefix of the escaped value, at most `n` long, the whole escaped value when short enough |
| OrderController.Ids | backend/src/controllers/order.ts:295 | the order's products are the basket's ids, one per item |
| OrderController.CheckedSucceedsIff | backend/src/controllers/order.ts:269-291 | a body passes exactly when its phone is a string or absent, `items` is an array of ids of products for sale, and `total` equals the basket's price sum, repeats counted |
| OrderController.ValidatedBodyReachesBasket | backend/src/controllers/order.ts:269-296 | a body the order validator accepts passes the phone and array checks, and its payment survives the clean-up unchanged |
| OrderController.FieldsOkReachBasket | backend/src/controllers/order.ts:269-296 | the same from the validator's field conditions |
| OrderController.PaymentIsLowerCase | backend/src/middlewares/validations.ts:7-10 | both payment names are short lower-case words |
| OrderController.LowerCaseEscapesToItself | backend/src/controllers/order.ts:296 | `escape` leaves lower-case words alone |
| OrderController.DraftPhoneDigits | backend/src/controllers/order.ts:269-297 | the stored phone holds only digits, every digit of the input as often as it occurs, in input order |
| OrderController.CheckedPhone | backend/src/controllers/order.ts:269 | an accepted body's phone was a string and is stored as its digits |
| OrderController.DraftFieldsBounded | backend/src/controllers/order.ts:296-301 | payment, email, comment and address are escaped and cut to 50, 100, 1000 and 200 characters |
| OrderController.DraftProductsAreBasket | backend/src/controllers/order.ts:275-295 | each of the order's products is the id of a product for sale that the matching item names |
| OrderController.Prepare | backend/src/controllers/order.ts:255-302 | the checks in source order, giving the fields of the new order |
| OrderController.CreateOrder | backend/src/controllers/order.ts:249-314 | a rejected body changes nothing; an accepted body is saved with the next number, or its validation errors come back as BadRequest; the customer's order list and statistics follow |
| OrderController.SaveDraft | backend/src/controllers/order.ts:293-313 | the new order is saved, or its validation errors become BadRequest with the validation message and nothing changes |
| OrderController.Populate | backend/src/controllers/order.ts:152-159 | the populated list holds only stored orders of the user's ids |
| OrderController.PopulateKeepsStored | backend/src/controllers/order.ts:152-159 | every id with a stored order contributes that order |
| OrderController.FilterSearch | backend/src/controllers/order.ts:168-179 | an order is kept exactly when its number equals the numeric search or one of its products matched |
| OrderController.FilterSearchConcat | backend/src/controllers/order.ts:168 | the filter keeps the orders' sequence |
| OrderController.SearchResults | backend/src/controllers/order.ts:161-180 | without a short string search all orders stay; with one, exactly the matching orders stay |
| OrderController.Paginate | backend/src/controllers/order.ts:182-193 | `totalOrders` counts before slicing, the page is drawn from the orders, and page and size are echoed |
| OrderController.PaginateWindow | backend/src/controllers/order.ts:147-150 | for page `p >= 1` and size `l > 0` the page is `orders[(p-1)*l .. (p-1)*l+l)` clipped, and `totalPages` is `ceil(totalOrders / l)` |
| OrderController.PaginateReachesEveryOrder | backend/src/controllers/order.ts:182-184 | every order lies on some page within `totalPages` |
| OrderController.UserOrdersPage | backend/src/controllers/order.ts:161-193 | the page holds only the user's orders that match the search, and counts all matches |
| OrderController.GetOrdersCurrentUser | backend/src/controllers/order.ts:139-198 | an unknown user is NotFound; otherwise every listed order is stored and among the user's own orders |
| OrderController.CastOrderNumber | backend/src/controllers/order.ts:206-209 | in this model's reading of `Number`: the empty parameter is `null`; a parameter `Number` cannot read is a cast error; any other reads as its number |
| OrderController.GetOrderByNumber | backend/src/controllers/order.ts:200-220 | a cast error is BadRequest "Неверный ID заказа"; a found order has that number; otherwise NotFound |
| OrderController.GetOrderCurrentUserByNumber | backend/src/controllers/order.ts:222-247 | lookup errors pass unchanged; a found order of an existing customer is returned exactly when that customer is the caller, and is NotFound otherwise; a found order whose customer is gone is a TypeError |
| OrderController.OtherCustomersOrderLooksMissing | backend/src/controllers/order.ts:230-238 | another customer's order gets exactly the answer a missing number gets |
| OrderController.StatusOfBody | backend/src/controllers/order.ts:322 | the status is taken exactly when the body's `status` is a string |
| OrderController.UpdateOrder | backend/src/controllers/order.ts:316-343 | a cast error is BadRequest, an invalid status BadRequest with the enum message, and an unknown number NotFound; it succeeds exactly when none of these holds; any failure changes nothing; on success the matched order alone is replaced, by itself with the new status |
| OrderController.DeleteOrder | backend/src/controllers/order.ts:345-363 | an id that is no ObjectId is BadRequest; a missing order is NotFound; otherwise exactly that order is removed and returned, and its customer, when stored, loses every copy of the id from `orders` and has the statistics recomputed over the remaining orders |
| OrderController.SearchConditions | backend/src/controllers/order.ts:85-93 | the `$or` holds the escaped title pattern, plus the order number exactly when the escaped text reads as a number |
| OrderController.BuildAdminFilters | backend/src/controllers/order.ts:29-61 | each truthy query field adds its condition; `From` and `To` bounds merge into one range; a search adds the `$or` |
| OrderController.AdminSort | backend/src/controllers/order.ts:99-102 | a sort key exists exactly when both sort parameters are truthy; its field is the text of `sortField`, `createdAt` by default; its direction is -1 for "desc" (the default) and 1 otherwise |
| OrderController.AdminPagination | backend/src/controllers/order.ts:122-132 | the page and page size are `Number` of the query values, defaulting to 1 and 10; `totalPages` is `ceil(totalOrders / pageSize)`, `ceil(totalOrders / 10)` by default |
| OrderController.AdminTextSearchMatchesNothing | backend/src/controllers/order.ts:63-96 | as written, a non-numeric search keeps no order at the first `$match` stage |
| OrderController.IntendedSearchAgreesWithUserSearch | backend/src/controllers/order.ts:90-95 | with the conditions applied after the lookup, the admin search keeps exactly the orders the user search keeps |
| Validations.MatchPhoneClassIff | backend/src/middlewares/validations.ts:5 | the anchored repetition matches exactly a string of `lo` to `hi` characters from the class |
| Validations.PhonePatternIff | backend/src/middlewares/validations.ts:5 | a phone matches exactly when it has 6 to 30 characters, each a digit, white space, '(', ')', '+' or '-' |
| Validations.ParsePayment | backend/src/middlewares/validations.ts:7-10 | exactly "card" and "online" name a payment type |
| Validations.ObjAcceptsIff | backend/src/middlewares/validations.ts:20-21 | an object schema accepts exactly bodies with no undeclared key whose declared keys each pass |
| Validations.OrderBodySchemaIff | backend/src/middlewares/validations.ts:26-83 | the order schema accepts exactly bodies with only its keys and every field as constrained |
| Validations.OrderBodyKeysIff | backend/src/middlewares/validations.ts:26-83 | the order schema's keys pass exactly when the field conditions hold |
| Validations.OrderBodyFirstKeys | backend/src/middlewares/validations.ts:28-53 | items are a non-empty array of ObjectIds, payment is "card" or "online", email is a non-empty email of at most 100 characters |
| Validations.OrderBodyLastKeys | backend/src/middlewares/validations.ts:55-81 | phone matches the pattern, address has 5 to 200 characters, total is positive (a number, or the text of one), comment is absent or at most 1000 |
| Validations.ValidateOrderBody | backend/src/middlewares/validations.ts:26-83 | `validateOrderBody` accepts exactly bodies with only the declared keys and every field as constrained, a total sent as numeric text included |
| Validations.JoiNumber | backend/src/middlewares/validations.ts:73 | `Joi.number()` with the default conversion: a number exactly when it is a safe integer; a non-empty string exactly when `Number` reads it as a finite safe integer and the text keeps its precision (no minus sign before zero), and then that number; nothing else |
| Validations.JoiNumberOfDecimal | backend/src/middlewares/validations.ts:73 | the decimal text of any safe integer is read back as that integer |
| Validations.UnsafeIntegerIsRefused | backend/src/middlewares/validations.ts:73 | the first integers past `Number.MAX_SAFE_INTEGER` in either direction are refused, as numbers and as text |
| Validations.ConvertOrderBody | backend/src/middlewares/validations.ts:26 | the body celebrate hands on keeps its keys, and changes nothing but `total` |
| Validations.ConvertedOrderBodyIsValid | backend/src/middlewares/validations.ts:26-83 | a validated body stays valid once converted, and its `total` is then the positive number the validator read |
| Validations.SameButTotal | backend/src/middlewares/validations.ts:73-79 | two bodies that write the same total differently are accepted alike |
| Validations.TextTotalIsAccepted | backend/src/middlewares/validations.ts:73-79 | replacing a valid numeric total by its decimal text keeps the body valid |
| Validations.TextTotalConvertsBack | backend/src/middlewares/validations.ts:26 | conversion turns that text back into the number, giving the original body |
| Validations.UserBodySchemaIff | backend/src/middlewares/validations.ts:124-137 | the registration schema accepts exactly bodies with only name, password and email, each as constrained |
| Validations.ValidateUserBody | backend/src/middlewares/validations.ts:124-137 | name is optional but 2 to 30 characters, password is required with at least 6, email is required with at most 100 |
| Validations.AuthenticationSchemaIff | backend/src/middlewares/validations.ts:140-150 | the login schema accepts exactly bodies with only email and password, both present |
| Validations.ValidateAuthentication | backend/src/middlewares/validations.ts:140-150 | login requires email and password and sets no password minimum length |
| Validations.LoginHasNoPasswordMinimum | backend/src/middlewares/validations.ts:129-147 | a one-character password passes login validation but not registration |
| Validations.ImageSchemaIff | backend/src/middlewares/validations.ts:92-95 | an image is an object with a file name and an original name of at most 100 characters |
| Validations.ProductSchemaIff | backend/src/middlewares/validations.ts:86-121 | the product schemas accept exactly bodies with only the product keys and every field as constrained |
| Validations.ProductKeysIff | backend/src/middlewares/validations.ts:86-121 | the product schema's keys pass exactly when the product field conditions hold |
| Validations.ProductEachKey | backend/src/middlewares/validations.ts:88-119 | title 2 to 100, category non-empty, description 5 to 1000, image as its schema, price a number, the text of one, or null |
| Validations.ValidateProductBody | backend/src/middlewares/validations.ts:86-107 | creation requires title, category and description, each as constrained; price may be a number, the text of one, or null |
| Validations.ValidateProductUpdateBody | backend/src/middlewares/validations.ts:110-121 | an update requires none of the fields, and constrains those present as creation does |
| Validations.ProductCreateBodyIsUpdateBody | backend/src/middlewares/validations.ts:86-121 | every accepted creation body is an accepted update body, but not conversely |
| Validations.ValidateObjId | backend/src/middlewares/validations.ts:19-23 | the parameters are accepted exactly when they hold only `productId`, a valid ObjectId |
| Validations.DeleteRouteParamsAlwaysRejected | backend/src/routes/order.ts:36 | as written, every request to the delete route `/:id` is refused by `validateObjId` |
| Validations.ValidateOrderIdParam | backend/src/middlewares/validations.ts:19-23 | the intended check accepts exactly parameters holding only `id`, a valid ObjectId |
| Validations.OrderIdParamAcceptsRouteParams | backend/src/routes/order.ts:36 | the intended check admits every delete request whose id is an ObjectId |
| Js.HexValue | backend/src/middlewares/serverStatic.ts:9 | a hexadecimal digit has a value below 16 |
| ServerStatic.PercentByte | backend/src/middlewares/serverStatic.ts:9 | a `%XY` escape stands for one byte |
| ServerStatic.Continuation | backend/src/middlewares/serverStatic.ts:9 | a UTF-8 continuation escape carries six bits |
| ServerStatic.DecodeSequence | backend/src/middlewares/serverStatic.ts:9 | one to four escapes decode to one character, or the sequence is malformed |
| ServerStatic.DecodeURIComponent | backend/src/middlewares/serverStatic.ts:9 | decoding fails only with URIError and never lengthens the path |
| ServerStatic.DecodeWithoutEscapes | backend/src/middlewares/serverStatic.ts:9 | a path without '%' decodes to itself |
| ServerStatic.LoneEscapeIsMalformed | backend/src/middlewares/serverStatic.ts:9 | a '%' that starts no escape makes decoding fail |
| ServerStatic.StripNul | backend/src/middlewares/serverStatic.ts:9 | the strip removes every NUL and keeps every other character with its multiplicity |
| ServerStatic.DecodePlainPrefix | backend/src/middlewares/serverStatic.ts:9 | characters before the first '%' are copied through decoding unchanged |
| ServerStatic.EscapedNulSurvives | backend/src/middlewares/serverStatic.ts:9 | NULs are stripped before decoding, so `%00` survives the strip and decodes to a NUL |
| ServerStatic.Split | backend/src/middlewares/serverStatic.ts:16 | splitting on '/' gives at least one segment |
| ServerStatic.SplitCons | backend/src/middlewares/serverStatic.ts:16 | the segments of a path with one more leading character |
| ServerStatic.SplitPrepend | backend/src/middlewares/serverStatic.ts:16 | splitting works one leading character at a time |
| ServerStatic.SplitAround | backend/src/middlewares/serverStatic.ts:16 | the segments around a '/' are the segments of each side |
| ServerStatic.SplitAroundStep | backend/src/middlewares/serverStatic.ts:16 | one induction step of the above |
| ServerStatic.SplitSegmentsOccur | backend/src/middlewares/serverStatic.ts:12-16 | every segment occurs in the path; the first is a prefix |
| ServerStatic.SplitWithoutSlash | backend/src/middlewares/serverStatic.ts:16 | a path without '/' is one segment |
| ServerStatic.DotDotSegmentNeedsDotDot | backend/src/middlewares/serverStatic.ts:12-16 | a ".." segment needs ".." in the path |
| ServerStatic.NormalizeConcat | backend/src/middlewares/serverStatic.ts:16 | normalising segments works one run after another |
| ServerStatic.NormalizeWithoutDotDot | backend/src/middlewares/serverStatic.ts:16 | without ".." normalising only ever adds segments |
| ServerStatic.NormalizeNonEmpty | backend/src/middlewares/serverStatic.ts:16 | normalised segments are non-empty |
| ServerStatic.JoinPrefix | backend/src/middlewares/serverStatic.ts:19 | joining more segments extends the joined path |
| ServerStatic.JoinSnoc | backend/src/middlewares/serverStatic.ts:19 | joining one more segment appends the separator and that segment |
| ServerStatic.Resolve | backend/src/middlewares/serverStatic.ts:16 | `path.resolve` always yields an absolute path |
| ServerStatic.ResolvedSegmentsExtend | backend/src/middlewares/serverStatic.ts:16-19 | for a path without "..", the base's segments are a prefix of the resolved path's segments |
| ServerStatic.ResolutionStaysUnderBase | backend/src/middlewares/serverStatic.ts:16-21 | a decoded path without ".." that does not start with '.' resolves under the base, so the second 403 is not taken |
| ServerStatic.StaticGate | backend/src/middlewares/serverStatic.ts:9-21 | a decoding failure is passed on as URIError; ".." anywhere is refused; a probed path always starts with the resolved base |
| ServerStatic.ServeStatic | backend/src/middlewares/serverStatic.ts:5-38 | a served file exists and lies under the base; a missing file falls through to `next()` without error; 403 exactly when the gate refuses |
| ServerStatic.DecodingFailureIsNotForbidden | backend/src/middlewares/serverStatic.ts:34-36 | a decoding failure goes to `next(error)`, not to a 403 |
| ServerStatic.DotsAnywhereAreRefused | backend/src/middlewares/serverStatic.ts:12-14 | ".." anywhere in the decoded path, even inside "a..b", is refused with 403 |
| ServerStatic.DotPathReachesParent | backend/src/middlewares/serverStatic.ts:16 | the decoded path "." has no "..", yet resolves to the parent of the base |
| ServerStatic.DotPathIsForbidden | backend/src/middlewares/serverStatic.ts:19-21 | the prefix test refuses the request path "."; the second 403 branch is reachable only for such a path, which does not start with "/" |
| ServerStatic.RootedPathSkipsPrefixTest | backend/src/app.ts:51 | for every request path starting with "/", as a middleware mounted at the root sees, the gate answers 403 exactly when the decoded path contains "..": the second 403 branch is dead |

## Left out

- Cryptography is not computed. `jwt.sign`/`verify`, HMAC-SHA256 and bcrypt are free constructions in `Crypto`, with no axioms. Distinct inputs give distinct tokens, digests and hashes, so the model idealises them as collision-free.
- `Crypto.Verify`: only the signature key and the `exp` claim decide. Malformed-token and other token errors are not told apart.
- Clocks and time: the jwt clock is the integer `now`. `expiresIn` strings and `Date` values are left out: creation dates are integers, and the admin date filter keeps its bounds as query text.
- Floating point: prices, totals, amounts, page and limit are integers. `Number` reads only optional-sign decimal integers, and anything else is NaN. Exponents, fractions, hexadecimal and surrounding white space are not modelled.
- String lengths count Dafny characters. JavaScript counts UTF-16 code units, so characters outside the basic plane count once here. `escape` itself does emit surrogate pairs.
- `Validations.JoiNumber`: Joi's conversion is modelled for integer text only, within the integer reading of `Number` above. Joi would also take fractions, exponents and surrounding white space. The safe-integer bound and the precision check are modelled; for integer text the precision check refuses only a minus sign before zero.
- `Validations.ConvertOrderBody`: celebrate hands the controllers the converted body. Only the order body's conversion is modelled. The product controllers, which would receive a converted `price`, are not part of this model.
- `Js.AsciiLower`: lower-cases ASCII letters only. An ObjectId's hex text needs nothing more.
- `validator.isEmail` is the parameter `isEmail`. The regular-expression product-title search is the parameter `matched`, the ids whose title matched.
- MongoDB aggregation (`$lookup`, `$unwind`, `$group`, `$sort`, `$skip`, `$limit`) and `countDocuments` are left out. `getOrders` is modelled up to the filter, sort and pagination values it builds (`BuildAdminFilters`, `AdminSort`, `AdminPagination`).
- `populate` is left out: `OrderController.Populate` maps ids to stored orders and nothing more.
- Concurrency is left out. Each save is a sequential, atomic step, so the whole-document save race on `tokens` is not modelled.
- The counter's `min: 0` / `max: MAX_SAFE_INTEGER` bounds (backend/src/models/counter.ts:10-12) are not enforced by `findOneAndUpdate`. The counter is an unbounded integer.
- The 12-character ObjectId form of `Types.ObjectId.isValid`, and casting a 12-byte string, are left out. Only the 24-hex-digit form is modelled.
- The role guard and the auth middleware that sets `res.locals.user` are not part of this model. `userId` and `localRoles` are parameters.
- `backend/src/config.ts` is not part of this model. Secrets, lifetimes and cookie options are the `AuthConfig` parameter.
- File-system access and multer storage are left out: `fs.access` is the parameter `fileExists`, and `sendFile` errors are not modelled.
- Response plumbing (`res.cookie`, `res.json`, status codes other than those the handlers choose) and `console` logging are left out.
- `UserModel.UserStore.UpdateProfile`: that tokens and passwords stay as they were follows from its `modifies` frame and is not restated in its `ensures`. `Auth.UpdateCurrentUser` states it.
- `OrderModel.OrderStore.UpdateUserStats` and `OrderModel.OrderStore.UpdateUserStatsAfterDelete`: "nothing happens for a missing customer" is carried by the frame, since `CustomerEntry` is then empty.

## Findings

| source | as written | input that shows it | evidently intended | confidence | as-written member | corrected member |
|---|---|---|---|---|---|---|
| backend/src/routes/order.ts:36 | the order-delete route `/:id` runs `validateObjId`, whose schema declares only `productId` (backend/src/middlewares/validations.ts:19-23) | `DELETE /orders/<any 24-hex id>`: parameters `{ id }`, refused with 400 before `deleteOrder` runs | a check that `id` is an ObjectId | not executed | Validations.DeleteRouteParamsAlwaysRejected | Validations.OrderIdParamAcceptsRouteParams |
| backend/src/controllers/order.ts:63-96 | `filters.$or = searchConditions` writes the search into the object that the first `$match` stage holds, before the `$lookup`: there `products.title` cannot match | `GET /orders?search=chair`: no order is found, even one with a product titled "chair" | the search applied only after the lookup, as in the user order list | not executed | OrderController.AdminTextSearchMatchesNothing | OrderController.IntendedSearchAgreesWithUserSearch |
