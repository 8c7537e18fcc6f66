# Blinkit storefront backend: order/payment flow and user accounts

This project models two Express controllers of the Blinkit storefront
backend: the order controller (`server/controllers/order.controller.js`)
and the user controller (`server/controllers/user.controller.js`). It models
them over an in-memory database and proves properties of that model in
Dafny.

- `results.dfy` (module `Results`): `Option`, and the `Reply` a handler sends.
  A reply is an HTTP status plus the `error` and `success` flags of the JSON
  body. Message strings are not modelled.
- `object_ids.dfy` (module `ObjectIds`): the fresh-id supply behind
  `new mongoose.Types.ObjectId()`. Ids come from a counter and are written in
  hexadecimal; an `orderId` is `ORD-` plus that text. A parse-back round trip
  proves that distinct draws give distinct strings.
- `store.dfy` (module `Store`): the user, order and cart-product documents. A
  `Database` class holds these collections:
  - the users map and its insertion order;
  - the orders;
  - the cart products;
  - the ObjectId counter.

  The class also has the ORM operations the controllers call: `save`,
  `insertMany`, `deleteMany`, and `updateOne` / `findByIdAndUpdate` through
  an update document (`Patch`). Its invariant `Valid()` says:
  - every user id and every `orderId` was drawn from the counter;
  - `orderId`s are pairwise distinct across the whole store;
  - every stored email is non-empty.
- `order_payloads.dfy` (module `OrderPayloads`): the pure parts of the order
  controller. These are `priceWithDiscount`, the cash-on-delivery and webhook
  order builders, the Stripe Checkout line items and session request, the
  webhook's metadata reading, and the user filter and newest-first sort of
  the order list.
- `order_controller.dfy` (module `OrderController`): the order handlers as
  methods on the database. Stripe is an input: whether the signature checks
  out, the fetched line items (None when the fetch throws), the product that
  `products.retrieve` returns, and the URL that session creation returns.
- `iso_time.dfy` (module `IsoTime`): JavaScript's `<` on strings. Expiry times
  are ISO text compared lexicographically, and this module proves that order
  is a strict total order.
- `user_controller.dfy` (module `UserController`): the user handlers as
  methods on the database. These are parameters, since the model cannot see
  them:
  - bcrypt `hash` and `compare`, and the salt;
  - the generated OTP and expiry text;
  - the clock;
  - whether `sendEmail` succeeds.

How the code is modelled, decided from what the code does:
- A request field that is absent or empty is `""`, since JavaScript's `!x`
  treats both the same.
- `findOne({ email })` returns the first user in insertion order that has
  that email.
- An update by id on an id that does not exist changes nothing.
- `verifyEmailController` inverts its check (user.controller.js:81). The
  update after the check therefore targets an id with no user, so the handler
  as written never marks anyone verified. See Findings.
- In `loginController`, an inactive user reaches `res(400)`. `res` is not a
  function, so the call throws and the handler answers 500 with nothing
  changed.
- The webhook has no duplicate-delivery guard. `RedeliveredWebhook` shows that
  one event delivered twice stores its orders twice. This follows the code:
  making the handler idempotent would need a record of processed sessions,
  and the code keeps none.
- `resetpassword` does not check that an OTP was verified first. The model
  follows the code.

## Model

| member | source | states |
|---|---|---|
| ObjectIds.Hex | server/controllers/order.controller.js:18 | the text of an ObjectId is non-empty (definition of the id text; its digits and round trip are stated by HexDigitsOnly and ParseHexOfHex) |
| ObjectIds.HexDigitsOnly | server/controllers/order.controller.js:18 | every character of an ObjectId's text is a hexadecimal digit |
| ObjectIds.ParseHexOfHex | server/controllers/order.controller.js:18 | reading an ObjectId's hex text back gives the number drawn |
| ObjectIds.HexInjective | server/controllers/user.controller.js:45-46 | two ObjectId numbers have the same text exactly when they are equal |
| ObjectIds.OrderIdOf | server/controllers/order.controller.js:132 | an orderId starts with `ORD-` and continues with at least one hex digit and nothing else |
| ObjectIds.ParseOrderIdOfOrderId | server/controllers/order.controller.js:132 | `ORD-`+id parses back to the ObjectId number |
| ObjectIds.OrderIdInjective | server/controllers/order.controller.js:209 | two order numbers are equal exactly when their ObjectIds are |
| Store.ApplyPatch | server/controllers/user.controller.js:261-266 | definition: an update document sets the fields it holds and keeps the rest; what each handler's update changes is stated by Store.Database.UpdateUser and the handler rows |
| Store.Stamp | server/controllers/order.controller.js:224 | insertMany keeps the batch's length and order and gives every document the same createdAt |
| Store.WithoutUser | server/controllers/order.controller.js:34 | after deleteMany, an entry remains iff it was there and belongs to another user |
| Store.FindByEmail | server/controllers/user.controller.js:26 | a found id is a stored user with that email; not found means no user in the collection has it |
| Store.FindByEmailStable | server/controllers/user.controller.js:376-379 | an update that keeps all emails keeps every email lookup's answer |
| Store.FreshBatchKeepsIdsDistinct | server/controllers/order.controller.js:31 | appending a batch numbered from fresh ObjectIds keeps all orderIds in the store distinct and issued |
| Store.NoUserWithEmptyEmail | server/controllers/user.controller.js:290-298 | in a valid store the empty email finds no user |
| Store.Database.NewObjectIds | server/controllers/order.controller.js:18 | k fresh ids are the next k counter values; the invariant is kept |
| Store.Database.InsertUser | server/controllers/user.controller.js:45-46 | the new user gets a fresh id not yet in use; exactly one user is added |
| Store.Database.InsertMany | server/controllers/order.controller.js:224 | the batch is appended in order with one createdAt |
| Store.Database.DeleteCartProductsOf | server/controllers/order.controller.js:229 | the cart products become WithoutUser of the old ones |
| Store.Database.UpdateUser | server/controllers/user.controller.js:198-200 | an existing user gets the update's fields; an unknown id changes nothing |
| OrderPayloads.CeilDiv100 | server/controllers/order.controller.js:56 | the result is the least integer q with 100q at least the numerator (Math.ceil) |
| OrderPayloads.PriceWithDiscount | server/controllers/order.controller.js:55-59 | the result is price minus the least q with 100q at least price·discount, with discount 1 when absent |
| OrderPayloads.NoDiscountKeepsPrice | server/controllers/order.controller.js:55-59 | a zero discount returns the price |
| OrderPayloads.AbsentDiscountIsOnePercent | server/controllers/order.controller.js:55 | an omitted discount behaves as 1 |
| OrderPayloads.DiscountedPriceBounds | server/controllers/order.controller.js:55-59 | for price ≥ 0 and 0 ≤ discount ≤ 100 the result lies in [0, price] |
| OrderPayloads.CodOrderRecords | server/controllers/order.controller.js:15-30 | one order per cart line in order, each with its line's product id and snapshot, empty paymentId, CASH ON DELIVERY, the address and the client totals, and a fresh orderId per position |
| OrderPayloads.MajorUnits | server/controllers/order.controller.js:141-142 | amount_total/100: the result times 100 is the amount Stripe reports, in the smallest currency unit |
| OrderPayloads.PaidOrderRecord | server/controllers/order.controller.js:130-143 | definition of one paid order document; its fields are stated per position by PaidOrderRecords and GetOrderProductItems |
| OrderPayloads.PaidOrderRecords | server/controllers/order.controller.js:205-221 | one order per fetched line item in order, with the product's metadata id and snapshot, the payment intent and status, and amount_total/100 as both totals |
| OrderPayloads.BatchOrderIdsDistinct | server/controllers/order.controller.js:18 | the orderIds of one batch are pairwise distinct |
| OrderPayloads.CheckoutLineItems | server/controllers/order.controller.js:68-87 | one Stripe line item per cart line in order, with currency inr, unit_amount = priceWithDiscount·100, the line's quantity, adjustable quantity from 1 and the catalog id in product metadata |
| OrderPayloads.CheckoutSessionParams | server/controllers/order.controller.js:89-101 | the session metadata has exactly the keys userId and addressId, holding those values |
| OrderPayloads.SessionTarget | server/controllers/order.controller.js:196-202 | definition of the webhook's metadata read; stated by MetadataRoundTrip and by WebhookStripe's MissingMetadata case |
| OrderPayloads.MetadataRoundTrip | server/controllers/order.controller.js:94-97 | the ids stashed by checkout come back out of the session exactly when both are non-empty |
| OrderPayloads.OrdersOf | server/controllers/order.controller.js:248 | an order is in the result iff it is stored and belongs to the user; each of the user's orders appears as often as it is stored, and no other order appears |
| OrderPayloads.SortNewestFirst | server/controllers/order.controller.js:248 | the result is sorted by createdAt descending and is a permutation of the input |
| OrderController.CartEmptied | server/controllers/order.controller.js:35 | the update empties the acting user's shopping_cart and leaves every other user and the set of users as they were |
| OrderController.ClearCart | server/controllers/order.controller.js:34-35 | only the acting user's cart products go and only that user's shopping_cart is emptied |
| OrderController.InsertFreshBatch | server/controllers/order.controller.js:31 | a batch numbered from the ids just drawn is appended and the invariant is kept |
| OrderController.CashOnDeliveryOrderController | server/controllers/order.controller.js:10-53 | a list_items that cannot be mapped gives 500 with nothing written; otherwise the orders grow by exactly CodOrderRecords of the request, the counter moves by the line count, and that user's cart is cleared with nothing else changed |
| OrderController.PaymentController | server/controllers/order.controller.js:61-114 | a list_items that cannot be mapped or an unknown user gives 500 with no request; otherwise the request is CheckoutSessionParams with that user's email; a Stripe failure gives 500 |
| OrderController.GetOrderProductItems | server/controllers/order.controller.js:117-150 | missing line items give []; otherwise one order per item in order, built from the retrieved product |
| OrderController.WebhookStripe | server/controllers/order.controller.js:156-242 | a bad signature, an ignored event type, a failed fetch or missing metadata each leave the database unchanged; an accepted event appends PaidOrderRecords of the line items in order and clears only that user's cart |
| OrderController.RedeliveredWebhook | server/controllers/order.controller.js:224-229 | one event delivered twice is accepted twice and adds 2N orders |
| OrderController.GetOrderDetailsController | server/controllers/order.controller.js:244-263 | the list holds exactly the user's orders, newest first |
| IsoTime.LexLess | server/controllers/user.controller.js:357 | definition of JavaScript's `<` on strings; characterized by LexLessIsFirstDifference |
| IsoTime.LexLessIsFirstDifference | server/controllers/user.controller.js:357 | a < b exactly when a is a proper prefix of b or, where they first differ, a has the smaller character |
| IsoTime.LexLessIrreflexive | server/controllers/user.controller.js:357 | no time text is earlier than itself |
| IsoTime.LexLessTransitive | server/controllers/user.controller.js:357 | string order is transitive |
| IsoTime.LexLessTotal | server/controllers/user.controller.js:357 | of two distinct texts one is earlier |
| IsoTime.ExpiryCheckMonotone | server/controllers/user.controller.js:357 | an expiry not yet passed at some time has not passed at any earlier time |
| IsoTime.ClearedExpiryIsPast | server/controllers/user.controller.js:376-379 | a cleared expiry "" is earlier than now exactly when now is non-empty |
| UserController.NewUser | server/controllers/user.controller.js:39-46 | the saved user has the given name, email and password hash, is Active and unverified |
| UserController.Lookup | server/controllers/user.controller.js:345 | a found id is a stored user with that email; not found means no user in the collection's order has it |
| UserController.LookupNoneMeansUnknown | server/controllers/user.controller.js:345-352 | in a valid store, an email that is not found belongs to no user at all |
| UserController.RegisterUserController | server/controllers/user.controller.js:14-73 | missing fields give 400; a known email gives success with nothing added; otherwise exactly one user is added under a fresh id, with the hashed password |
| UserController.VerifyEmailController | server/controllers/user.controller.js:75-106 | as written: 400 when the user exists, 200 otherwise, and the database is never changed |
| UserController.VerifyEmailCorrected | server/controllers/user.controller.js:79-91 | an existing user gets verify_email = true and nothing else changes; an unknown code gives 400 with no change |
| UserController.RegisteredUserStaysUnverified | server/controllers/user.controller.js:79-91 | a freshly registered user following their own link is refused and stays unverified |
| UserController.RegisteredUserGetsVerified | server/controllers/user.controller.js:89-91 | with the corrected handler the freshly registered user ends verified |
| UserController.LoginController | server/controllers/user.controller.js:109-183 | missing fields, unknown email, inactive status (500) and a failed compare change nothing; success changes only that user's last_login_date |
| UserController.LogoutController | server/controllers/user.controller.js:186-215 | only the acting user's refresh_token becomes "" |
| UserController.IfSupplied | server/controllers/user.controller.js:262-265 | definition of `...(x && { x })`; that only the supplied fields change is stated by UpdateUserDetails |
| UserController.UpdateUserDetails | server/controllers/user.controller.js:249-283 | only the supplied fields among name, email, mobile, password change, the password stored as its hash; other fields and users are unchanged |
| UserController.ForgotPasswordController | server/controllers/user.controller.js:286-330 | an unknown email gives 400 with no change; otherwise exactly that user's OTP and expiry are set |
| UserController.VerifyForgotPasswordOtp | server/controllers/user.controller.js:333-394 | missing fields, unknown email, an expiry earlier than now (checked first) and a wrong OTP each change nothing; success clears exactly the OTP and expiry |
| UserController.VerifyOtpTwice | server/controllers/user.controller.js:376-379 | once an OTP is accepted, asking again at any later non-empty time is refused |
| UserController.ResetPassword | server/controllers/user.controller.js:398-444 | missing fields, unknown email and mismatched passwords change nothing; success changes only that user's password, to the hash of the new one |

## Left out

- UserController.RegisterUserController: does not state that the stored password differs from the plaintext. The stored value is whatever the hash returns, and that it is not the plaintext is a property of bcrypt, which is a parameter here.
- `uploadAvatar`, `refreshToken` and `userDetails` in user.controller.js: Cloudinary upload, JWT verification and a read-only lookup. They are foreign calls or have nothing to state.
- `generatedAccessToken` and `generatedRefreshToken` are not part of this model. Login ignores any write to the user document that they may make.
- The internals of Stripe (signature verification, session creation, `listLineItems`, `products.retrieve`), bcrypt, the OTP generator and email content are inputs or parameters.
- ObjectIds are unpadded hex text of a counter, not 24-character ids made of time, random and counter parts. Mongoose's CastError for ids that are not ObjectIds is not modelled: such ids are treated like any other unknown id. In the handlers whose outer catch handles it, the real reply is then 500. In `webhookStripe`, a metadata userId that does not cast makes `insertMany` (line 224) or `findByIdAndUpdate` (line 228) throw inside the inner `try`, and the inner catch (lines 231-233) answers 400; the model instead accepts the event.
- Database writes never fail. A failure of `insertMany`, `deleteMany` or `updateOne` after an earlier write succeeded is not modelled. COD runs deleteMany before the user update, and the webhook runs them the other way round. Both orders give the same final state.
- `list_items` is either a sequence of populated cart lines or None. None stands for every shape on which the `map` at lines 15 and 68 throws: absent, not an array, or an entry without `productId`. The shapes of a partly valid entry are not told apart.
- Amounts are `real` and prices are integers. JavaScript `Number` rounding, `NaN` passthrough and a `null` discount (`Number(null)` is 0) are not modelled. An absent discount defaults to 1.
- The expiry text that `forgotPasswordController` computes (line 301) is an input that is only stored. Line 301 adds a number to a Date, which concatenates strings. So `new Date(expireTime)` is either an invalid date, whose `toISOString()` throws (reply 500), or at best the current time, truncated to the second, with the suffix ignored. Either way the stored expiry is never an hour ahead. This is read from the code, not executed. The success branch of `VerifyForgotPasswordOtp` therefore needs an expiry later than the check time, which the real handler practically never stores.
- `LexLess` orders Dafny characters by code point, while JavaScript compares UTF-16 code units. The two agree on ISO-8601 text.
- OrderController.GetOrderProductItems: `retrieve` is a total function, although `stripe.products.retrieve` (line 128) can reject. The rejection would propagate to the caller, and this helper has no caller in order.controller.js: `webhookStripe` reads the expanded product instead.
- `populate('delivery_address')`: the address store is not part of this model, so the order list gives the address id.
- Ties in `createdAt` come back in no particular order. Only sortedness and the set of orders are stated.
- The CORS, route, middleware, React and Stripe configuration files. Concurrency between requests.
- The user schema's default values (status "Active", empty strings, `verify_email` false) are assumed. The user model file is not part of this model.

## Findings

| source | as written | input that shows it | evidently intended | confidence | as-written member | corrected member |
|---|---|---|---|---|---|---|
| server/controllers/user.controller.js:81 | `if(user)` rejects the code when the user exists, then updates an id with no user | register a user, then submit its own id as `code`: reply 400, `verify_email` stays false | reject when no user has that id; otherwise set `verify_email` to true | high; not executed | UserController.RegisteredUserStaysUnverified | UserController.VerifyEmailCorrected |
