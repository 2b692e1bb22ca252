# Zoovio pet shop: the payment and order ledger, and the catalog pages

This project models the core of the Zoovio pet shop in Dafny:

- the Express routes that turn a cart into an order and move its payment through the
  payment processor (Stripe):
  - the hosted-checkout routes of `backend/server/routes/payment.js`;
  - the payment-intent routes of `server/routes/payments.js`;
- the order routes of `server/routes/orders.js`;
- the database helper layer of `server/config/database.js`;
- the filtering and cart/contact handlers of the dog, cat and adoption pages.

## How the model is built

- The database is a value `Tables`. It holds users, orders, order items, payments, user
  sessions and the audit log.
  - Each table is a sequence in insertion order. "The first matching row" of a
    `LIMIT 1` query is therefore the first in table order.
  - Order and payment ids are serial: a new row's id is the number of rows before it.
    `Database.Valid` also asks that every item and every payment naming an order names an
    existing one. Every route is proved to keep `Valid`.
- `Database.Db` is a class with one field per table and one method per helper. Each method
  rewrites its field by the pure table function that says what the SQL statement does.
- Each route has two parts:
  - a pure effect function from the old tables and the route's inputs to the new tables
    and the answer (`CheckoutEffect`, `VerifyEffect`, `ConfirmEffect`, `PatchStatusEffect`,
    ...);
  - a method over a `Db` that issues the same statements one after another. It is proved to
    leave `db.State()` and its answer equal to the effect.

  The lemmas next to each effect state what the route promises.
- The processor's answers are inputs of the model:
  - a created session or intent id, or `Threw`;
  - the retrieved `payment_status` or intent status;
  - the outcome of the webhook signature check.

  The clock is an input `now`, and so is the generated order number.
- Money in the tables is `real` (a Postgres numeric). `Requests.MinorUnits` is the processor
  amount, `Math.round(amount * 100)`, modelled as rounding half up.
- The catalog pages are pure values:
  - their pet lists, exactly as listed;
  - the filter behind each category button;
  - the entry "add to cart" builds;
  - the state change of the adoption page's contact button.

Where the design's intent and the code disagree, the model follows the code. The lemmas
that show each of these are named here:
- An order's total is the amount the client posted, not the sum of its items
  (`CheckoutRoutes.OrderTotalIsClientAmount`).
- Neither verification nor the completed-session webhook checks for an existing payment, so
  a repeat records a second one (`VerifyTwiceRecordsTwoPayments`,
  `WebhookReplayRecordsTwice`).
- An expired-session event cancels an order even after it was paid
  (`WebhookExpiredOverridesSuccess`).
- Verification with a `payment_status` other than paid or unpaid resets the order to
  pending (`VerifyWritesMapping`).
- The checkout session id is written by order id without looking at its old value
  (`SessionIdOverwritten`).
- The order statuses are not monotone: no route checks the order's current status, except
  the cancellation route.

## Model

| member | source | states |
|---|---|---|
| Text.TrimSpec | backend/server/routes/payment.js:37 | `trim` keeps a contiguous middle part of the name; what it cuts from either end is whitespace; what is left starts and ends with a non-whitespace character |
| Text.Trim | backend/server/routes/payment.js:37 | definition of `trim()`: JavaScript whitespace removed from both ends of the name; `Text.TrimSpec` proves what it keeps and cuts |
| Text.IsEmail | backend/server/routes/payment.js:38 | definition of the e-mail rule: an `@` after a non-empty local part, no space, no second `@`, and a dot strictly inside a domain of at least three characters |
| Requests.ValidOrderRequest | backend/server/routes/payment.js:34-40 | definition of the checkout validators: amount at least 0.50, a supported currency, a trimmed name of at least two characters, a valid e-mail, at least one cart entry |
| Requests.QuantityOrOne | backend/server/routes/payment.js:86-87 | `item.quantity \|\| 1` is never zero; it is the client's quantity when that is given and non-zero, and 1 otherwise |
| Requests.RoundHalfUp | backend/server/routes/payment.js:104 | `Math.round` gives the integer within half of its argument, halves rounding up |
| Requests.MinorUnitsOfCents | backend/server/routes/payment.js:293 | an amount that is a whole number of cents converts to exactly that many minor units |
| Requests.MinorUnitsClose | server/routes/payments.js:76 | the processor amount is never more than half a cent away from the posted amount |
| Requests.MinorUnitsExample | server/routes/payments.js:76 | 19.99 becomes 1999 minor units |
| Database.ApplyOrderPatch | server/config/database.js:94-110 | a status update writes the status, and the payment status only when one is given; a session or intent update writes only that column; id, owner, number, total and currency never change |
| Database.UpdateOrders | server/config/database.js:96-100 | an UPDATE keeps the table's length, patches every matching row and leaves every other row as it was |
| Database.UpdateOrdersKeepsValid | server/config/database.js:94-110 | an order update keeps the tables valid |
| Database.UpdateOrderById | server/config/database.js:94-110 | with serial ids, an update by id rewrites exactly the row at that position, and an unknown id changes nothing |
| Database.UpdateOrdersKeepsIds | server/config/database.js:94-110 | an order update keeps serial ids serial |
| Database.UpdateStatusWritesPaymentStatusOnlyWhenGiven | server/config/database.js:94-110 | `updateStatus` always sets the status; it sets the payment status exactly when one is passed and otherwise keeps the old one |
| Database.FindOrderById | server/config/database.js:81-86 | the row found is the first with the id; null exactly when no row has it |
| Database.FindOrderByIdSerial | server/config/database.js:81-86 | with serial ids the lookup returns the row at position id, and null past the end |
| Database.FindOrderBySession | backend/server/routes/payment.js:443-447 | the row found is the first carrying the session id; none exactly when no row does |
| Database.FindOwnedOrderBySession | backend/server/routes/payment.js:190-195 | the row found is the first carrying the session id and belonging to the caller; none exactly when no such row exists |
| Database.StatusUpdateKeepsOwnedLookup | backend/server/routes/payment.js:190-218 | after a status update the caller's order for the session is found at the same row, with the same total and currency |
| Database.StatusUpdateKeepsSessionLookup | backend/server/routes/payment.js:436-447 | after the completed-session update, the SELECT that follows finds the same order with the same owner, total and currency |
| Database.FindOrderByIntent | server/routes/payments.js:162-164 | the row found is the first carrying the intent id; none exactly when no row does |
| Database.FindOrdersByUser | server/config/database.js:88-92 | the result holds exactly the user's orders |
| Database.FindOrdersByUserNewestFirst | server/config/database.js:88-92 | with serial ids the user's orders come newest first: ids strictly decrease along the result |
| Database.FindItemsByOrder | server/config/database.js:129-133 | the result is a subsequence of the table that holds every copy of each of the order's item rows and nothing else: counted with multiplicity, an item row of the order occurs as often as in the table and any other row not at all |
| Database.AppendPayment | server/config/database.js:138-158 | an insert keeps every earlier payment and appends the draft with the next serial id |
| Database.AppendPaymentKeepsIds | server/config/database.js:138-158 | an insert keeps serial payment ids serial |
| Database.AppendPaymentKeepsValid | server/config/database.js:138-158 | inserting a payment that names an existing order, or none, keeps the tables valid |
| Database.ApplyPaymentPatch | server/config/database.js:160-172 | a payment update writes status, failure reason and processing time as its SET clause says; id, order, owner, amount, currency and intent never change |
| Database.UpdatePayments | server/config/database.js:160-172 | the update keeps the table's length, patches every payment of the intent and leaves the others as they were |
| Database.StatusUpdateEffect | server/config/database.js:160-172 | `payments.updateStatus` sets the status on every payment of the intent; the processing time is present exactly when the status is succeeded; the failure reason becomes the given one, null by default; other payments are untouched |
| Database.UpdatePaymentsKeepsIds | server/config/database.js:160-172 | a payment update keeps serial ids serial |
| Database.FindPaymentByIntent | server/config/database.js:174-179 | the payment found is the first in table order carrying the intent; null exactly when none does |
| Database.FindPaymentByOrder | server/routes/orders.js:63-65 | the payment found is the first in table order naming the order; none exactly when no payment names it |
| Database.FindSessionByToken | server/config/database.js:193-200 | the session found is the first that has the hash, is active and has not expired; null exactly when no session qualifies |
| Database.Deactivate | server/config/database.js:202-208 | every session with the hash becomes inactive; the others are untouched |
| Database.DeactivatedTokenNotFound | server/config/database.js:193-208 | after `deactivate` the token is not found at any time |
| Database.DeactivateKeepsOtherTokens | server/config/database.js:193-208 | deactivating one token leaves every other token's lookup as it was |
| Database.FindUserByEmail | server/config/database.js:42-47 | the user found is the first in table order with the e-mail, with all its columns; null exactly when no user has it |
| Database.FindUserById | server/config/database.js:49-55 | the user found has the id and stands for the first row with it: its columns are exactly that row's profile columns (everything but the password hash) with the stored values; null exactly when no user has the id |
| Database.AssignmentAt | server/config/database.js:63 | the i-th piece of the SET clause assigns the i-th field from placeholder i + 2 |
| Database.UpdateUserQuery | server/config/database.js:61-64 | no statement exactly when there are no fields |
| Database.SetClauseBindsFieldsInOrder | server/config/database.js:63-66 | field i is bound to a placeholder that reads as i + 2, and in the parameter list `[id, ...values]` that placeholder holds value i |
| Database.SetClauseExample | server/config/database.js:63 | two fields give "full_name = $2, phone = $3" |
| Database.ApplyUserUpdate | server/config/database.js:64-66 | the user with the id gets the new column values over the old ones; every other user is unchanged |
| Database.Db.constructor | server/config/database.js:20 | a new handle starts with empty tables |
| Database.Db.CreateUser | server/config/database.js:33-40 | appends a row with the next id holding just the eight insert columns, and returns only id, name and e-mail |
| Database.Db.UpdateUser | server/config/database.js:57-67 | no fields: no statement, no change, null; otherwise the users table becomes ApplyUserUpdate of the old one, and the answer is the rows with the id |
| Database.Db.InsertOrder | backend/server/routes/payment.js:60-72 | appends the new order with the next serial id and returns it |
| Database.Db.CreateOrder | server/config/database.js:72-79 | appends the new order with the default statuses and returns it |
| Database.Db.UpdateOrderStatus | server/config/database.js:94-110 | the orders become UpdateOrders by id with the status patch |
| Database.Db.UpdateOrdersWhere | backend/server/routes/payment.js:132-136 | the orders become UpdateOrders with the route's own key and SET clause |
| Database.Db.InsertOrderItem | backend/server/routes/payment.js:78-92 | appends one item |
| Database.Db.CreateOrderItems | server/config/database.js:115-127 | appends all the rows in order |
| Database.Db.CreatePayment | server/config/database.js:138-158 | appends the draft with the next serial id and returns that row |
| Database.Db.UpdatePaymentStatus | server/config/database.js:160-172 | the payments become UpdatePayments with the StatusUpdate patch at time `now` |
| Database.Db.UpdatePaymentsWhere | backend/server/routes/payment.js:480-484 | the payments become UpdatePayments with the route's own SET clause |
| Database.Db.CreateSession | server/config/database.js:184-191 | appends an active session |
| Database.Db.DeactivateSession | server/config/database.js:202-208 | the sessions become Deactivate of the old ones |
| Database.Db.CreateAuditEntry | server/config/database.js:213-220 | appends the entry to the audit log |
| CheckoutRoutes.ItemRows | backend/server/routes/payment.js:78-90 | one item row per cart entry, in cart order |
| CheckoutRoutes.LineItemAmounts | backend/server/routes/payment.js:96-107 | each line item charges the entry's price in cents, within half a cent, and exactly when the price is whole cents; its quantity is never zero and is the client's when given; the currency is lower-cased |
| CheckoutRoutes.CheckoutValidation | backend/server/routes/payment.js:34-50 | the answer is 400 exactly when a validator fails, and then nothing is written |
| CheckoutRoutes.CheckoutEffect | backend/server/routes/payment.js:43-174 | definition of the route's effect: validation, the order and item inserts, then on an opened session the session id on the new order and one audit entry; its properties are the lemmas below |
| CheckoutRoutes.CheckoutShape | backend/server/routes/payment.js:60-150 | a valid request writes the order and its items first; a processor failure stops there; otherwise the session id is written on the new order |
| CheckoutRoutes.CheckoutAnswer | backend/server/routes/payment.js:43-174 | a valid request answers the session id, the new order's id and its number when the session opened, and 500 when the processor failed; only an opened session appends the `CheckoutSessionCreated` audit entry; users, payments and sessions are untouched |
| CheckoutRoutes.SessionIdOnNewOrder | backend/server/routes/payment.js:131-136 | the session id lands on the new order only |
| CheckoutRoutes.CheckoutCreatesPendingOrder | backend/server/routes/payment.js:60-136 | exactly one order is appended: the caller's, pending and pending, with the client's amount, the currency upper-cased, and the session id when the session opened; earlier orders are unchanged |
| CheckoutRoutes.SessionIdOverwritten | backend/server/routes/payment.js:132-136 | every row with the id ends up with the new session id, whatever it held |
| CheckoutRoutes.InsertedItems | backend/server/routes/payment.js:78-92 | the inserts keep the old items and put entry k's row at position k after them |
| CheckoutRoutes.CheckoutItemsPerEntry | backend/server/routes/payment.js:78-92 | one item row per cart entry, pointing at the new order, with quantity `quantity \|\| 1` and total = price × quantity; this holds whether or not the processor call succeeds |
| CheckoutRoutes.ExampleRequestValid | backend/server/routes/payment.js:34-40 | a one-dog cart for 0.50 usd from "Al", a@b.co passes every validator |
| CheckoutRoutes.EmailExample | backend/server/routes/payment.js:38 | "a@b.co" passes the e-mail rule |
| CheckoutRoutes.OrderTotalIsClientAmount | backend/server/routes/payment.js:60-90 | a 1200 dog posted with amount 0.50 is stored as an order of 0.50 whose item totals 1200 |
| CheckoutRoutes.CheckoutPreservesValid | backend/server/routes/payment.js:43-174 | the route keeps the tables valid on every path |
| CheckoutRoutes.InsertsKeepValid | backend/server/routes/payment.js:60-136 | the inserts, and the session-id update after them, keep the tables valid |
| CheckoutRoutes.CreateCheckoutSession | backend/server/routes/payment.js:43-174 | the handler's tables and answer are CheckoutEffect's |
| CheckoutRoutes.VerifyNotFound | backend/server/routes/payment.js:183-199 | an empty session, or none of the caller's orders for it, answers 404 and writes nothing |
| CheckoutRoutes.VerifyEffect | backend/server/routes/payment.js:177-270 | definition of the route's effect: the caller's order for the session, the status mapping and the payment for a paid session; its properties are the lemmas below |
| CheckoutRoutes.VerifyWritesMapping | backend/server/routes/payment.js:201-218 | paid gives (confirmed, succeeded), unpaid gives (cancelled, failed), anything else gives (pending, pending), whatever the order held; no other order changes |
| CheckoutRoutes.VerifyPaymentRows | backend/server/routes/payment.js:220-233 | paid appends exactly one succeeded payment for the order, with its total and currency, processed now; any other status appends none |
| CheckoutRoutes.VerifyTwiceRecordsTwoPayments | backend/server/routes/payment.js:220-233 | verifying a paid session twice records two payments for one order |
| CheckoutRoutes.VerifyPreservesValid | backend/server/routes/payment.js:177-270 | the route keeps the tables valid on every path |
| CheckoutRoutes.VerifyWritesKeepValid | backend/server/routes/payment.js:213-252 | the three writes of a verification keep the tables valid |
| CheckoutRoutes.VerifySession | backend/server/routes/payment.js:177-270 | the handler's tables and answer are VerifyEffect's |
| CheckoutRoutes.RecordVerification | backend/server/routes/payment.js:201-265 | the status chain, the update, the payment and the audit entry give VerifyWrites; the answer carries the mapped statuses with the order's total and currency |
| CheckoutRoutes.ChargeRecordsOnePayment | backend/server/routes/payment.js:273-335 | an invalid request answers 400 and a processor failure 500, both writing nothing; otherwise exactly one payment is appended, with no order, the posted amount and the intent id, succeeded exactly when the intent succeeded and failed otherwise |
| CheckoutRoutes.ValidChargeRequest | backend/server/routes/payment.js:273-278 | definition of the create-charge validators: amount at least 0.50, a supported currency, a payment method id, a valid e-mail |
| CheckoutRoutes.ChargeEffect | backend/server/routes/payment.js:273-335 | definition of the route's effect: validation, then one order-less payment for the intent's outcome |
| CheckoutRoutes.ChargePreservesValid | backend/server/routes/payment.js:308-319 | the payment insert keeps the tables valid |
| CheckoutRoutes.CreateCharge | backend/server/routes/payment.js:273-335 | the handler's tables and answer are ChargeEffect's |
| CheckoutRoutes.WebhookRejectsUnsigned | backend/server/routes/payment.js:418-427 | without a secret the answer is 500; with a bad signature it is 400; neither writes anything |
| CheckoutRoutes.WebhookEffect | backend/server/routes/payment.js:413-507 | definition of the event switch: secret and signature checks, then the UPDATE (and, for a completed session, the INSERT) of each event type |
| CheckoutRoutes.WebhookCompleted | backend/server/routes/payment.js:431-462 | a completed session confirms every order carrying it and leaves the others; users, items, sessions and the audit log are unchanged |
| CheckoutRoutes.WebhookCompletedPayment | backend/server/routes/payment.js:443-459 | when an order carries the session, the earlier payments are kept and one succeeded payment is appended with the next id for the first such order: its id, owner, total and currency, the session id and processed at `now`; otherwise the payments are unchanged |
| CheckoutRoutes.WebhookReplayRecordsTwice | backend/server/routes/payment.js:431-462 | a redelivered completed event records a second payment |
| CheckoutRoutes.WebhookExpiredOverridesSuccess | backend/server/routes/payment.js:464-473 | an expired session makes every order carrying it (cancelled, failed), even a paid one; payments are untouched |
| CheckoutRoutes.WebhookIntentEvents | backend/server/routes/payment.js:475-497 | intent events change only the intent's payments: success sets succeeded and the processing time, failure sets failed; neither touches the failure reason or any other table |
| CheckoutRoutes.WebhookUnknownIgnored | backend/server/routes/payment.js:499-502 | any other event type changes nothing and is acknowledged |
| CheckoutRoutes.WebhookPreservesValid | backend/server/routes/payment.js:413-507 | every event keeps the tables valid |
| CheckoutRoutes.CompletedKeepsValid | backend/server/routes/payment.js:431-462 | the payment the completed event appends names an existing order |
| CheckoutRoutes.Webhook | backend/server/routes/payment.js:413-507 | the handler's tables and answer are WebhookEffect's |
| IntentRoutes.IntentItemRows | server/routes/payments.js:61-70 | one tuple per cart entry, in cart order, with the client's own quantity |
| IntentRoutes.CreateIntentValidation | server/routes/payments.js:12-42 | the answer is 400 exactly when a validator fails, and then nothing is written |
| IntentRoutes.CreateIntentEffect | server/routes/payments.js:32-132 | definition of the route's effect: validation, the order insert, the item tuples, the intent id and the status update |
| IntentRoutes.IntentWritesOnNewOrder | server/routes/payments.js:91-97 | the two updates after the intent is created touch only the new order: (confirmed, processing) and the intent id |
| IntentRoutes.CreateIntentConfirmsOrder | server/routes/payments.js:44-113 | with quantities and an intent, exactly one order is appended: the caller's, for the client's amount in upper-case currency, at (confirmed, processing), with the intent id; each item points at it and totals price × quantity |
| IntentRoutes.CreateIntentMissingQuantity | server/routes/payments.js:61-72 | an entry without a quantity makes the item insert fail: 500, with the order left behind at the default statuses and no items |
| IntentRoutes.CreateIntentPreservesValid | server/routes/payments.js:32-132 | the route keeps the tables valid on every path |
| IntentRoutes.IntentInsertsKeepValid | server/routes/payments.js:50-113 | each stage of the route's writes keeps the tables valid |
| IntentRoutes.CreatePaymentIntent | server/routes/payments.js:32-132 | the handler's tables and answer are CreateIntentEffect's |
| IntentRoutes.ConfirmNotFound | server/routes/payments.js:161-171 | without an order for the intent the answer is 404 and nothing is written |
| IntentRoutes.ValidConfirmRequest | server/routes/payments.js:135-138 | definition of the confirm validators: both the intent id and the payment method id are non-empty |
| IntentRoutes.ConfirmEffect | server/routes/payments.js:135-243 | definition of the route's effect: the order for the intent, the status mapping, the payment insert and its status update |
| IntentRoutes.ConfirmOrderMapping | server/routes/payments.js:190-207 | succeeded gives (confirmed, succeeded), requires_action gives (processing, requires_action), payment_failed gives (cancelled, failed), anything else gives (processing, processing); no other order changes |
| IntentRoutes.ConfirmPaymentRow | server/routes/payments.js:173-204 | one payment is appended, with the next id, for the order, with its amount and currency and the intent id; it ends succeeded and processed now, or failed with reason "Payment failed", or at the default status |
| IntentRoutes.ConfirmRewritesEarlierPayments | server/routes/payments.js:194-204 | a success or failure also rewrites every earlier payment of the same intent |
| IntentRoutes.ConfirmPreservesValid | server/routes/payments.js:135-243 | the route keeps the tables valid on every path |
| IntentRoutes.ConfirmWritesKeepValid | server/routes/payments.js:173-222 | the writes of a confirmation keep the tables valid |
| IntentRoutes.ConfirmPaymentRoute | server/routes/payments.js:135-243 | the handler's tables and answer are ConfirmEffect's |
| IntentRoutes.RecordConfirmation | server/routes/payments.js:173-234 | the insert, the status chain, the order update and the audit entry give ConfirmWrites; the answer carries the new payment's id |
| IntentRoutes.ConfirmPaymentStep | server/routes/payments.js:188-204 | the payment table after the insert and the chain's update, and the two statuses the chain picks |
| IntentRoutes.IntentWebhookNoOps | server/routes/payments.js:285-319 | a bad signature answers 400 and writes nothing; an unknown event type writes nothing |
| IntentRoutes.IntentWebhookEffect | server/routes/payments.js:281-326 | definition of the event switch: the signature check, then the payment and order updates of each event type |
| IntentRoutes.IntentWebhookEvents | server/routes/payments.js:294-315 | success marks the intent's payments succeeded, processed now, with no failure reason, and its orders (processing, succeeded); failure marks them failed with the processor's message and no processing time, and the orders (cancelled, failed); rows of other intents are untouched |
| IntentRoutes.IntentWebhookPreservesValid | server/routes/payments.js:281-326 | every event keeps the tables valid |
| IntentRoutes.IntentWebhook | server/routes/payments.js:281-326 | the handler's tables and answer are IntentWebhookEffect's |
| OrderRoutes.ListOrders | server/routes/orders.js:8-35 | one entry per order `findByUserId` returns, in that order (newest first); these are exactly the caller's orders; each carries `findByOrderId` of its id, that is exactly its own item rows with their multiplicity; nothing is written |
| OrderRoutes.AttachItems | server/routes/orders.js:13-21 | each order, in turn, is paired with its own items |
| OrderRoutes.GetOrder | server/routes/orders.js:38-83 | 404 exactly when no order has the id; 403 exactly when it is someone else's; otherwise the caller's order, its item rows in table order with their multiplicity, and the first payment in table order naming the order, absent exactly when no payment names it |
| OrderRoutes.GetOrderOfOtherUser | server/routes/orders.js:51-57 | another user's order answers 403 and reveals nothing |
| OrderRoutes.PatchChecksPrecedeWrites | server/routes/orders.js:94-109 | the 404 and 403 checks come first and write nothing |
| OrderRoutes.CancelIff | server/routes/orders.js:111-137 | a request succeeds exactly when the order exists, is the caller's, the status asked for is cancelled, and the order is not already cancelled |
| OrderRoutes.PatchStatusEffect | server/routes/orders.js:86-146 | definition of the route's effect: the 404 and 403 checks, then the cancellation of a cancellable order with its audit entry, and 400 otherwise |
| OrderRoutes.CancelEffect | server/routes/orders.js:111-131 | a cancellation sets the order's statuses to (cancelled, cancelled), leaves every other order alone and appends exactly one audit entry with the old and new status |
| OrderRoutes.RejectedPatchChangesNothing | server/routes/orders.js:132-137 | any other request for the caller's order answers 400 and changes nothing |
| OrderRoutes.PatchPreservesValid | server/routes/orders.js:86-146 | the route keeps the tables valid |
| OrderRoutes.PatchOrderStatus | server/routes/orders.js:86-146 | the handler's tables and answer are PatchStatusEffect's |
| OrderRoutes.CancelOrder | server/routes/orders.js:111-131 | the status update by id, then the audit entry; the answer is the updated row |
| Dogs.HandleAddToCart | frontend/src/pages/Dogs.tsx:108-116 | the entry copies the dog's id, name, price and image, with category "dog" |
| Dogs.DogSizes | frontend/src/pages/Dogs.tsx:22-95 | the lower-cased size of each listed dog |
| Dogs.AllShowsEveryDog | frontend/src/pages/Dogs.tsx:104-106 | 'all' shows every dog, in order |
| Dogs.FilteredDogsInOrder | frontend/src/pages/Dogs.tsx:104-106 | every category shows its dogs in listed order |
| Dogs.FilteredDogsSpec | frontend/src/pages/Dogs.tsx:104-106 | any other category shows exactly the dogs whose lower-cased size is the category |
| Dogs.FilteredDogs | frontend/src/pages/Dogs.tsx:104-106 | definition of `filteredDogs`: the whole list for 'all', otherwise the dogs whose lower-cased size is the category |
| Dogs.SmallDogs | frontend/src/pages/Dogs.tsx:97-106 | 'small' shows Ruby |
| Dogs.MediumDogs | frontend/src/pages/Dogs.tsx:97-106 | 'medium' shows Luna and Charlie |
| Dogs.LargeDogs | frontend/src/pages/Dogs.tsx:97-106 | 'large' shows Buddy, Max and Bella |
| Dogs.UnknownSizeShowsNothing | frontend/src/pages/Dogs.tsx:104-106 | any category other than the four buttons shows nothing |
| Dogs.SizeFiltersDisjoint | frontend/src/pages/Dogs.tsx:97-106 | no dog shows under two size buttons |
| Dogs.SizeFiltersCover | frontend/src/pages/Dogs.tsx:97-106 | the three size buttons together show exactly the listed dogs, and their counts add up to the list's |
| Cats.HandleAddToCart | frontend/src/pages/Cats.tsx:112-120 | the entry copies the cat's id, name, price and image, with category "cat" |
| Cats.CatAges | frontend/src/pages/Cats.tsx:107 | Luna ('1 year') and Cleo ('6 months') are kittens; '1.5 years' and the older ages are not |
| Cats.IsKitten | frontend/src/pages/Cats.tsx:107 | definition of the kitten rule: the age mentions 'months' or is exactly '1 year' |
| Cats.CatCoats | frontend/src/pages/Cats.tsx:109-110 | each cat's breed is in exactly one of the two coat lists |
| Cats.AllShowsEveryCat | frontend/src/pages/Cats.tsx:104-106 | 'all' shows every cat, in order |
| Cats.FilteredCatsInOrder | frontend/src/pages/Cats.tsx:104-110 | every category shows its cats in listed order |
| Cats.FilteredCatsSpec | frontend/src/pages/Cats.tsx:104-110 | kittens, longhair and every other category show exactly the cats their rule selects |
| Cats.FilteredCats | frontend/src/pages/Cats.tsx:104-110 | definition of `filteredCats`: the whole list for 'all', the kittens, the long-hair breeds, and the short-hair breeds for every other category |
| Cats.Kittens | frontend/src/pages/Cats.tsx:107 | 'kittens' shows Luna and Cleo |
| Cats.Longhair | frontend/src/pages/Cats.tsx:109 | 'longhair' shows Whiskers, Shadow and Cleo |
| Cats.Shorthair | frontend/src/pages/Cats.tsx:110 | 'shorthair', and any category the page does not know, shows Luna, Mittens and Felix |
| Cats.CoatFiltersPartition | frontend/src/pages/Cats.tsx:109-110 | no cat is in both coat lists; together they show exactly the listed cats, and their counts add up to the list's |
| Adopt.HandleContactClick | frontend/src/pages/Adopt.tsx:128-131 | selects the pet and opens the dialog; the species filter stays |
| Adopt.ContactClickReplaces | frontend/src/pages/Adopt.tsx:128-131 | a second click replaces the selected pet; clicking the same pet again changes nothing |
| Adopt.ContactKeepsList | frontend/src/pages/Adopt.tsx:124-131 | opening the dialog leaves the list shown unchanged |
| Adopt.AllShowsEveryPet | frontend/src/pages/Adopt.tsx:124-126 | 'all' shows every pet, in order |
| Adopt.FilteredPetsInOrder | frontend/src/pages/Adopt.tsx:124-126 | every selection shows its pets in listed order |
| Adopt.FilteredPetsSpec | frontend/src/pages/Adopt.tsx:124-126 | any other selection shows exactly the pets of that species |
| Adopt.FilteredPets | frontend/src/pages/Adopt.tsx:124-126 | definition of `filteredPets`: the whole list for 'all', otherwise the pets of that species |
| Adopt.DogsUpForAdoption | frontend/src/pages/Adopt.tsx:25-126 | 'Dog' shows Rocky, Bailey and Sadie |
| Adopt.CatsUpForAdoption | frontend/src/pages/Adopt.tsx:25-126 | 'Cat' shows Mia, Oliver and Smokey |
| Adopt.UnknownSpeciesShowsNothing | frontend/src/pages/Adopt.tsx:124-126 | a species no pet has shows nothing |
| Adopt.SpeciesFiltersPartition | frontend/src/pages/Adopt.tsx:118-126 | no pet shows under both buttons; together they show exactly the listed pets, and their counts add up to the list's |

## Left out

- Payment processor calls: the session, intent and event objects are reduced to the fields the handlers read. Their answers are inputs. The line items and metadata sent are modelled only as `LineItems`.
- The `db.query` helper: each tagged `db.query` statement in the routes is modelled as the SQL it spells out. How `server/config/database.js:22-29` forwards a tagged call's arguments to the driver is not modelled, and the driver is not part of this model.
- The SQL engine: statements are modelled by their effect on the tables. The text of the SQL is modelled only for `users.update`.
- Database failures other than the missing-quantity insert, and the handlers' catch branches for them. The 500 answers that are modelled are processor failures and the missing quantity.
- Timestamps (`created_at`, `updated_at`, `NOW()`): they are not columns of the model. The clock is the input `now`, used for `processed_at` and session expiry. `ORDER BY created_at DESC` is modelled as reverse table order, on the assumption that creation times increase along the table.
- The schema is not part of this model. The column defaults it must supply are assumed: 'pending' for both order statuses and for a payment's status, and `is_active = true` for a session.
- Floating point: amounts and prices are exact reals. The rounding of `Math.round(x * 100)` is modelled, but binary floating-point error is not.
- Authentication (JWT middleware, `req.user`) is left out: the caller's id is an input.
- Request address, user agent and e-mail: left out. So are address blobs, notes, cardholder name and billing e-mail; none of them decides a branch.
- The order number's clock and randomness: the number is an input.
- The payment history routes and the two processor test routes do no ledger writes and are left out. So are the startup checks and log lines.
- `Promise.all`: the item inserts of create-checkout-session, and the item lookups of `GET /`, are modelled as running one after another in cart order.
- Non-numeric `:orderId` parameters: left out. The id is a `nat`.
- Quoting of the values spliced into `orderItems.create`'s SQL: left out. The model writes each tuple as given.
- Text.IsEmail: a simplified reading of validator.js's `isEmail` (one `@`, no spaces, a non-empty local part, a dot inside the domain). It is weaker than the library's full grammar.
- Text.ToLower, Text.ToUpper: case mapping covers the ASCII letters only, which is all the catalog data and currency codes use.
- Database.Db.UpdateOrderStatus: does not return the updated rows (`RETURNING *`). The cancellation route builds its answer from the row it read, and `CancelEffect` proves that this is the row the update writes.
- The cart context behind `addToCart`, React rendering, the category button state and the contact dialog's contents: not part of this model. The pages are modelled by the lists they show and the values their handlers pass on.
