/**
 * The ledger tables of server/config/database.js held in memory, and the helper layer
 * over them. Each table is a sequence of rows in insertion order, so "the first matching
 * row" (`LIMIT 1`) is the first in table order. Order and payment ids are serial: a new
 * row's id is the number of rows before it. The pure functions say what each SQL
 * statement does to a table; class Db holds the tables and applies them in place.
 */
module Database {
  import opened Wrappers
  import Rows
  import Text

  datatype OrderStatus = Pending | Confirmed | Processing | Cancelled

  datatype PaymentStatus =
    PayPending | PayProcessing | PaySucceeded | PayFailed | PayRequiresAction | PayCancelled

  /** A row of `orders` (address blobs, notes and timestamps are not modelled). */
  datatype Order = Order(id: nat, userId: nat, orderNumber: string, total: real, currency: string,
                         checkoutSessionId: Option<string>, paymentIntentId: Option<string>,
                         status: OrderStatus, paymentStatus: PaymentStatus)

  /** A row of `order_items`. */
  datatype OrderItem = OrderItem(orderId: nat, petId: string, petName: string, petCategory: string,
                                 petBreed: string, quantity: int, unitPrice: real, totalPrice: real)

  /** A row of `payments`. */
  datatype Payment = Payment(id: nat, orderId: Option<nat>, userId: nat,
                             checkoutSessionId: Option<string>, paymentIntentId: Option<string>,
                             paymentMethodId: Option<string>, amount: real, currency: string,
                             status: PaymentStatus, failureReason: Option<string>,
                             processedAt: Option<int>, cardLastFour: Option<string>,
                             cardBrand: Option<string>)

  /** A row of `user_sessions`; `expiresAt` and the clock are abstract instants. */
  datatype UserSession = UserSession(userId: nat, tokenHash: string, expiresAt: int, isActive: bool)

  /** A row of `users`: its id and its other columns by name. */
  datatype User = User(id: nat, columns: map<string, string>)

  datatype EntityType = OrderEntity | PaymentEntity

  /** The action tag of an audit entry together with the values it records. */
  datatype AuditAction =
    | CheckoutSessionCreated(orderNumber: string, amount: real, currency: string, sessionId: string)
    | PaymentVerified(sessionId: string, processorStatus: string, orderStatus: OrderStatus, verifiedAmount: real)
    | PaymentIntentCreated(intentOrderNumber: string, intentAmount: real, intentCurrency: string, intentId: string)
    | PaymentConfirmed(confirmedIntentId: string, paymentStatus: PaymentStatus, confirmedAmount: real)
    | OrderCancelled(oldStatus: OrderStatus, newStatus: OrderStatus)

  /** A row of the append-only `audit_logs` (request address and agent are not modelled). */
  datatype AuditEntry = AuditEntry(userId: nat, entity: EntityType, entityId: nat, action: AuditAction)

  /** The whole database. */
  datatype Tables = Tables(users: seq<User>, orders: seq<Order>, items: seq<OrderItem>,
                           payments: seq<Payment>, sessions: seq<UserSession>, audit: seq<AuditEntry>)

  const EmptyTables := Tables([], [], [], [], [], [])

  ghost predicate OrderIdsSerial(orders: seq<Order>)
  {
    forall i :: 0 <= i < |orders| ==> orders[i].id == i
  }

  ghost predicate PaymentIdsSerial(payments: seq<Payment>)
  {
    forall i :: 0 <= i < |payments| ==> payments[i].id == i
  }

  /** Serial ids, and every item and every payment that names an order names an existing one. */
  ghost predicate Valid(t: Tables)
  {
    && OrderIdsSerial(t.orders)
    && PaymentIdsSerial(t.payments)
    && (forall k :: 0 <= k < |t.items| ==> t.items[k].orderId < |t.orders|)
    && (forall k :: 0 <= k < |t.payments| && t.payments[k].orderId.Some? ==>
          t.payments[k].orderId.value < |t.orders|)
  }

  // The column defaults of the schema, which is not part of this model: a row inserted
  // without these columns gets these values.
  const DefaultOrderStatus: OrderStatus := Pending
  const DefaultOrderPaymentStatus: PaymentStatus := PayPending
  const DefaultPaymentStatus: PaymentStatus := PayPending

  // ---------------------------------------------------------------- orders

  /** The row an INSERT into `orders` adds: the next serial id, no processor references yet. */
  function NewOrder(orders: seq<Order>, userId: nat, orderNumber: string, total: real, currency: string,
                    status: OrderStatus, paymentStatus: PaymentStatus): Order
  {
    Order(|orders|, userId, orderNumber, total, currency, None, None, status, paymentStatus)
  }

  /** The WHERE clause of an UPDATE on `orders`. */
  datatype OrderKey = ById(id: nat) | BySession(sessionId: string) | ByIntent(intentId: string)

  predicate Matches(o: Order, key: OrderKey)
  {
    match key
    case ById(id) => o.id == id
    case BySession(s) => o.checkoutSessionId == Some(s)
    case ByIntent(i) => o.paymentIntentId == Some(i)
  }

  /** The SET clause of an UPDATE on `orders`. */
  datatype OrderPatch =
    | SetStatus(status: OrderStatus, paymentStatus: Option<PaymentStatus>)
    | SetCheckoutSession(sessionId: string)
    | SetPaymentIntent(intentId: string)

  /** One row after a SET clause; a payment status that is absent leaves the column alone. */
  function ApplyOrderPatch(o: Order, patch: OrderPatch): (r: Order)
    ensures r.id == o.id && r.userId == o.userId && r.orderNumber == o.orderNumber
    ensures r.total == o.total && r.currency == o.currency
    ensures patch.SetStatus? ==> r.status == patch.status
    ensures patch.SetStatus? ==> r.paymentStatus == patch.paymentStatus.GetOr(o.paymentStatus)
    ensures patch.SetStatus? ==> r.checkoutSessionId == o.checkoutSessionId && r.paymentIntentId == o.paymentIntentId
    ensures patch.SetCheckoutSession? ==> r == o.(checkoutSessionId := Some(patch.sessionId))
    ensures patch.SetPaymentIntent? ==> r == o.(paymentIntentId := Some(patch.intentId))
  {
    match patch
    case SetStatus(s, ps) => o.(status := s, paymentStatus := ps.GetOr(o.paymentStatus))
    case SetCheckoutSession(sid) => o.(checkoutSessionId := Some(sid))
    case SetPaymentIntent(pid) => o.(paymentIntentId := Some(pid))
  }

  /** `UPDATE orders SET <patch> WHERE <key>`: every matching row is patched, the others are kept. */
  function UpdateOrders(orders: seq<Order>, key: OrderKey, patch: OrderPatch): (r: seq<Order>)
    ensures |r| == |orders|
    ensures forall i :: 0 <= i < |orders| && Matches(orders[i], key) ==> r[i] == ApplyOrderPatch(orders[i], patch)
    ensures forall i :: 0 <= i < |orders| && !Matches(orders[i], key) ==> r[i] == orders[i]
  {
    if |orders| == 0 then []
    else
      var head := if Matches(orders[0], key) then ApplyOrderPatch(orders[0], patch) else orders[0];
      [head] + UpdateOrders(orders[1..], key, patch)
  }

  /** An order update keeps the tables valid: ids and the table's length are unchanged. */
  lemma UpdateOrdersKeepsValid(t: Tables, key: OrderKey, patch: OrderPatch)
    requires Valid(t)
    ensures Valid(t.(orders := UpdateOrders(t.orders, key, patch)))
  {
  }

  /** With serial ids, an update by id rewrites exactly the row at that position. */
  lemma UpdateOrderById(orders: seq<Order>, id: nat, patch: OrderPatch)
    requires OrderIdsSerial(orders)
    ensures id < |orders| ==> UpdateOrders(orders, ById(id), patch) == orders[id := ApplyOrderPatch(orders[id], patch)]
    ensures id >= |orders| ==> UpdateOrders(orders, ById(id), patch) == orders
  {
    var r := UpdateOrders(orders, ById(id), patch);
    if id < |orders| {
      assert forall i :: 0 <= i < |orders| ==> r[i] == orders[id := ApplyOrderPatch(orders[id], patch)][i];
    } else {
      assert forall i :: 0 <= i < |orders| ==> r[i] == orders[i];
    }
  }

  /** Updating, by its id, the order just appended patches that order and nothing before it. */
  lemma UpdateAppendedOrder(orders: seq<Order>, o: Order, patch: OrderPatch)
    requires OrderIdsSerial(orders) && o.id == |orders|
    ensures UpdateOrders(orders + [o], ById(o.id), patch) == orders + [ApplyOrderPatch(o, patch)]
  {
    var os := orders + [o];
    assert OrderIdsSerial(os);
    UpdateOrderById(os, o.id, patch);
    assert os[o.id := ApplyOrderPatch(o, patch)] == orders + [ApplyOrderPatch(o, patch)];
  }

  /** An update never changes ids, so serial ids stay serial. */
  lemma UpdateOrdersKeepsIds(orders: seq<Order>, key: OrderKey, patch: OrderPatch)
    requires OrderIdsSerial(orders)
    ensures OrderIdsSerial(UpdateOrders(orders, key, patch))
  {
  }

  /**
   * `orders.updateStatus(id, status, payment_status)`: the status is always written; the
   * payment status only when one is supplied (database.js takes its truthiness).
   */
  lemma UpdateStatusWritesPaymentStatusOnlyWhenGiven(orders: seq<Order>, id: nat, status: OrderStatus,
                                                     paymentStatus: Option<PaymentStatus>, i: nat)
    requires i < |orders| && orders[i].id == id
    ensures UpdateOrders(orders, ById(id), SetStatus(status, paymentStatus))[i].status == status
    ensures paymentStatus.Some? ==>
      UpdateOrders(orders, ById(id), SetStatus(status, paymentStatus))[i].paymentStatus == paymentStatus.value
    ensures paymentStatus.None? ==>
      UpdateOrders(orders, ById(id), SetStatus(status, paymentStatus))[i].paymentStatus == orders[i].paymentStatus
  {
  }

  /** `orders.findById`: the first row with the id, or null. */
  function FindOrderById(orders: seq<Order>, id: nat): (r: Option<Order>)
    ensures r.Some? ==> r.value in orders && r.value.id == id
    ensures r.Some? ==> exists i :: 0 <= i < |orders| && orders[i] == r.value && forall j :: 0 <= j < i ==> orders[j].id != id
    ensures r.None? <==> forall i :: 0 <= i < |orders| ==> orders[i].id != id
  {
    Rows.First(orders, (o: Order) => o.id == id)
  }

  /** With serial ids the lookup by id is the row at that position. */
  lemma FindOrderByIdSerial(orders: seq<Order>, id: nat)
    requires OrderIdsSerial(orders)
    ensures FindOrderById(orders, id) == if id < |orders| then Some(orders[id]) else None
  {
    var p := (o: Order) => o.id == id;
    if id < |orders| {
      assert p(orders[id]);
      var k := Rows.FirstIndex(orders, p);
      assert k.Some? && orders[k.value].id == id;
    }
  }

  /** The order a checkout session belongs to (`WHERE checkout_session_id = $1 LIMIT 1`). */
  function FindOrderBySession(orders: seq<Order>, sessionId: string): (r: Option<Order>)
    ensures r.Some? ==> r.value in orders && r.value.checkoutSessionId == Some(sessionId)
    ensures r.Some? ==> exists i :: 0 <= i < |orders| && orders[i] == r.value &&
                                    forall j :: 0 <= j < i ==> orders[j].checkoutSessionId != Some(sessionId)
    ensures r.None? <==> forall i :: 0 <= i < |orders| ==> orders[i].checkoutSessionId != Some(sessionId)
  {
    Rows.First(orders, (o: Order) => o.checkoutSessionId == Some(sessionId))
  }

  /** The caller's order for a checkout session (`... AND user_id = $2 LIMIT 1`). */
  function FindOwnedOrderBySession(orders: seq<Order>, sessionId: string, userId: nat): (r: Option<Order>)
    ensures r.Some? ==> r.value in orders && r.value.checkoutSessionId == Some(sessionId) && r.value.userId == userId
    ensures r.Some? ==> exists i :: 0 <= i < |orders| && orders[i] == r.value &&
                                    forall j :: 0 <= j < i ==> !(orders[j].checkoutSessionId == Some(sessionId) && orders[j].userId == userId)
    ensures r.None? <==> forall i :: 0 <= i < |orders| ==>
      !(orders[i].checkoutSessionId == Some(sessionId) && orders[i].userId == userId)
  {
    Rows.First(orders, (o: Order) => o.checkoutSessionId == Some(sessionId) && o.userId == userId)
  }

  /**
   * A status update keeps every row's session, user and money columns, so the caller's
   * order for a session is found at the same row afterwards.
   */
  lemma {:induction false} StatusUpdateKeepsOwnedLookup(orders: seq<Order>, key: OrderKey, status: OrderStatus,
                                                       paymentStatus: Option<PaymentStatus>, sessionId: string, userId: nat)
    ensures var before := FindOwnedOrderBySession(orders, sessionId, userId);
      var after := FindOwnedOrderBySession(UpdateOrders(orders, key, SetStatus(status, paymentStatus)), sessionId, userId);
      && (after.Some? <==> before.Some?)
      && (after.Some? ==> after.value.id == before.value.id && after.value.total == before.value.total
                          && after.value.currency == before.value.currency)
  {
    var r := UpdateOrders(orders, key, SetStatus(status, paymentStatus));
    var p := (o: Order) => o.checkoutSessionId == Some(sessionId) && o.userId == userId;
    assert forall i :: 0 <= i < |r| ==> p(r[i]) == p(orders[i]);
    FirstIndexAgrees(r, orders, p);
  }

  /** Likewise for the lookup of an order by its session alone. */
  lemma {:induction false} StatusUpdateKeepsSessionLookup(orders: seq<Order>, key: OrderKey, status: OrderStatus,
                                                         paymentStatus: Option<PaymentStatus>, sessionId: string)
    ensures var before := FindOrderBySession(orders, sessionId);
      var after := FindOrderBySession(UpdateOrders(orders, key, SetStatus(status, paymentStatus)), sessionId);
      && (after.Some? <==> before.Some?)
      && (after.Some? ==> after.value.id == before.value.id && after.value.total == before.value.total
                          && after.value.currency == before.value.currency && after.value.userId == before.value.userId)
  {
    var r := UpdateOrders(orders, key, SetStatus(status, paymentStatus));
    var p := (o: Order) => o.checkoutSessionId == Some(sessionId);
    assert forall i :: 0 <= i < |r| ==> p(r[i]) == p(orders[i]);
    FirstIndexAgrees(r, orders, p);
  }

  /** The order a payment intent belongs to (`WHERE payment_intent_id = $1 LIMIT 1`). */
  function FindOrderByIntent(orders: seq<Order>, intentId: string): (r: Option<Order>)
    ensures r.Some? ==> r.value in orders && r.value.paymentIntentId == Some(intentId)
    ensures r.Some? ==> exists i :: 0 <= i < |orders| && orders[i] == r.value &&
                                    forall j :: 0 <= j < i ==> orders[j].paymentIntentId != Some(intentId)
    ensures r.None? <==> forall i :: 0 <= i < |orders| ==> orders[i].paymentIntentId != Some(intentId)
  {
    Rows.First(orders, (o: Order) => o.paymentIntentId == Some(intentId))
  }

  /**
   * `orders.findByUserId`: the user's orders, newest first (`ORDER BY created_at DESC`,
   * with creation times increasing in table order).
   */
  function FindOrdersByUser(orders: seq<Order>, userId: nat): (r: seq<Order>)
    ensures forall o :: o in r <==> o in orders && o.userId == userId
  {
    var mine := Rows.Filter(orders, (o: Order) => o.userId == userId);
    forall o ensures o in mine <==> o in orders && o.userId == userId {
      Rows.FilterMembership(orders, (o: Order) => o.userId == userId, o);
    }
    var r := Rows.Reverse(mine);
    assert forall o :: o in r <==> o in mine by {
      forall o | o in mine ensures o in r {
        var i :| 0 <= i < |mine| && mine[i] == o;
        assert r[|mine| - 1 - i] == o;
      }
    }
    r
  }

  /**
   * With serial ids the user's orders come newest first: each one listed was inserted after
   * every one listed below it.
   */
  lemma FindOrdersByUserNewestFirst(orders: seq<Order>, userId: nat)
    requires OrderIdsSerial(orders)
    ensures var r := FindOrdersByUser(orders, userId);
      forall i, j :: 0 <= i < j < |r| ==> r[i].id > r[j].id
  {
    var key := (o: Order) => o.id as int;
    var p := (o: Order) => o.userId == userId;
    assert Rows.IncreasingBy(orders, key);
    Rows.FilterKeepsIncreasing(orders, p, key);
    var mine := Rows.Filter(orders, p);
    var r := Rows.Reverse(mine);
    assert r == FindOrdersByUser(orders, userId);
    forall i, j | 0 <= i < j < |r| ensures r[i].id > r[j].id {
      assert r[i] == mine[|mine| - 1 - i] && r[j] == mine[|mine| - 1 - j];
      assert key(mine[|mine| - 1 - j]) < key(mine[|mine| - 1 - i]);
    }
  }

  // ---------------------------------------------------------------- order items

  /** `orderItems.findByOrderId`: the order's items in table order. */
  function FindItemsByOrder(items: seq<OrderItem>, orderId: nat): (r: seq<OrderItem>)
    ensures forall it :: it in r <==> it in items && it.orderId == orderId
    ensures forall it :: multiset(r)[it] == if it.orderId == orderId then multiset(items)[it] else 0
    ensures Rows.IsSubsequence(r, items)
  {
    forall it ensures multiset(Rows.Filter(items, (x: OrderItem) => x.orderId == orderId))[it]
                      == if it.orderId == orderId then multiset(items)[it] else 0 {
      Rows.FilterMultiplicity(items, (x: OrderItem) => x.orderId == orderId, it);
    }
    forall it ensures it in Rows.Filter(items, (x: OrderItem) => x.orderId == orderId) <==> it in items && it.orderId == orderId {
      Rows.FilterMembership(items, (x: OrderItem) => x.orderId == orderId, it);
    }
    Rows.FilterIsSubsequence(items, (x: OrderItem) => x.orderId == orderId);
    Rows.Filter(items, (x: OrderItem) => x.orderId == orderId)
  }

  // ---------------------------------------------------------------- payments

  /** An INSERT into `payments`: the draft row is appended with the next serial id. */
  function AppendPayment(payments: seq<Payment>, draft: Payment): (r: seq<Payment>)
    ensures |r| == |payments| + 1 && r[..|payments|] == payments
    ensures r[|payments|] == draft.(id := |payments|)
  {
    payments + [draft.(id := |payments|)]
  }

  lemma AppendPaymentKeepsIds(payments: seq<Payment>, draft: Payment)
    requires PaymentIdsSerial(payments)
    ensures PaymentIdsSerial(AppendPayment(payments, draft))
  {
  }

  /** Appending a payment that names an existing order, or none, keeps the tables valid. */
  lemma AppendPaymentKeepsValid(t: Tables, draft: Payment)
    requires Valid(t) && (draft.orderId.Some? ==> draft.orderId.value < |t.orders|)
    ensures Valid(t.(payments := AppendPayment(t.payments, draft)))
  {
    var ps := AppendPayment(t.payments, draft);
    assert forall k :: 0 <= k < |t.payments| ==> ps[k] == t.payments[k];
  }

  /** A column a SET clause either leaves alone or overwrites. */
  datatype Assign<T> = Keep | Put(value: T)

  function AssignTo<T>(a: Assign<T>, old_: T): T
  {
    match a
    case Keep => old_
    case Put(v) => v
  }

  /** The SET clause of an UPDATE on `payments`. */
  datatype PaymentPatch = PaymentPatch(status: PaymentStatus, failureReason: Assign<Option<string>>,
                                       processedAt: Assign<Option<int>>)

  /**
   * The SET clause of `payments.updateStatus(id, status, failure_reason = null)`:
   * the processing time is set on success and cleared otherwise; the failure reason is
   * always overwritten.
   */
  function StatusUpdate(status: PaymentStatus, failureReason: Option<string>, now: int): PaymentPatch
  {
    PaymentPatch(status, Put(failureReason), Put(if status == PaySucceeded then Some(now) else None))
  }

  function ApplyPaymentPatch(p: Payment, patch: PaymentPatch): (r: Payment)
    ensures r.id == p.id && r.orderId == p.orderId && r.userId == p.userId
    ensures r.amount == p.amount && r.currency == p.currency && r.paymentIntentId == p.paymentIntentId
    ensures r.status == patch.status
    ensures r.failureReason == AssignTo(patch.failureReason, p.failureReason)
    ensures r.processedAt == AssignTo(patch.processedAt, p.processedAt)
  {
    p.(status := patch.status,
       failureReason := AssignTo(patch.failureReason, p.failureReason),
       processedAt := AssignTo(patch.processedAt, p.processedAt))
  }

  predicate HasIntent(p: Payment, intentId: string)
  {
    p.paymentIntentId == Some(intentId)
  }

  /** `UPDATE payments SET <patch> WHERE stripe_payment_intent_id = $1`. */
  function UpdatePayments(payments: seq<Payment>, intentId: string, patch: PaymentPatch): (r: seq<Payment>)
    ensures |r| == |payments|
    ensures forall i :: 0 <= i < |payments| && HasIntent(payments[i], intentId) ==>
      r[i] == ApplyPaymentPatch(payments[i], patch)
    ensures forall i :: 0 <= i < |payments| && !HasIntent(payments[i], intentId) ==> r[i] == payments[i]
  {
    if |payments| == 0 then []
    else
      var head := if HasIntent(payments[0], intentId) then ApplyPaymentPatch(payments[0], patch) else payments[0];
      [head] + UpdatePayments(payments[1..], intentId, patch)
  }

  /**
   * `payments.updateStatus`: on every row of the intent the status is written, the
   * processing time is present exactly when the status is 'succeeded', and the failure
   * reason becomes the given one (null by default); rows of other intents are untouched.
   */
  lemma StatusUpdateEffect(payments: seq<Payment>, intentId: string, status: PaymentStatus,
                           failureReason: Option<string>, now: int, i: nat)
    requires i < |payments|
    ensures var r := UpdatePayments(payments, intentId, StatusUpdate(status, failureReason, now));
      if HasIntent(payments[i], intentId) then
        && r[i].status == status
        && (r[i].processedAt.Some? <==> status == PaySucceeded)
        && (status == PaySucceeded ==> r[i].processedAt == Some(now))
        && r[i].failureReason == failureReason
        && r[i].amount == payments[i].amount && r[i].orderId == payments[i].orderId
      else r[i] == payments[i]
  {
  }

  lemma UpdatePaymentsKeepsIds(payments: seq<Payment>, intentId: string, patch: PaymentPatch)
    requires PaymentIdsSerial(payments)
    ensures PaymentIdsSerial(UpdatePayments(payments, intentId, patch))
  {
  }

  /** `payments.findByIntentId`: the first payment of the intent, or null. */
  function FindPaymentByIntent(payments: seq<Payment>, intentId: string): (r: Option<Payment>)
    ensures r.Some? ==> r.value in payments && r.value.paymentIntentId == Some(intentId)
    ensures r.Some? ==> exists i :: 0 <= i < |payments| && payments[i] == r.value &&
                                    forall j :: 0 <= j < i ==> payments[j].paymentIntentId != Some(intentId)
    ensures r.None? <==> forall i :: 0 <= i < |payments| ==> payments[i].paymentIntentId != Some(intentId)
  {
    Rows.First(payments, (p: Payment) => p.paymentIntentId == Some(intentId))
  }

  /** The first payment of an order (`SELECT * FROM payments WHERE order_id = $1 LIMIT 1`). */
  function FindPaymentByOrder(payments: seq<Payment>, orderId: nat): (r: Option<Payment>)
    ensures r.Some? ==> r.value in payments && r.value.orderId == Some(orderId)
    ensures r.Some? ==> exists i :: 0 <= i < |payments| && payments[i] == r.value &&
                                    forall j :: 0 <= j < i ==> payments[j].orderId != Some(orderId)
    ensures r.None? <==> forall i :: 0 <= i < |payments| ==> payments[i].orderId != Some(orderId)
  {
    Rows.First(payments, (p: Payment) => p.orderId == Some(orderId))
  }

  // ---------------------------------------------------------------- sessions

  predicate Usable(s: UserSession, tokenHash: string, now: int)
  {
    s.tokenHash == tokenHash && s.isActive && s.expiresAt > now
  }

  /** `sessions.findByToken`: the first active, unexpired session with the hash, or null. */
  function FindSessionByToken(sessions: seq<UserSession>, tokenHash: string, now: int): (r: Option<UserSession>)
    ensures r.Some? ==> r.value in sessions && r.value.tokenHash == tokenHash && r.value.isActive && r.value.expiresAt > now
    ensures r.Some? ==> exists i :: 0 <= i < |sessions| && sessions[i] == r.value &&
                                    forall j :: 0 <= j < i ==> !Usable(sessions[j], tokenHash, now)
    ensures r.None? <==> forall i :: 0 <= i < |sessions| ==> !Usable(sessions[i], tokenHash, now)
  {
    Rows.First(sessions, (s: UserSession) => Usable(s, tokenHash, now))
  }

  /** `sessions.deactivate`: `UPDATE user_sessions SET is_active = false WHERE token_hash = $1`. */
  function Deactivate(sessions: seq<UserSession>, tokenHash: string): (r: seq<UserSession>)
    ensures |r| == |sessions|
    ensures forall i :: 0 <= i < |sessions| && sessions[i].tokenHash == tokenHash ==>
      r[i] == sessions[i].(isActive := false)
    ensures forall i :: 0 <= i < |sessions| && sessions[i].tokenHash != tokenHash ==> r[i] == sessions[i]
  {
    if |sessions| == 0 then []
    else
      var head := if sessions[0].tokenHash == tokenHash then sessions[0].(isActive := false) else sessions[0];
      [head] + Deactivate(sessions[1..], tokenHash)
  }

  /** After a token is deactivated, looking it up finds nothing, at any time. */
  lemma DeactivatedTokenNotFound(sessions: seq<UserSession>, tokenHash: string, now: int)
    ensures FindSessionByToken(Deactivate(sessions, tokenHash), tokenHash, now) == None
  {
    var r := Deactivate(sessions, tokenHash);
    assert forall i :: 0 <= i < |r| ==> !Usable(r[i], tokenHash, now);
  }

  /** Deactivating one token leaves the lookups of every other token as they were. */
  lemma {:induction false} DeactivateKeepsOtherTokens(sessions: seq<UserSession>, tokenHash: string,
                                                      other: string, now: int)
    requires other != tokenHash
    ensures FindSessionByToken(Deactivate(sessions, tokenHash), other, now) == FindSessionByToken(sessions, other, now)
  {
    var r := Deactivate(sessions, tokenHash);
    var p := (s: UserSession) => Usable(s, other, now);
    assert forall i :: 0 <= i < |sessions| ==> p(r[i]) == p(sessions[i]);
    FirstIndexAgrees(r, sessions, p);
    if Rows.FirstIndex(sessions, p).Some? {
      var k := Rows.FirstIndex(sessions, p).value;
      assert r[k] == sessions[k];
    }
  }

  /** Two tables of one length on which a condition agrees row by row have the same first match. */
  lemma {:induction false} FirstIndexAgrees<T>(a: seq<T>, b: seq<T>, p: T -> bool)
    requires |a| == |b|
    requires forall i :: 0 <= i < |a| ==> p(a[i]) == p(b[i])
    ensures Rows.FirstIndex(a, p) == Rows.FirstIndex(b, p)
  {
    if |a| > 0 && !p(a[0]) {
      FirstIndexAgrees(a[1..], b[1..], p);
    }
  }

  // ---------------------------------------------------------------- users

  /** The columns `users.findById` selects besides the id: everything but the password hash. */
  const ProfileColumns: set<string> :=
    {"full_name", "email", "phone", "address", "city", "country", "postal_code", "is_verified", "created_at"}

  /** `users.findByEmail`: the first user with the e-mail, all columns, or null. */
  function FindUserByEmail(users: seq<User>, email: string): (r: Option<User>)
    ensures r.Some? ==> r.value in users && "email" in r.value.columns && r.value.columns["email"] == email
    ensures r.Some? ==> exists i :: 0 <= i < |users| && users[i] == r.value &&
                                    forall j :: 0 <= j < i ==> !("email" in users[j].columns && users[j].columns["email"] == email)
    ensures r.None? <==> forall i :: 0 <= i < |users| ==>
      !("email" in users[i].columns && users[i].columns["email"] == email)
  {
    Rows.First(users, (u: User) => "email" in u.columns && u.columns["email"] == email)
  }

  /** `users.findById`: the first user with the id, restricted to the profile columns, or null. */
  function FindUserById(users: seq<User>, id: nat): (r: Option<User>)
    ensures r.Some? ==> r.value.id == id && "password_hash" !in r.value.columns
    ensures r.Some? ==> exists i :: 0 <= i < |users| && users[i].id == id && (forall j :: 0 <= j < i ==> users[j].id != id)
                                    && r.value.columns.Keys == users[i].columns.Keys * ProfileColumns
                                    && forall c :: c in r.value.columns ==> r.value.columns[c] == users[i].columns[c]
    ensures r.None? <==> forall i :: 0 <= i < |users| ==> users[i].id != id
  {
    match Rows.First(users, (u: User) => u.id == id)
    case None => None
    case Some(u) =>
      Some(User(u.id, map c | c in u.columns && c in ProfileColumns :: u.columns[c]))
  }

  /** The keys of an update object, in order (`Object.keys`). */
  function Fields(data: seq<(string, string)>): (r: seq<string>)
    ensures |r| == |data| && forall i :: 0 <= i < |data| ==> r[i] == data[i].0
  {
    if |data| == 0 then [] else [data[0].0] + Fields(data[1..])
  }

  /** The pieces `field = $k` of a SET clause, numbering placeholders from `k`. */
  function Assignments(fields: seq<string>, k: nat): (r: seq<string>)
    ensures |r| == |fields|
    decreases |fields|
  {
    if |fields| == 0 then [] else [fields[0] + " = $" + Text.NatToString(k)] + Assignments(fields[1..], k + 1)
  }

  /** The i-th piece assigns the i-th field from placeholder `k + i`. */
  lemma {:induction false} AssignmentAt(fields: seq<string>, k: nat, i: nat)
    requires i < |fields|
    ensures Assignments(fields, k)[i] == fields[i] + " = $" + Text.NatToString(k + i)
    decreases i
  {
    if i > 0 {
      AssignmentAt(fields[1..], k + 1, i - 1);
      assert Assignments(fields, k)[i] == Assignments(fields[1..], k + 1)[i - 1];
      assert fields[1..][i - 1] == fields[i] && k + 1 + (i - 1) == k + i;
    }
  }

  /** `fields.map((field, index) => `${field} = $${index + 2}`).join(', ')`. */
  function SetClause(fields: seq<string>): string
  {
    Text.Join(Assignments(fields, 2), ", ")
  }

  /**
   * The statement `users.update` sends, or None when there are no fields (it then returns
   * null without querying). Parameter $1 is the id; the values follow in field order.
   */
  function UpdateUserQuery(fields: seq<string>): (r: Option<string>)
    ensures r.None? <==> fields == []
  {
    if |fields| == 0 then None
    else Some("UPDATE users SET " + SetClause(fields) + ", updated_at = NOW() WHERE id = $1 RETURNING *")
  }

  /**
   * Field i of the update is bound to placeholder i + 2, which reads back as i + 2, so with
   * the parameter list `[id, ...values]` it receives value i.
   */
  lemma SetClauseBindsFieldsInOrder(data: seq<(string, string)>, id: string, i: nat)
    requires i < |data|
    ensures var digits := Text.NatToString(i + 2);
      && Assignments(Fields(data), 2)[i] == data[i].0 + " = $" + digits
      && Text.ParseDigits(digits) == i + 2
      && ([id] + seq(|data|, j requires 0 <= j < |data| => data[j].1))[Text.ParseDigits(digits) - 1] == data[i].1
  {
    AssignmentAt(Fields(data), 2, i);
    Text.ParseNatToString(i + 2);
  }

  lemma PlaceholdersTwoAndThree()
    ensures Text.NatToString(2) == "2" && Text.NatToString(3) == "3"
  {
  }

  /** Two fields give "full_name = $2, phone = $3". */
  lemma SetClauseExample()
    ensures SetClause(["full_name", "phone"]) == "full_name = $2, phone = $3"
  {
    var fields := ["full_name", "phone"];
    var a := Assignments(fields, 2);
    AssignmentAt(fields, 2, 0);
    AssignmentAt(fields, 2, 1);
    PlaceholdersTwoAndThree();
    assert a[0] == "full_name = $2" && a[1] == "phone = $3";
    assert Text.Join(a[1..], ", ") == a[1];
    assert Text.Join(a, ", ") == a[0] + ", " + a[1];
  }

  /** The column values of an update object as a map (object keys are distinct). */
  function UpdateMap(data: seq<(string, string)>): (m: map<string, string>)
    ensures forall i :: 0 <= i < |data| ==> data[i].0 in m
    ensures forall k :: k in m ==> exists i :: 0 <= i < |data| && data[i] == (k, m[k])
  {
    if |data| == 0 then map[]
    else
      var rest := UpdateMap(data[..|data| - 1]);
      assert forall i :: 0 <= i < |data| - 1 ==> data[..|data| - 1][i] == data[i];
      rest[data[|data| - 1].0 := data[|data| - 1].1]
  }

  /** The users table after `UPDATE users SET ... WHERE id = $1`. */
  function ApplyUserUpdate(users: seq<User>, id: nat, data: seq<(string, string)>): (r: seq<User>)
    ensures |r| == |users|
    ensures forall i :: 0 <= i < |users| && users[i].id == id ==>
      r[i] == User(id, users[i].columns + UpdateMap(data))
    ensures forall i :: 0 <= i < |users| && users[i].id != id ==> r[i] == users[i]
  {
    var m := UpdateMap(data);
    seq(|users|, i requires 0 <= i < |users| => if users[i].id == id then User(id, users[i].columns + m) else users[i])
  }

  /** The columns `users.create` inserts. */
  const UserInsertColumns: set<string> :=
    {"full_name", "email", "password_hash", "phone", "address", "city", "country", "postal_code"}

  // ---------------------------------------------------------------- the helper object

  /** The database handle: one field per table, updated in place by the helpers. */
  class Db {
    var users: seq<User>
    var orders: seq<Order>
    var items: seq<OrderItem>
    var payments: seq<Payment>
    var sessions: seq<UserSession>
    var audit: seq<AuditEntry>

    function State(): Tables
      reads this
    {
      Tables(users, orders, items, payments, sessions, audit)
    }

    constructor ()
      ensures State() == EmptyTables
    {
      users, orders, items, payments, sessions, audit := [], [], [], [], [], [];
    }

    /** `users.create`: inserts the eight user columns it names and returns id, name and e-mail. */
    method CreateUser(data: map<string, string>) returns (created: User)
      modifies this`users
      ensures users == old(users) + [User(|old(users)|, map c | c in data && c in UserInsertColumns :: data[c])]
      ensures created.id == |old(users)| && created.columns.Keys <= {"full_name", "email"}
      ensures forall c :: c in created.columns ==> c in data && created.columns[c] == data[c]
    {
      var row := User(|users|, map c | c in data && c in UserInsertColumns :: data[c]);
      users := users + [row];
      created := User(row.id, map c | c in row.columns && c in {"full_name", "email"} :: row.columns[c]);
    }

    /** `users.update`: no fields means no statement and a null result. */
    method UpdateUser(id: nat, data: seq<(string, string)>) returns (query: Option<string>, updated: Option<seq<User>>)
      modifies this`users
      ensures query == UpdateUserQuery(Fields(data))
      ensures data == [] ==> users == old(users) && updated == None
      ensures data != [] ==> users == ApplyUserUpdate(old(users), id, data)
      ensures data != [] ==> updated == Some(Rows.Filter(users, (u: User) => u.id == id))
    {
      query := UpdateUserQuery(Fields(data));
      if |data| == 0 {
        return None, None;
      }
      users := ApplyUserUpdate(users, id, data);
      updated := Some(Rows.Filter(users, (u: User) => u.id == id));
    }

    /** An INSERT into `orders` naming every status column. */
    method InsertOrder(userId: nat, orderNumber: string, total: real, currency: string,
                       status: OrderStatus, paymentStatus: PaymentStatus) returns (order: Order)
      modifies this`orders
      ensures order == NewOrder(old(orders), userId, orderNumber, total, currency, status, paymentStatus)
      ensures orders == old(orders) + [order]
    {
      order := NewOrder(orders, userId, orderNumber, total, currency, status, paymentStatus);
      orders := orders + [order];
    }

    /** `orders.create`: the status columns take their defaults. */
    method CreateOrder(userId: nat, orderNumber: string, total: real, currency: string) returns (order: Order)
      modifies this`orders
      ensures order == NewOrder(old(orders), userId, orderNumber, total, currency,
                                DefaultOrderStatus, DefaultOrderPaymentStatus)
      ensures orders == old(orders) + [order]
    {
      order := InsertOrder(userId, orderNumber, total, currency, DefaultOrderStatus, DefaultOrderPaymentStatus);
    }

    /** `orders.updateStatus(id, status, payment_status = null)`. */
    method UpdateOrderStatus(id: nat, status: OrderStatus, paymentStatus: Option<PaymentStatus>)
      modifies this`orders
      ensures orders == UpdateOrders(old(orders), ById(id), SetStatus(status, paymentStatus))
    {
      orders := UpdateOrders(orders, ById(id), SetStatus(status, paymentStatus));
    }

    /** A direct `UPDATE orders SET ... WHERE ...` issued by a route. */
    method UpdateOrdersWhere(key: OrderKey, patch: OrderPatch)
      modifies this`orders
      ensures orders == UpdateOrders(old(orders), key, patch)
    {
      orders := UpdateOrders(orders, key, patch);
    }

    /** One `INSERT INTO order_items` per cart entry. */
    method InsertOrderItem(row: OrderItem)
      modifies this`items
      ensures items == old(items) + [row]
    {
      items := items + [row];
    }

    /** `orderItems.create`: one multi-row INSERT. */
    method CreateOrderItems(rows: seq<OrderItem>)
      modifies this`items
      ensures items == old(items) + rows
    {
      items := items + rows;
    }

    /** An INSERT into `payments`; the row gets the next serial id. */
    method CreatePayment(draft: Payment) returns (payment: Payment)
      modifies this`payments
      ensures payment == draft.(id := |old(payments)|)
      ensures payments == AppendPayment(old(payments), draft)
    {
      payment := draft.(id := |payments|);
      payments := AppendPayment(payments, draft);
    }

    /** `payments.updateStatus(intent, status, failure_reason = null)` at time `now`. */
    method UpdatePaymentStatus(intentId: string, status: PaymentStatus, failureReason: Option<string>, now: int)
      modifies this`payments
      ensures payments == UpdatePayments(old(payments), intentId, StatusUpdate(status, failureReason, now))
    {
      payments := UpdatePayments(payments, intentId, StatusUpdate(status, failureReason, now));
    }

    /** A direct `UPDATE payments SET ... WHERE stripe_payment_intent_id = $1` issued by a route. */
    method UpdatePaymentsWhere(intentId: string, patch: PaymentPatch)
      modifies this`payments
      ensures payments == UpdatePayments(old(payments), intentId, patch)
    {
      payments := UpdatePayments(payments, intentId, patch);
    }

    /** `sessions.create`; a new session is active. */
    method CreateSession(userId: nat, tokenHash: string, expiresAt: int)
      modifies this`sessions
      ensures sessions == old(sessions) + [UserSession(userId, tokenHash, expiresAt, true)]
    {
      sessions := sessions + [UserSession(userId, tokenHash, expiresAt, true)];
    }

    /** `sessions.deactivate`. */
    method DeactivateSession(tokenHash: string)
      modifies this`sessions
      ensures sessions == Deactivate(old(sessions), tokenHash)
    {
      sessions := Deactivate(sessions, tokenHash);
    }

    /** `auditLog.create`, and the routes' own INSERT INTO audit_logs. */
    method CreateAuditEntry(entry: AuditEntry)
      modifies this`audit
      ensures audit == old(audit) + [entry]
    {
      audit := audit + [entry];
    }
  }
}
