/**
 * The payment-intent routes of server/routes/payments.js: create-payment-intent,
 * confirm-payment and the intent webhook. As for the checkout routes, each is a pure effect
 * on the tables with its answer, and a method over Db that issues the same helper calls.
 */
module IntentRoutes {
  import opened Wrappers
  import opened Requests
  import opened Database
  import Text

  // ---------------------------------------------------------------- create-payment-intent

  predicate HasQuantities(cart: seq<CartItem>)
  {
    forall k :: 0 <= k < |cart| ==> cart[k].quantity.Some?
  }

  /**
   * The tuple written for one entry: the quantity has no default here, so this is only
   * defined when the client sent one.
   */
  function IntentItemRow(orderId: nat, item: CartItem): OrderItem
    requires item.quantity.Some?
  {
    OrderItem(orderId, item.id, item.name, item.category, item.breed, item.quantity.value,
              item.price, item.price * item.quantity.value as real)
  }

  function IntentItemRows(orderId: nat, cart: seq<CartItem>): (r: seq<OrderItem>)
    requires HasQuantities(cart)
    ensures |r| == |cart|
    ensures forall k :: 0 <= k < |cart| ==> r[k] == IntentItemRow(orderId, cart[k])
  {
    seq(|cart|, k requires 0 <= k < |cart| => IntentItemRow(orderId, cart[k]))
  }

  datatype IntentReply = IntentReply(intentId: string, orderId: nat, orderNumber: string)

  /** The order `orders.create` inserts: schema defaults for both statuses. */
  function IntentOrder(t: Tables, userId: nat, req: OrderRequest, orderNumber: string): Order
  {
    NewOrder(t.orders, userId, orderNumber, req.amount, Text.ToUpper(req.currency),
             DefaultOrderStatus, DefaultOrderPaymentStatus)
  }

  /** The writes after the intent was created: statuses, intent id, audit entry. */
  function IntentWrites(t: Tables, userId: nat, req: OrderRequest, orderNumber: string, order: Order, intentId: string): Tables
  {
    var orders1 := UpdateOrders(t.orders, ById(order.id), SetStatus(Confirmed, Some(PayProcessing)));
    var orders2 := UpdateOrders(orders1, ById(order.id), SetPaymentIntent(intentId));
    t.(orders := orders2,
       audit := t.audit + [AuditEntry(userId, OrderEntity, order.id,
                                      PaymentIntentCreated(orderNumber, req.amount, req.currency, intentId))])
  }

  /**
   * `POST /create-payment-intent`: validate, create the order, write its items in one
   * statement (a missing quantity makes that statement fail: 500, with the order already
   * written), create the intent (`intent` is its id, or Threw), mark the order confirmed and
   * processing, record the intent id, and audit.
   */
  function CreateIntentEffect(t: Tables, userId: nat, req: OrderRequest, orderNumber: string, intent: Call<string>)
    : (Tables, Response<IntentReply>)
  {
    if !ValidOrderRequest(req) then (t, Err(400))
    else
      var order := IntentOrder(t, userId, req, orderNumber);
      var t1 := t.(orders := t.orders + [order]);
      if !HasQuantities(req.cartItems) then (t1, Err(500))
      else
        var t2 := t1.(items := t1.items + IntentItemRows(order.id, req.cartItems));
        match intent
        case Threw => (t2, Err(500))
        case Returned(pid) => (IntentWrites(t2, userId, req, orderNumber, order, pid), Ok(IntentReply(pid, order.id, orderNumber)))
  }

  /** Validation failures answer 400 before any order is created, and only they do. */
  lemma CreateIntentValidation(t: Tables, userId: nat, req: OrderRequest, orderNumber: string, intent: Call<string>)
    ensures CreateIntentEffect(t, userId, req, orderNumber, intent).1 == Err(400) <==> !ValidOrderRequest(req)
    ensures !ValidOrderRequest(req) ==> CreateIntentEffect(t, userId, req, orderNumber, intent).0 == t
  {
  }

  lemma IntentWritesOnNewOrder(t: Tables, userId: nat, req: OrderRequest, orderNumber: string, intentId: string)
    requires OrderIdsSerial(t.orders)
    ensures var order := IntentOrder(t, userId, req, orderNumber);
      var t2 := t.(orders := t.orders + [order]);
      IntentWrites(t2, userId, req, orderNumber, order, intentId).orders
        == t.orders + [order.(status := Confirmed, paymentStatus := PayProcessing, paymentIntentId := Some(intentId))]
  {
    var order := IntentOrder(t, userId, req, orderNumber);
    var confirmed := ApplyOrderPatch(order, SetStatus(Confirmed, Some(PayProcessing)));
    UpdateAppendedOrder(t.orders, order, SetStatus(Confirmed, Some(PayProcessing)));
    UpdateAppendedOrder(t.orders, confirmed, SetPaymentIntent(intentId));
  }

  /**
   * When every entry has a quantity and the intent is created, the handler ends with one new
   * order, the caller's, for the client's amount in upper-case currency, at (confirmed,
   * processing) and carrying the intent id; its items total price × quantity each.
   */
  lemma CreateIntentConfirmsOrder(t: Tables, userId: nat, req: OrderRequest, orderNumber: string, intentId: string, k: nat)
    requires Valid(t) && ValidOrderRequest(req) && HasQuantities(req.cartItems) && k < |req.cartItems|
    ensures var t' := CreateIntentEffect(t, userId, req, orderNumber, Returned(intentId)).0;
      && t'.orders == t.orders + [Order(|t.orders|, userId, orderNumber, req.amount, Text.ToUpper(req.currency),
                                        None, Some(intentId), Confirmed, PayProcessing)]
      && |t'.items| == |t.items| + |req.cartItems|
      && t'.items[|t.items| + k].orderId == |t.orders|
      && t'.items[|t.items| + k].quantity == req.cartItems[k].quantity.value
      && t'.items[|t.items| + k].totalPrice == req.cartItems[k].price * req.cartItems[k].quantity.value as real
  {
    IntentWritesOnNewOrder(t, userId, req, orderNumber, intentId);
    var order := IntentOrder(t, userId, req, orderNumber);
    var t' := CreateIntentEffect(t, userId, req, orderNumber, Returned(intentId)).0;
    assert t'.items == t.items + IntentItemRows(order.id, req.cartItems);
  }

  /**
   * An entry without a quantity makes the item insert fail: the answer is 500, the order row
   * stays behind at the schema's default statuses, and no items or intent are recorded.
   */
  lemma CreateIntentMissingQuantity(t: Tables, userId: nat, req: OrderRequest, orderNumber: string, intent: Call<string>)
    requires ValidOrderRequest(req) && !HasQuantities(req.cartItems)
    ensures CreateIntentEffect(t, userId, req, orderNumber, intent)
      == (t.(orders := t.orders + [Order(|t.orders|, userId, orderNumber, req.amount, Text.ToUpper(req.currency),
                                         None, None, DefaultOrderStatus, DefaultOrderPaymentStatus)]), Err(500))
  {
  }

  lemma CreateIntentPreservesValid(t: Tables, userId: nat, req: OrderRequest, orderNumber: string, intent: Call<string>)
    requires Valid(t)
    ensures Valid(CreateIntentEffect(t, userId, req, orderNumber, intent).0)
  {
    if ValidOrderRequest(req) {
      IntentInsertsKeepValid(t, userId, req, orderNumber, intent);
    }
  }

  lemma IntentInsertsKeepValid(t: Tables, userId: nat, req: OrderRequest, orderNumber: string, intent: Call<string>)
    requires Valid(t)
    ensures var order := IntentOrder(t, userId, req, orderNumber);
      var t1 := t.(orders := t.orders + [order]);
      && Valid(t1)
      && (HasQuantities(req.cartItems) ==>
            var t2 := t1.(items := t1.items + IntentItemRows(order.id, req.cartItems));
            && Valid(t2)
            && (intent.Returned? ==> Valid(IntentWrites(t2, userId, req, orderNumber, order, intent.value))))
  {
    var order := IntentOrder(t, userId, req, orderNumber);
    var t1 := t.(orders := t.orders + [order]);
    assert OrderIdsSerial(t1.orders);
    if HasQuantities(req.cartItems) && intent.Returned? {
      var os1 := UpdateOrders(t1.orders, ById(order.id), SetStatus(Confirmed, Some(PayProcessing)));
      UpdateOrdersKeepsIds(t1.orders, ById(order.id), SetStatus(Confirmed, Some(PayProcessing)));
      UpdateOrdersKeepsIds(os1, ById(order.id), SetPaymentIntent(intent.value));
    }
  }

  method CreatePaymentIntent(db: Db, userId: nat, req: OrderRequest, orderNumber: string, intent: Call<string>)
    returns (resp: Response<IntentReply>)
    modifies db
    ensures (db.State(), resp) == CreateIntentEffect(old(db.State()), userId, req, orderNumber, intent)
  {
    if !ValidOrderRequest(req) {
      return Err(400);
    }
    var order := db.CreateOrder(userId, orderNumber, req.amount, Text.ToUpper(req.currency));
    if !HasQuantities(req.cartItems) {
      return Err(500);
    }
    db.CreateOrderItems(IntentItemRows(order.id, req.cartItems));
    if intent.Threw? {
      return Err(500);
    }
    ghost var t2 := db.State();
    db.UpdateOrderStatus(order.id, Confirmed, Some(PayProcessing));
    db.UpdateOrdersWhere(ById(order.id), SetPaymentIntent(intent.value));
    db.CreateAuditEntry(AuditEntry(userId, OrderEntity, order.id,
                                   PaymentIntentCreated(orderNumber, req.amount, req.currency, intent.value)));
    assert db.State() == IntentWrites(t2, userId, req, orderNumber, order, intent.value);
    resp := Ok(IntentReply(intent.value, order.id, orderNumber));
  }

  // ---------------------------------------------------------------- confirm-payment

  /** The optional card details of the request (`cardDetails?.last4 || null`: "" counts as absent). */
  datatype CardDetails = CardDetails(last4: string, brand: string)

  datatype ConfirmRequest = ConfirmRequest(paymentIntentId: string, paymentMethodId: string, card: Option<CardDetails>)

  predicate ValidConfirmRequest(req: ConfirmRequest)
  {
    req.paymentIntentId != "" && req.paymentMethodId != ""
  }

  function OrNull(s: string): Option<string>
  {
    if s == "" then None else Some(s)
  }

  /** The row `payments.create` inserts: order, amount and currency from the order; status by default. */
  function ConfirmPayment(o: Order, userId: nat, req: ConfirmRequest): Payment
  {
    Payment(0, Some(o.id), userId, None, Some(req.paymentIntentId), Some(req.paymentMethodId), o.total, o.currency,
            DefaultPaymentStatus, None, None,
            if req.card.Some? then OrNull(req.card.value.last4) else None,
            if req.card.Some? then OrNull(req.card.value.brand) else None)
  }

  /** What confirm-payment does for an intent status: the order's two statuses and the payments update, if any. */
  datatype ConfirmOutcome = ConfirmOutcome(orderStatus: OrderStatus, paymentStatus: PaymentStatus,
                                           paymentUpdate: Option<(PaymentStatus, Option<string>)>)

  function ConfirmMapping(intentStatus: string): ConfirmOutcome
  {
    if intentStatus == "succeeded" then ConfirmOutcome(Confirmed, PaySucceeded, Some((PaySucceeded, None)))
    else if intentStatus == "requires_action" then ConfirmOutcome(Processing, PayRequiresAction, None)
    else if intentStatus == "payment_failed" then ConfirmOutcome(Cancelled, PayFailed, Some((PayFailed, Some("Payment failed"))))
    else ConfirmOutcome(Processing, PayProcessing, None)
  }

  datatype ConfirmReply = ConfirmReply(paymentId: nat, orderId: nat, orderNumber: string, status: PaymentStatus,
                                       amount: real, currency: string)

  /** The payments table after the insert and the status update the intent status calls for. */
  function ConfirmPayments(payments: seq<Payment>, o: Order, userId: nat, req: ConfirmRequest, intentStatus: string, now: int)
    : seq<Payment>
  {
    var payments1 := AppendPayment(payments, ConfirmPayment(o, userId, req));
    match ConfirmMapping(intentStatus).paymentUpdate
    case None => payments1
    case Some(u) => UpdatePayments(payments1, req.paymentIntentId, StatusUpdate(u.0, u.1, now))
  }

  /** The writes for order `o` once found: the payment, the payments update, the order statuses, the audit entry. */
  function ConfirmWrites(t: Tables, o: Order, userId: nat, req: ConfirmRequest, intentStatus: string, now: int): Tables
  {
    var m := ConfirmMapping(intentStatus);
    var paymentId := |t.payments|;
    t.(payments := ConfirmPayments(t.payments, o, userId, req, intentStatus, now),
       orders := UpdateOrders(t.orders, ById(o.id), SetStatus(m.orderStatus, Some(m.paymentStatus))),
       audit := t.audit + [AuditEntry(userId, PaymentEntity, paymentId,
                                      PaymentConfirmed(req.paymentIntentId, m.paymentStatus, o.total))])
  }

  /**
   * `POST /confirm-payment`. `retrieved` is the processor's intent lookup: its status, None
   * for an empty answer, or Threw.
   */
  function ConfirmEffect(t: Tables, userId: nat, req: ConfirmRequest, retrieved: Call<Option<string>>, now: int)
    : (Tables, Response<ConfirmReply>)
  {
    if !ValidConfirmRequest(req) then (t, Err(400))
    else match retrieved
      case Threw => (t, Err(500))
      case Returned(None) => (t, Err(404))
      case Returned(Some(status)) =>
        match FindOrderByIntent(t.orders, req.paymentIntentId)
        case None => (t, Err(404))
        case Some(o) =>
          (ConfirmWrites(t, o, userId, req, status, now),
           Ok(ConfirmReply(|t.payments|, o.id, o.orderNumber, ConfirmMapping(status).paymentStatus, o.total, o.currency)))
  }

  /** Without an order for the intent the answer is 404 and no payment (nor anything else) is written. */
  lemma ConfirmNotFound(t: Tables, userId: nat, req: ConfirmRequest, status: string, now: int)
    requires ValidConfirmRequest(req) && FindOrderByIntent(t.orders, req.paymentIntentId).None?
    ensures ConfirmEffect(t, userId, req, Returned(Some(status)), now) == (t, Err(404))
  {
  }

  /**
   * The order's statuses follow the intent status: succeeded gives (confirmed, succeeded),
   * requires_action gives (processing, requires_action), payment_failed gives (cancelled,
   * failed), anything else (processing, processing). No other order changes.
   */
  lemma ConfirmOrderMapping(t: Tables, userId: nat, req: ConfirmRequest, status: string, now: int)
    requires Valid(t) && ValidConfirmRequest(req) && FindOrderByIntent(t.orders, req.paymentIntentId).Some?
    ensures var o := FindOrderByIntent(t.orders, req.paymentIntentId).value;
      var t' := ConfirmEffect(t, userId, req, Returned(Some(status)), now).0;
      && |t'.orders| == |t.orders| && o.id < |t.orders|
      && (status == "succeeded" ==> t'.orders[o.id].status == Confirmed && t'.orders[o.id].paymentStatus == PaySucceeded)
      && (status == "requires_action" ==> t'.orders[o.id].status == Processing && t'.orders[o.id].paymentStatus == PayRequiresAction)
      && (status == "payment_failed" ==> t'.orders[o.id].status == Cancelled && t'.orders[o.id].paymentStatus == PayFailed)
      && (status !in {"succeeded", "requires_action", "payment_failed"} ==>
            t'.orders[o.id].status == Processing && t'.orders[o.id].paymentStatus == PayProcessing)
      && (forall i :: 0 <= i < |t.orders| && i != o.id ==> t'.orders[i] == t.orders[i])
  {
    var o := FindOrderByIntent(t.orders, req.paymentIntentId).value;
    var i :| 0 <= i < |t.orders| && t.orders[i] == o;
    var m := ConfirmMapping(status);
    UpdateOrderById(t.orders, o.id, SetStatus(m.orderStatus, Some(m.paymentStatus)));
  }

  /**
   * One payment is appended; it belongs to the order and copies the order's amount and
   * currency (the request carries none). Its status ends 'succeeded' with a processing time
   * when the intent succeeded, 'failed' with reason "Payment failed" when it failed, and the
   * schema default otherwise.
   */
  lemma ConfirmPaymentRow(t: Tables, userId: nat, req: ConfirmRequest, status: string, now: int)
    requires ValidConfirmRequest(req) && FindOrderByIntent(t.orders, req.paymentIntentId).Some?
    ensures var o := FindOrderByIntent(t.orders, req.paymentIntentId).value;
      var t' := ConfirmEffect(t, userId, req, Returned(Some(status)), now).0;
      && |t'.payments| == |t.payments| + 1
      && var p := t'.payments[|t.payments|];
         && p.id == |t.payments| && p.orderId == Some(o.id) && p.amount == o.total && p.currency == o.currency
         && p.paymentIntentId == Some(req.paymentIntentId)
         && (status == "succeeded" ==> p.status == PaySucceeded && p.processedAt == Some(now) && p.failureReason == None)
         && (status == "payment_failed" ==> p.status == PayFailed && p.processedAt == None && p.failureReason == Some("Payment failed"))
         && (status != "succeeded" && status != "payment_failed" ==> p.status == DefaultPaymentStatus)
  {
  }

  /**
   * The payments update is keyed by intent, so a success or failure also rewrites every
   * earlier payment of the same intent.
   */
  lemma ConfirmRewritesEarlierPayments(t: Tables, userId: nat, req: ConfirmRequest, status: string, now: int, i: nat)
    requires ValidConfirmRequest(req) && FindOrderByIntent(t.orders, req.paymentIntentId).Some?
    requires status == "succeeded" || status == "payment_failed"
    requires i < |t.payments| && t.payments[i].paymentIntentId == Some(req.paymentIntentId)
    ensures var t' := ConfirmEffect(t, userId, req, Returned(Some(status)), now).0;
      t'.payments[i].status == (if status == "succeeded" then PaySucceeded else PayFailed)
  {
  }

  lemma ConfirmPreservesValid(t: Tables, userId: nat, req: ConfirmRequest, retrieved: Call<Option<string>>, now: int)
    requires Valid(t)
    ensures Valid(ConfirmEffect(t, userId, req, retrieved, now).0)
  {
    if ValidConfirmRequest(req) && retrieved.Returned? && retrieved.value.Some? {
      var found := FindOrderByIntent(t.orders, req.paymentIntentId);
      if found.Some? {
        ConfirmWritesKeepValid(t, found.value, userId, req, retrieved.value.value, now);
      }
    }
  }

  lemma ConfirmWritesKeepValid(t: Tables, o: Order, userId: nat, req: ConfirmRequest, status: string, now: int)
    requires Valid(t) && o in t.orders
    ensures Valid(ConfirmWrites(t, o, userId, req, status, now))
  {
    var i :| 0 <= i < |t.orders| && t.orders[i] == o;
    var m := ConfirmMapping(status);
    UpdateOrdersKeepsIds(t.orders, ById(o.id), SetStatus(m.orderStatus, Some(m.paymentStatus)));
    var payments1 := AppendPayment(t.payments, ConfirmPayment(o, userId, req));
    AppendPaymentKeepsIds(t.payments, ConfirmPayment(o, userId, req));
    if m.paymentUpdate.Some? {
      var u := m.paymentUpdate.value;
      UpdatePaymentsKeepsIds(payments1, req.paymentIntentId, StatusUpdate(u.0, u.1, now));
    }
    var ps := ConfirmPayments(t.payments, o, userId, req, status, now);
    assert |ps| == |t.payments| + 1;
    assert forall k :: 0 <= k < |ps| && ps[k].orderId.Some? ==> ps[k].orderId.value < |t.orders| by {
      forall k | 0 <= k < |ps| && ps[k].orderId.Some?
        ensures ps[k].orderId.value < |t.orders|
      {
        assert ps[k].orderId == payments1[k].orderId;
      }
    }
  }

  method ConfirmPaymentRoute(db: Db, userId: nat, req: ConfirmRequest, retrieved: Call<Option<string>>, now: int)
    returns (resp: Response<ConfirmReply>)
    modifies db
    ensures (db.State(), resp) == ConfirmEffect(old(db.State()), userId, req, retrieved, now)
  {
    if !ValidConfirmRequest(req) {
      return Err(400);
    }
    if retrieved.Threw? {
      return Err(500);
    }
    if retrieved.value.None? {
      return Err(404);
    }
    var found := FindOrderByIntent(db.orders, req.paymentIntentId);
    if found.None? {
      return Err(404);
    }
    resp := RecordConfirmation(db, found.value, userId, req, retrieved.value.value, now);
  }

  /** The writes of a confirmation. */
  method RecordConfirmation(db: Db, o: Order, userId: nat, req: ConfirmRequest, intentStatus: string, now: int)
    returns (resp: Response<ConfirmReply>)
    modifies db`payments, db`orders, db`audit
    ensures db.State() == ConfirmWrites(old(db.State()), o, userId, req, intentStatus, now)
    ensures resp == Ok(ConfirmReply(|old(db.payments)|, o.id, o.orderNumber, ConfirmMapping(intentStatus).paymentStatus,
                                    o.total, o.currency))
  {
    var paymentId, orderStatus, paymentStatus := ConfirmPaymentStep(db, o, userId, req, intentStatus, now);
    db.UpdateOrderStatus(o.id, orderStatus, Some(paymentStatus));
    db.CreateAuditEntry(AuditEntry(userId, PaymentEntity, paymentId,
                                   PaymentConfirmed(req.paymentIntentId, paymentStatus, o.total)));
    resp := Ok(ConfirmReply(paymentId, o.id, o.orderNumber, paymentStatus, o.total, o.currency));
  }

  /**
   * The payment insert and the status chain: the two statuses live in variables that the
   * branches reassign, and two of the branches update the intent's payments.
   */
  method ConfirmPaymentStep(db: Db, o: Order, userId: nat, req: ConfirmRequest, intentStatus: string, now: int)
    returns (paymentId: nat, orderStatus: OrderStatus, paymentStatus: PaymentStatus)
    modifies db`payments
    ensures db.payments == ConfirmPayments(old(db.payments), o, userId, req, intentStatus, now)
    ensures paymentId == |old(db.payments)|
    ensures orderStatus == ConfirmMapping(intentStatus).orderStatus
    ensures paymentStatus == ConfirmMapping(intentStatus).paymentStatus
  {
    var payment := db.CreatePayment(ConfirmPayment(o, userId, req));
    paymentId := payment.id;
    orderStatus := Processing;
    paymentStatus := PayProcessing;
    if intentStatus == "succeeded" {
      orderStatus, paymentStatus := Confirmed, PaySucceeded;
      db.UpdatePaymentStatus(req.paymentIntentId, PaySucceeded, None, now);
    } else if intentStatus == "requires_action" {
      paymentStatus := PayRequiresAction;
    } else if intentStatus == "payment_failed" {
      orderStatus, paymentStatus := Cancelled, PayFailed;
      db.UpdatePaymentStatus(req.paymentIntentId, PayFailed, Some("Payment failed"), now);
    }
  }

  // ---------------------------------------------------------------- webhook

  /** A verified intent event: its type, the intent id and `last_payment_error?.message`. */
  datatype IntentEvent = IntentEvent(kind: string, intentId: string, errorMessage: Option<string>)

  /** `POST /webhook` of the intent routes; `signatureValid` is the processor's signature check. */
  function IntentWebhookEffect(t: Tables, signatureValid: bool, e: IntentEvent, now: int): (Tables, Response<()>)
  {
    if !signatureValid then (t, Err(400))
    else if e.kind == IntentSucceeded then
      (t.(payments := UpdatePayments(t.payments, e.intentId, StatusUpdate(PaySucceeded, None, now)),
          orders := UpdateOrders(t.orders, ByIntent(e.intentId), SetStatus(Processing, Some(PaySucceeded)))), Ok(()))
    else if e.kind == IntentFailed then
      (t.(payments := UpdatePayments(t.payments, e.intentId, StatusUpdate(PayFailed, e.errorMessage, now)),
          orders := UpdateOrders(t.orders, ByIntent(e.intentId), SetStatus(Cancelled, Some(PayFailed)))), Ok(()))
    else (t, Ok(()))
  }

  /** A bad signature answers 400 and writes nothing; an unknown event type writes nothing either. */
  lemma IntentWebhookNoOps(t: Tables, signatureValid: bool, e: IntentEvent, now: int)
    ensures !signatureValid ==> IntentWebhookEffect(t, signatureValid, e, now) == (t, Err(400))
    ensures e.kind != IntentSucceeded && e.kind != IntentFailed ==> IntentWebhookEffect(t, signatureValid, e, now).0 == t
  {
  }

  /**
   * A succeeded intent marks each of its payments succeeded, with a processing time and no
   * failure reason, and each of its orders (processing, succeeded); a failed intent marks its
   * payments failed with the processor's error message and no processing time, and its
   * orders (cancelled, failed). Rows of other intents are untouched.
   */
  lemma IntentWebhookEvents(t: Tables, e: IntentEvent, now: int, i: nat, j: nat)
    requires e.kind == IntentSucceeded || e.kind == IntentFailed
    requires i < |t.payments| && j < |t.orders|
    ensures var t' := IntentWebhookEffect(t, true, e, now).0;
      var ok := e.kind == IntentSucceeded;
      && t' == t.(payments := t'.payments, orders := t'.orders)
      && |t'.payments| == |t.payments| && |t'.orders| == |t.orders|
      && (t.payments[i].paymentIntentId == Some(e.intentId) ==>
            && t'.payments[i].status == (if ok then PaySucceeded else PayFailed)
            && t'.payments[i].processedAt == (if ok then Some(now) else None)
            && t'.payments[i].failureReason == (if ok then None else e.errorMessage))
      && (t.payments[i].paymentIntentId != Some(e.intentId) ==> t'.payments[i] == t.payments[i])
      && (t.orders[j].paymentIntentId == Some(e.intentId) ==>
            && t'.orders[j].status == (if ok then Processing else Cancelled)
            && t'.orders[j].paymentStatus == (if ok then PaySucceeded else PayFailed))
      && (t.orders[j].paymentIntentId != Some(e.intentId) ==> t'.orders[j] == t.orders[j])
  {
  }

  lemma IntentWebhookPreservesValid(t: Tables, signatureValid: bool, e: IntentEvent, now: int)
    requires Valid(t)
    ensures Valid(IntentWebhookEffect(t, signatureValid, e, now).0)
  {
    if signatureValid && e.kind == IntentSucceeded {
      UpdatePaymentsKeepsIds(t.payments, e.intentId, StatusUpdate(PaySucceeded, None, now));
      UpdateOrdersKeepsIds(t.orders, ByIntent(e.intentId), SetStatus(Processing, Some(PaySucceeded)));
    } else if signatureValid && e.kind == IntentFailed {
      UpdatePaymentsKeepsIds(t.payments, e.intentId, StatusUpdate(PayFailed, e.errorMessage, now));
      UpdateOrdersKeepsIds(t.orders, ByIntent(e.intentId), SetStatus(Cancelled, Some(PayFailed)));
    }
  }

  method IntentWebhook(db: Db, signatureValid: bool, e: IntentEvent, now: int) returns (resp: Response<()>)
    modifies db
    ensures (db.State(), resp) == IntentWebhookEffect(old(db.State()), signatureValid, e, now)
  {
    if !signatureValid {
      return Err(400);
    }
    if e.kind == IntentSucceeded {
      db.UpdatePaymentStatus(e.intentId, PaySucceeded, None, now);
      db.UpdateOrdersWhere(ByIntent(e.intentId), SetStatus(Processing, Some(PaySucceeded)));
    } else if e.kind == IntentFailed {
      db.UpdatePaymentStatus(e.intentId, PayFailed, e.errorMessage, now);
      db.UpdateOrdersWhere(ByIntent(e.intentId), SetStatus(Cancelled, Some(PayFailed)));
    }
    resp := Ok(());
  }
}
