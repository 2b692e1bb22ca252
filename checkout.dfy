/**
 * The hosted-checkout routes of backend/server/routes/payment.js: create-checkout-session,
 * verify-session, create-charge and the processor webhook. Each route is a pure effect on
 * the tables paired with the answer it gives, and a method over Db that performs the same
 * writes one statement at a time. The processor's answers, the clock (`now`) and the fresh
 * order number are inputs.
 */
module CheckoutRoutes {
  import opened Wrappers
  import opened Requests
  import opened Database
  import Text

  // ---------------------------------------------------------------- create-checkout-session

  /** The order_items row written for one cart entry (`quantity || 1`, total = price × quantity). */
  function ItemRow(orderId: nat, item: CartItem): OrderItem
  {
    var q := QuantityOrOne(item.quantity);
    OrderItem(orderId, item.id, item.name, item.category, item.breed, q, item.price, item.price * q as real)
  }

  /** The rows written for a cart, one per entry in cart order. */
  function ItemRows(orderId: nat, cart: seq<CartItem>): (r: seq<OrderItem>)
    ensures |r| == |cart|
    ensures forall k :: 0 <= k < |cart| ==> r[k] == ItemRow(orderId, cart[k])
  {
    if |cart| == 0 then [] else ItemRows(orderId, cart[..|cart| - 1]) + [ItemRow(orderId, cart[|cart| - 1])]
  }

  /** A line item of the processor's checkout session. */
  datatype LineItem = LineItem(currency: string, name: string, description: string, unitAmount: int, quantity: int)

  function LineItemFor(currency: string, item: CartItem): LineItem
  {
    LineItem(Text.ToLower(currency),
             item.name + " - " + (if item.breed != "" then item.breed else item.category),
             "Pet ID: " + item.id,
             MinorUnits(item.price),
             QuantityOrOne(item.quantity))
  }

  /** The `line_items` sent to the processor, one per cart entry. */
  function LineItems(currency: string, cart: seq<CartItem>): seq<LineItem>
  {
    seq(|cart|, k requires 0 <= k < |cart| => LineItemFor(currency, cart[k]))
  }

  /**
   * Every line item charges the entry's price in cents, rounded to the nearest cent, exactly
   * when the price is a whole number of cents; its quantity is never zero and is the
   * client's quantity when one was given; the currency is sent lower-case.
   */
  lemma LineItemAmounts(currency: string, cart: seq<CartItem>, k: nat)
    requires k < |cart|
    ensures |LineItems(currency, cart)| == |cart|
    ensures var li := LineItems(currency, cart)[k];
      && -0.5 <= li.unitAmount as real - cart[k].price * 100.0 <= 0.5
      && (forall cents: int :: cart[k].price == CentsToAmount(cents) ==> li.unitAmount == cents)
      && li.quantity != 0
      && (cart[k].quantity.Some? && cart[k].quantity.value != 0 ==> li.quantity == cart[k].quantity.value)
      && li.currency == Text.ToLower(currency)
      && li.description == "Pet ID: " + cart[k].id
  {
    MinorUnitsClose(cart[k].price);
    forall cents: int | cart[k].price == CentsToAmount(cents)
      ensures MinorUnits(cart[k].price) == cents
    {
      MinorUnitsOfCents(cents);
    }
  }

  datatype CheckoutReply = CheckoutReply(sessionId: string, orderId: nat, orderNumber: string)

  /** The order row the handler inserts: pending, pending, the client's amount, the currency upper-cased. */
  function CheckoutOrder(t: Tables, userId: nat, req: OrderRequest, orderNumber: string): Order
  {
    NewOrder(t.orders, userId, orderNumber, req.amount, Text.ToUpper(req.currency), Pending, PayPending)
  }

  /** The order row and its item rows, written before the processor is called. */
  function CheckoutInserts(t: Tables, userId: nat, req: OrderRequest, orderNumber: string): Tables
  {
    var order := CheckoutOrder(t, userId, req, orderNumber);
    t.(orders := t.orders + [order], items := t.items + ItemRows(order.id, req.cartItems))
  }

  /**
   * `POST /create-checkout-session`: validate, insert the order and its items, open the
   * processor session (`session` is its id, or Threw), record the session id on the order,
   * and write an audit entry. A processor failure answers 500 after the order and its items
   * were written.
   */
  function CheckoutEffect(t: Tables, userId: nat, req: OrderRequest, orderNumber: string,
                          session: Call<string>): (Tables, Response<CheckoutReply>)
  {
    if !ValidOrderRequest(req) then (t, Err(400))
    else
      var order := CheckoutOrder(t, userId, req, orderNumber);
      var t1 := CheckoutInserts(t, userId, req, orderNumber);
      match session
      case Threw => (t1, Err(500))
      case Returned(sid) =>
        var entry := AuditEntry(userId, OrderEntity, order.id,
                                CheckoutSessionCreated(orderNumber, req.amount, req.currency, sid));
        (t1.(orders := UpdateOrders(t1.orders, ById(order.id), SetCheckoutSession(sid)),
             audit := t1.audit + [entry]),
         Ok(CheckoutReply(sid, order.id, orderNumber)))
  }

  /** A request that fails validation is answered 400, and exactly those are. No table changes. */
  lemma CheckoutValidation(t: Tables, userId: nat, req: OrderRequest, orderNumber: string, session: Call<string>)
    ensures CheckoutEffect(t, userId, req, orderNumber, session).1 == Err(400) <==> !ValidOrderRequest(req)
    ensures !ValidOrderRequest(req) ==> CheckoutEffect(t, userId, req, orderNumber, session).0 == t
  {
  }

  /** How a valid request's tables are made: the inserts, then the session id and audit entry. */
  lemma CheckoutShape(t: Tables, userId: nat, req: OrderRequest, orderNumber: string, session: Call<string>)
    requires ValidOrderRequest(req)
    ensures var t1 := CheckoutInserts(t, userId, req, orderNumber);
      var t' := CheckoutEffect(t, userId, req, orderNumber, session).0;
      && t' == t1.(orders := t'.orders, audit := t'.audit)
      && (session.Threw? ==> t' == t1)
      && (session.Returned? ==> t'.orders == UpdateOrders(t1.orders, ById(|t.orders|), SetCheckoutSession(session.value)))
  {
  }

  /**
   * The answer of a valid request: the session id, the new order's id and its number when the
   * session opened, 500 when the processor failed. Only an opened session writes the
   * `CheckoutSessionCreated` audit entry. Users, payments and sessions are never touched.
   */
  lemma CheckoutAnswer(t: Tables, userId: nat, req: OrderRequest, orderNumber: string, session: Call<string>)
    requires ValidOrderRequest(req)
    ensures var (t', resp) := CheckoutEffect(t, userId, req, orderNumber, session);
      && resp == (if session.Threw? then Err(500) else Ok(CheckoutReply(session.value, |t.orders|, orderNumber)))
      && t'.audit == (if session.Threw? then t.audit
                      else t.audit + [AuditEntry(userId, OrderEntity, |t.orders|,
                                                 CheckoutSessionCreated(orderNumber, req.amount, req.currency, session.value))])
      && t'.users == t.users && t'.payments == t.payments && t'.sessions == t.sessions
  {
  }

  /** With serial ids, the session id lands on the new row only. */
  lemma SessionIdOnNewOrder(t: Tables, userId: nat, req: OrderRequest, orderNumber: string, sid: string)
    requires OrderIdsSerial(t.orders)
    ensures var os := CheckoutInserts(t, userId, req, orderNumber).orders;
      UpdateOrders(os, ById(|t.orders|), SetCheckoutSession(sid))
        == t.orders + [CheckoutOrder(t, userId, req, orderNumber).(checkoutSessionId := Some(sid))]
  {
    UpdateAppendedOrder(t.orders, CheckoutOrder(t, userId, req, orderNumber), SetCheckoutSession(sid));
  }

  /**
   * A valid request appends exactly one order: the caller's, with the client's amount as its
   * total, the currency upper-cased, status and payment status 'pending', and the processor
   * session id when the session was opened. Rows already in the table are unchanged.
   */
  lemma CheckoutCreatesPendingOrder(t: Tables, userId: nat, req: OrderRequest, orderNumber: string, session: Call<string>)
    requires Valid(t) && ValidOrderRequest(req)
    ensures var t' := CheckoutEffect(t, userId, req, orderNumber, session).0;
      t'.orders == t.orders + [Order(|t.orders|, userId, orderNumber, req.amount, Text.ToUpper(req.currency),
                                     if session.Returned? then Some(session.value) else None, None,
                                     Pending, PayPending)]
  {
    CheckoutShape(t, userId, req, orderNumber, session);
    if session.Returned? {
      SessionIdOnNewOrder(t, userId, req, orderNumber, session.value);
    }
  }

  /**
   * The session id is written by id without looking at what the row held: every row with
   * that id ends up with the new session id, whatever its previous one.
   */
  lemma SessionIdOverwritten(orders: seq<Order>, id: nat, sessionId: string, i: nat)
    requires i < |orders| && orders[i].id == id
    ensures UpdateOrders(orders, ById(id), SetCheckoutSession(sessionId))[i].checkoutSessionId == Some(sessionId)
  {
  }

  lemma InsertedItems(t: Tables, userId: nat, req: OrderRequest, orderNumber: string, k: nat)
    requires k < |req.cartItems|
    ensures var items := CheckoutInserts(t, userId, req, orderNumber).items;
      && |items| == |t.items| + |req.cartItems|
      && items[..|t.items|] == t.items
      && items[|t.items| + k] == ItemRow(|t.orders|, req.cartItems[k])
  {
  }

  /**
   * A valid request appends one item row per cart entry, in cart order, each pointing at the
   * new order, with quantity `item.quantity || 1` and total price = unit price × quantity;
   * this holds whether or not the processor call succeeds.
   */
  lemma CheckoutItemsPerEntry(t: Tables, userId: nat, req: OrderRequest, orderNumber: string, session: Call<string>, k: nat)
    requires ValidOrderRequest(req) && k < |req.cartItems|
    ensures var t' := CheckoutEffect(t, userId, req, orderNumber, session).0;
      && |t'.items| == |t.items| + |req.cartItems|
      && t'.items[..|t.items|] == t.items
      && var row := t'.items[|t.items| + k];
         && row.orderId == |t.orders|
         && row.petId == req.cartItems[k].id
         && row.quantity == QuantityOrOne(req.cartItems[k].quantity)
         && row.totalPrice == req.cartItems[k].price * QuantityOrOne(req.cartItems[k].quantity) as real
  {
    CheckoutShape(t, userId, req, orderNumber, session);
    InsertedItems(t, userId, req, orderNumber, k);
  }

  /** A one-dog cart posted with an amount of 0.50. */
  function ExampleRequest(): OrderRequest
  {
    OrderRequest(0.50, "usd", "Al", "a@b.co", [CartItem("dog-1", "Buddy", "dog", "Golden Retriever", Some(1), 1200.0)])
  }

  lemma ExampleRequestValid()
    ensures ValidOrderRequest(ExampleRequest())
  {
    assert "usd" == SupportedCurrencies[0];
    assert Text.Trim("Al") == "Al" by {
      assert !Text.IsJsWhitespace('A') && !Text.IsJsWhitespace('l');
    }
    EmailExample();
  }

  /** "a@b.co" passes the e-mail rule. */
  lemma EmailExample()
    ensures Text.IsEmail("a@b.co")
  {
    assert "a@b.co"[1..] == "@b.co";
    assert Text.IndexOf("@b.co", '@') == 0;
    assert Text.IndexOf("a@b.co", '@') == 1;
    assert "a@b.co"[2..] == "b.co";
    assert "b.co"[1..3] == ".c";
    assert '.' in ".c";
  }

  /**
   * The order total is the amount the client posted, not the sum of the items: a cart with a
   * 1200 dog posted with amount 0.50 yields an order of 0.50 whose one item totals 1200.
   */
  lemma OrderTotalIsClientAmount()
    ensures var t' := CheckoutEffect(EmptyTables, 7, ExampleRequest(), "ZOO-1", Returned("cs_1")).0;
      && |t'.orders| == 1 && t'.orders[0].total == 0.50
      && |t'.items| == 1 && t'.items[0].totalPrice == 1200.0
  {
    var req := ExampleRequest();
    ExampleRequestValid();
    CheckoutCreatesPendingOrder(EmptyTables, 7, req, "ZOO-1", Returned("cs_1"));
    CheckoutItemsPerEntry(EmptyTables, 7, req, "ZOO-1", Returned("cs_1"), 0);
    assert req.cartItems[0].price == 1200.0 && QuantityOrOne(req.cartItems[0].quantity) == 1;
  }

  lemma CheckoutPreservesValid(t: Tables, userId: nat, req: OrderRequest, orderNumber: string, session: Call<string>)
    requires Valid(t)
    ensures Valid(CheckoutEffect(t, userId, req, orderNumber, session).0)
  {
    if ValidOrderRequest(req) {
      CheckoutShape(t, userId, req, orderNumber, session);
      InsertsKeepValid(t, userId, req, orderNumber, session);
    }
  }

  lemma InsertsKeepValid(t: Tables, userId: nat, req: OrderRequest, orderNumber: string, session: Call<string>)
    requires Valid(t)
    ensures var t1 := CheckoutInserts(t, userId, req, orderNumber);
      && Valid(t1)
      && (session.Returned? ==> Valid(t1.(orders := UpdateOrders(t1.orders, ById(|t.orders|), SetCheckoutSession(session.value)))))
  {
    var t1 := CheckoutInserts(t, userId, req, orderNumber);
    assert OrderIdsSerial(t1.orders);
    if session.Returned? {
      UpdateOrdersKeepsIds(t1.orders, ById(|t.orders|), SetCheckoutSession(session.value));
    }
  }

  /** The handler, statement by statement; the item inserts run one after another. */
  method CreateCheckoutSession(db: Db, userId: nat, req: OrderRequest, orderNumber: string, session: Call<string>)
    returns (resp: Response<CheckoutReply>)
    modifies db
    ensures (db.State(), resp) == CheckoutEffect(old(db.State()), userId, req, orderNumber, session)
  {
    if !ValidOrderRequest(req) {
      return Err(400);
    }
    var order := db.InsertOrder(userId, orderNumber, req.amount, Text.ToUpper(req.currency), Pending, PayPending);
    var i := 0;
    while i < |req.cartItems|
      invariant 0 <= i <= |req.cartItems|
      invariant db.items == old(db.items) + ItemRows(order.id, req.cartItems[..i])
      invariant db.orders == old(db.orders) + [order]
      invariant db.users == old(db.users) && db.payments == old(db.payments)
      invariant db.sessions == old(db.sessions) && db.audit == old(db.audit)
    {
      assert req.cartItems[..i + 1][..i] == req.cartItems[..i];
      db.InsertOrderItem(ItemRow(order.id, req.cartItems[i]));
      i := i + 1;
    }
    assert req.cartItems[..i] == req.cartItems;
    if session.Threw? {
      return Err(500);
    }
    var sid := session.value;
    db.UpdateOrdersWhere(ById(order.id), SetCheckoutSession(sid));
    db.CreateAuditEntry(AuditEntry(userId, OrderEntity, order.id,
                                   CheckoutSessionCreated(orderNumber, req.amount, req.currency, sid)));
    resp := Ok(CheckoutReply(sid, order.id, orderNumber));
  }

  // ---------------------------------------------------------------- verify-session

  /** The processor's `payment_status` mapped to the order's (status, payment status). */
  function VerifyMapping(processorStatus: string): (OrderStatus, PaymentStatus)
  {
    if processorStatus == "paid" then (Confirmed, PaySucceeded)
    else if processorStatus == "unpaid" then (Cancelled, PayFailed)
    else (Pending, PayPending)
  }

  datatype VerifyReply = VerifyReply(orderId: nat, orderNumber: string, status: OrderStatus,
                                     paymentStatus: PaymentStatus, amount: real, currency: string)

  /** The payment a paid verification records: the order's total and currency, succeeded now. */
  function SessionPayment(order: Order, userId: nat, sessionId: string, now: int): Payment
  {
    Payment(0, Some(order.id), userId, Some(sessionId), None, None, order.total, order.currency,
            PaySucceeded, None, Some(now), None, None)
  }

  /**
   * `GET /verify-session/:sessionId`. `retrieved` is the processor's session lookup: its
   * `payment_status`, None for an empty answer, or Threw.
   */
  function VerifyEffect(t: Tables, userId: nat, sessionId: string, retrieved: Call<Option<string>>, now: int)
    : (Tables, Response<VerifyReply>)
  {
    match retrieved
    case Threw => (t, Err(500))
    case Returned(None) => (t, Err(404))
    case Returned(Some(ps)) =>
      match FindOwnedOrderBySession(t.orders, sessionId, userId)
      case None => (t, Err(404))
      case Some(o) =>
        (VerifyWrites(t, o, userId, sessionId, ps, now),
         Ok(VerifyReply(o.id, o.orderNumber, VerifyMapping(ps).0, VerifyMapping(ps).1, o.total, o.currency)))
  }

  /** The three writes of a verification of order `o`: its statuses, the payment if paid, the audit entry. */
  function VerifyWrites(t: Tables, o: Order, userId: nat, sessionId: string, ps: string, now: int): Tables
  {
    var status := VerifyMapping(ps).0;
    var t1 := t.(orders := UpdateOrders(t.orders, ById(o.id), SetStatus(status, Some(VerifyMapping(ps).1))));
    var t2 := if ps == "paid" then t1.(payments := AppendPayment(t1.payments, SessionPayment(o, userId, sessionId, now))) else t1;
    t2.(audit := t2.audit + [AuditEntry(userId, OrderEntity, o.id, PaymentVerified(sessionId, ps, status, o.total))])
  }

  /** No session, or no order of this caller for it: 404 and nothing written. */
  lemma VerifyNotFound(t: Tables, userId: nat, sessionId: string, retrieved: Call<Option<string>>, now: int)
    requires retrieved.Returned?
    requires retrieved.value.None? || FindOwnedOrderBySession(t.orders, sessionId, userId).None?
    ensures VerifyEffect(t, userId, sessionId, retrieved, now) == (t, Err(404))
  {
  }

  /**
   * When the caller's order is found, its row is rewritten by the mapping: 'paid' gives
   * (confirmed, succeeded), 'unpaid' gives (cancelled, failed), and any other answer gives
   * (pending, pending), whatever the order held before, so a confirmed, paid order is
   * reset to pending. Every other order is unchanged.
   */
  lemma VerifyWritesMapping(t: Tables, userId: nat, sessionId: string, ps: string, now: int)
    requires Valid(t)
    requires FindOwnedOrderBySession(t.orders, sessionId, userId).Some?
    ensures var o := FindOwnedOrderBySession(t.orders, sessionId, userId).value;
      var t' := VerifyEffect(t, userId, sessionId, Returned(Some(ps)), now).0;
      && |t'.orders| == |t.orders| && o.id < |t.orders|
      && (ps == "paid" ==> t'.orders[o.id].status == Confirmed && t'.orders[o.id].paymentStatus == PaySucceeded)
      && (ps == "unpaid" ==> t'.orders[o.id].status == Cancelled && t'.orders[o.id].paymentStatus == PayFailed)
      && (ps != "paid" && ps != "unpaid" ==> t'.orders[o.id].status == Pending && t'.orders[o.id].paymentStatus == PayPending)
      && (forall i :: 0 <= i < |t.orders| && i != o.id ==> t'.orders[i] == t.orders[i])
  {
    var o := FindOwnedOrderBySession(t.orders, sessionId, userId).value;
    var i :| 0 <= i < |t.orders| && t.orders[i] == o;
    var patch := SetStatus(VerifyMapping(ps).0, Some(VerifyMapping(ps).1));
    UpdateOrderById(t.orders, o.id, patch);
    var t' := VerifyEffect(t, userId, sessionId, Returned(Some(ps)), now).0;
    assert t'.orders == VerifyWrites(t, o, userId, sessionId, ps, now).orders;
    assert t'.orders == t.orders[o.id := ApplyOrderPatch(t.orders[o.id], patch)];
  }

  /**
   * A 'paid' verification appends exactly one payment, for the order, with the order's total
   * and currency and status 'succeeded'; any other answer appends none.
   */
  lemma VerifyPaymentRows(t: Tables, userId: nat, sessionId: string, ps: string, now: int)
    requires FindOwnedOrderBySession(t.orders, sessionId, userId).Some?
    ensures var o := FindOwnedOrderBySession(t.orders, sessionId, userId).value;
      var t' := VerifyEffect(t, userId, sessionId, Returned(Some(ps)), now).0;
      && (ps == "paid" ==>
            && |t'.payments| == |t.payments| + 1 && t'.payments[..|t.payments|] == t.payments
            && var p := t'.payments[|t.payments|];
               p.orderId == Some(o.id) && p.amount == o.total && p.currency == o.currency
               && p.status == PaySucceeded && p.processedAt == Some(now))
      && (ps != "paid" ==> t'.payments == t.payments)
  {
  }

  /**
   * No duplicate check: verifying the same paid session twice records two payments for the
   * same order.
   */
  lemma VerifyTwiceRecordsTwoPayments(t: Tables, userId: nat, sessionId: string, now1: int, now2: int)
    requires FindOwnedOrderBySession(t.orders, sessionId, userId).Some?
    ensures var t1 := VerifyEffect(t, userId, sessionId, Returned(Some("paid")), now1).0;
      var t2 := VerifyEffect(t1, userId, sessionId, Returned(Some("paid")), now2).0;
      && |t2.payments| == |t.payments| + 2
      && t2.payments[|t.payments|].orderId == t2.payments[|t.payments| + 1].orderId
  {
    var o := FindOwnedOrderBySession(t.orders, sessionId, userId).value;
    StatusUpdateKeepsOwnedLookup(t.orders, ById(o.id), Confirmed, Some(PaySucceeded), sessionId, userId);
  }

  lemma VerifyPreservesValid(t: Tables, userId: nat, sessionId: string, retrieved: Call<Option<string>>, now: int)
    requires Valid(t)
    ensures Valid(VerifyEffect(t, userId, sessionId, retrieved, now).0)
  {
    if retrieved.Returned? && retrieved.value.Some? {
      var found := FindOwnedOrderBySession(t.orders, sessionId, userId);
      if found.Some? {
        VerifyWritesKeepValid(t, found.value, userId, sessionId, retrieved.value.value, now);
      }
    }
  }

  lemma VerifyWritesKeepValid(t: Tables, o: Order, userId: nat, sessionId: string, ps: string, now: int)
    requires Valid(t) && o in t.orders
    ensures Valid(VerifyWrites(t, o, userId, sessionId, ps, now))
  {
    var patch := SetStatus(VerifyMapping(ps).0, Some(VerifyMapping(ps).1));
    UpdateOrdersKeepsValid(t, ById(o.id), patch);
    var t1 := t.(orders := UpdateOrders(t.orders, ById(o.id), patch));
    var i :| 0 <= i < |t.orders| && t.orders[i] == o;
    AppendPaymentKeepsValid(t1, SessionPayment(o, userId, sessionId, now));
  }

  /** The handler: the order's statuses are chosen first, then written, then the payment and audit rows. */
  method VerifySession(db: Db, userId: nat, sessionId: string, retrieved: Call<Option<string>>, now: int)
    returns (resp: Response<VerifyReply>)
    modifies db
    ensures (db.State(), resp) == VerifyEffect(old(db.State()), userId, sessionId, retrieved, now)
  {
    if retrieved.Threw? {
      return Err(500);
    }
    if retrieved.value.None? {
      return Err(404);
    }
    var ps := retrieved.value.value;
    var found := FindOwnedOrderBySession(db.orders, sessionId, userId);
    if found.None? {
      return Err(404);
    }
    resp := RecordVerification(db, found.value, userId, sessionId, ps, now);
  }

  /** The writes of a verification: the statuses are chosen first, then written. */
  method RecordVerification(db: Db, o: Order, userId: nat, sessionId: string, ps: string, now: int)
    returns (resp: Response<VerifyReply>)
    modifies db
    ensures db.State() == VerifyWrites(old(db.State()), o, userId, sessionId, ps, now)
    ensures resp == Ok(VerifyReply(o.id, o.orderNumber, VerifyMapping(ps).0, VerifyMapping(ps).1, o.total, o.currency))
  {
    var status := Pending;
    var paymentStatus := PayPending;
    if ps == "paid" {
      status, paymentStatus := Confirmed, PaySucceeded;
    } else if ps == "unpaid" {
      status, paymentStatus := Cancelled, PayFailed;
    }
    db.UpdateOrdersWhere(ById(o.id), SetStatus(status, Some(paymentStatus)));
    if ps == "paid" {
      var _ := db.CreatePayment(SessionPayment(o, userId, sessionId, now));
    }
    db.CreateAuditEntry(AuditEntry(userId, OrderEntity, o.id, PaymentVerified(sessionId, ps, status, o.total)));
    resp := Ok(VerifyReply(o.id, o.orderNumber, status, paymentStatus, o.total, o.currency));
  }

  // ---------------------------------------------------------------- create-charge

  datatype ChargeRequest = ChargeRequest(amount: real, currency: string, paymentMethodId: string, customerEmail: string)

  /** The four validators of the route (`notEmpty` rejects only the empty string). */
  predicate ValidChargeRequest(req: ChargeRequest)
  {
    && req.amount >= 0.50
    && req.currency in SupportedCurrencies
    && req.paymentMethodId != ""
    && Text.IsEmail(req.customerEmail)
  }

  /** The processor's answer to a confirmed intent: its id and status. */
  datatype Intent = Intent(id: string, status: string)

  datatype ChargeReply = ChargeReply(intentId: string, status: string, amount: real, currency: string)

  /** The payment a direct charge records: no order, the request's amount, succeeded or failed. */
  function ChargePayment(userId: nat, req: ChargeRequest, intent: Intent, now: int): Payment
  {
    Payment(0, None, userId, None, Some(intent.id), None, req.amount, Text.ToUpper(req.currency),
            if intent.status == "succeeded" then PaySucceeded else PayFailed, None, Some(now), None, None)
  }

  /**
   * `POST /create-charge`: validate, create and confirm an intent for MinorUnits(amount),
   * record a payment without an order.
   */
  function ChargeEffect(t: Tables, userId: nat, req: ChargeRequest, intent: Call<Intent>, now: int)
    : (Tables, Response<ChargeReply>)
  {
    if !ValidChargeRequest(req) then (t, Err(400))
    else match intent
      case Threw => (t, Err(500))
      case Returned(pi) =>
        (t.(payments := AppendPayment(t.payments, ChargePayment(userId, req, pi, now))),
         Ok(ChargeReply(pi.id, pi.status, req.amount, req.currency)))
  }

  /**
   * Invalid requests and processor failures write nothing; otherwise exactly one payment is
   * appended, bound to no order, succeeded exactly when the intent did, and nothing else
   * changes.
   */
  lemma ChargeRecordsOnePayment(t: Tables, userId: nat, req: ChargeRequest, intent: Call<Intent>, now: int)
    ensures var (t', resp) := ChargeEffect(t, userId, req, intent, now);
      && (!ValidChargeRequest(req) ==> t' == t && resp == Err(400))
      && (ValidChargeRequest(req) && intent.Threw? ==> t' == t && resp == Err(500))
      && (ValidChargeRequest(req) && intent.Returned? ==>
            && t' == t.(payments := t'.payments)
            && |t'.payments| == |t.payments| + 1
            && var p := t'.payments[|t.payments|];
               p.orderId == None && p.amount == req.amount && p.paymentIntentId == Some(intent.value.id)
               && (p.status == PaySucceeded <==> intent.value.status == "succeeded")
               && (p.status != PaySucceeded ==> p.status == PayFailed))
  {
  }

  lemma ChargePreservesValid(t: Tables, userId: nat, req: ChargeRequest, intent: Call<Intent>, now: int)
    requires Valid(t)
    ensures Valid(ChargeEffect(t, userId, req, intent, now).0)
  {
    if ValidChargeRequest(req) && intent.Returned? {
      AppendPaymentKeepsIds(t.payments, ChargePayment(userId, req, intent.value, now));
    }
  }

  method CreateCharge(db: Db, userId: nat, req: ChargeRequest, intent: Call<Intent>, now: int)
    returns (resp: Response<ChargeReply>)
    modifies db
    ensures (db.State(), resp) == ChargeEffect(old(db.State()), userId, req, intent, now)
  {
    if !ValidChargeRequest(req) {
      return Err(400);
    }
    if intent.Threw? {
      return Err(500);
    }
    var pi := intent.value;
    var _ := db.CreatePayment(ChargePayment(userId, req, pi, now));
    resp := Ok(ChargeReply(pi.id, pi.status, req.amount, req.currency));
  }

  // ---------------------------------------------------------------- webhook

  /** A verified processor event: its type and the id of the session or intent it carries. */
  datatype Event = Event(kind: string, objectId: string)

  /** The payment the completed-session event records, from the first order of the session. */
  function WebhookPayment(order: Order, sessionId: string, now: int): Payment
  {
    Payment(0, Some(order.id), order.userId, Some(sessionId), None, None, order.total, order.currency,
            PaySucceeded, None, Some(now), None, None)
  }

  /**
   * `POST /webhook`. `secretConfigured` says whether the signing secret is set and
   * `signatureValid` whether the processor's signature check accepted the body.
   */
  function WebhookEffect(t: Tables, secretConfigured: bool, signatureValid: bool, e: Event, now: int)
    : (Tables, Response<()>)
  {
    if !secretConfigured then (t, Err(500))
    else if !signatureValid then (t, Err(400))
    else if e.kind == SessionCompleted then
      var orders := UpdateOrders(t.orders, BySession(e.objectId), SetStatus(Confirmed, Some(PaySucceeded)));
      match FindOrderBySession(orders, e.objectId)
      case None => (t.(orders := orders), Ok(()))
      case Some(o) => (t.(orders := orders, payments := AppendPayment(t.payments, WebhookPayment(o, e.objectId, now))), Ok(()))
    else if e.kind == SessionExpired then
      (t.(orders := UpdateOrders(t.orders, BySession(e.objectId), SetStatus(Cancelled, Some(PayFailed)))), Ok(()))
    else if e.kind == IntentSucceeded then
      (t.(payments := UpdatePayments(t.payments, e.objectId, PaymentPatch(PaySucceeded, Keep, Put(Some(now))))), Ok(()))
    else if e.kind == IntentFailed then
      (t.(payments := UpdatePayments(t.payments, e.objectId, PaymentPatch(PayFailed, Keep, Keep))), Ok(()))
    else (t, Ok(()))
  }

  /** Without a secret the answer is 500, with a bad signature 400; neither writes anything. */
  lemma WebhookRejectsUnsigned(t: Tables, secretConfigured: bool, signatureValid: bool, e: Event, now: int)
    ensures !secretConfigured ==> WebhookEffect(t, secretConfigured, signatureValid, e, now) == (t, Err(500))
    ensures secretConfigured && !signatureValid ==> WebhookEffect(t, secretConfigured, signatureValid, e, now) == (t, Err(400))
  {
  }

  /**
   * A completed session confirms every order carrying the session id and leaves the others;
   * users, items, sessions and the audit log are unchanged.
   */
  lemma WebhookCompleted(t: Tables, sessionId: string, now: int)
    ensures var t' := WebhookEffect(t, true, true, Event(SessionCompleted, sessionId), now).0;
      && t' == t.(orders := t'.orders, payments := t'.payments)
      && |t'.orders| == |t.orders|
      && (forall i :: 0 <= i < |t.orders| && t.orders[i].checkoutSessionId == Some(sessionId) ==>
            t'.orders[i].status == Confirmed && t'.orders[i].paymentStatus == PaySucceeded)
      && (forall i :: 0 <= i < |t.orders| && t.orders[i].checkoutSessionId != Some(sessionId) ==>
            t'.orders[i] == t.orders[i])
  {
  }

  /**
   * The payment a completed session records. When some order carries the session id, one
   * succeeded payment is appended after the earlier ones, for the first such order
   * (`LIMIT 1`): its id, owner, total and currency, the session id and the processing time
   * `now`. Otherwise no payment is written.
   */
  lemma WebhookCompletedPayment(t: Tables, sessionId: string, now: int)
    ensures var t' := WebhookEffect(t, true, true, Event(SessionCompleted, sessionId), now).0;
      && ((exists i :: 0 <= i < |t.orders| && t.orders[i].checkoutSessionId == Some(sessionId)) ==>
            var o := FindOrderBySession(t.orders, sessionId).value;
            t'.payments == t.payments + [Payment(|t.payments|, Some(o.id), o.userId, Some(sessionId), None, None,
                                                 o.total, o.currency, PaySucceeded, None, Some(now), None, None)])
      && ((forall i :: 0 <= i < |t.orders| ==> t.orders[i].checkoutSessionId != Some(sessionId)) ==>
            t'.payments == t.payments)
  {
    var orders := UpdateOrders(t.orders, BySession(sessionId), SetStatus(Confirmed, Some(PaySucceeded)));
    StatusUpdateKeepsSessionLookup(t.orders, BySession(sessionId), Confirmed, Some(PaySucceeded), sessionId);
    var found := FindOrderBySession(orders, sessionId);
    assert found.Some? <==> FindOrderBySession(t.orders, sessionId).Some?;
  }

  /** No duplicate check: a redelivered completed event records a second payment. */
  lemma WebhookReplayRecordsTwice(t: Tables, sessionId: string, now1: int, now2: int)
    requires exists i :: 0 <= i < |t.orders| && t.orders[i].checkoutSessionId == Some(sessionId)
    ensures var t1 := WebhookEffect(t, true, true, Event(SessionCompleted, sessionId), now1).0;
      var t2 := WebhookEffect(t1, true, true, Event(SessionCompleted, sessionId), now2).0;
      |t2.payments| == |t.payments| + 2
  {
    WebhookCompleted(t, sessionId, now1);
    WebhookCompletedPayment(t, sessionId, now1);
    var t1 := WebhookEffect(t, true, true, Event(SessionCompleted, sessionId), now1).0;
    var i :| 0 <= i < |t.orders| && t.orders[i].checkoutSessionId == Some(sessionId);
    assert t1.orders[i].checkoutSessionId == Some(sessionId);
    WebhookCompletedPayment(t1, sessionId, now2);
  }

  /**
   * An expired session cancels every order carrying it, whatever its state: an order already
   * confirmed and paid becomes (cancelled, failed). Payments are untouched.
   */
  lemma WebhookExpiredOverridesSuccess(t: Tables, sessionId: string, now: int, i: nat)
    requires i < |t.orders| && t.orders[i].checkoutSessionId == Some(sessionId)
    ensures var t' := WebhookEffect(t, true, true, Event(SessionExpired, sessionId), now).0;
      t'.orders[i].status == Cancelled && t'.orders[i].paymentStatus == PayFailed && t'.payments == t.payments
  {
  }

  /**
   * Intent events touch only the payments with that intent: success sets 'succeeded' and the
   * processing time, failure sets 'failed' and keeps the processing time; neither touches the
   * failure reason, the orders or any other table.
   */
  lemma WebhookIntentEvents(t: Tables, intentId: string, succeeded: bool, now: int, i: nat)
    requires i < |t.payments|
    ensures var kind := if succeeded then IntentSucceeded else IntentFailed;
      var t' := WebhookEffect(t, true, true, Event(kind, intentId), now).0;
      && t' == t.(payments := t'.payments)
      && |t'.payments| == |t.payments|
      && (t.payments[i].paymentIntentId == Some(intentId) ==>
            && t'.payments[i].status == (if succeeded then PaySucceeded else PayFailed)
            && t'.payments[i].failureReason == t.payments[i].failureReason
            && t'.payments[i].processedAt == (if succeeded then Some(now) else t.payments[i].processedAt))
      && (t.payments[i].paymentIntentId != Some(intentId) ==> t'.payments[i] == t.payments[i])
  {
  }

  /** Any other event type changes nothing and is acknowledged. */
  lemma WebhookUnknownIgnored(t: Tables, e: Event, now: int)
    requires e.kind !in {SessionCompleted, SessionExpired, IntentSucceeded, IntentFailed}
    ensures WebhookEffect(t, true, true, e, now) == (t, Ok(()))
  {
  }

  lemma WebhookPreservesValid(t: Tables, secretConfigured: bool, signatureValid: bool, e: Event, now: int)
    requires Valid(t)
    ensures Valid(WebhookEffect(t, secretConfigured, signatureValid, e, now).0)
  {
    if secretConfigured && signatureValid {
      if e.kind == SessionCompleted {
        CompletedKeepsValid(t, e, now);
      } else if e.kind == SessionExpired {
        UpdateOrdersKeepsIds(t.orders, BySession(e.objectId), SetStatus(Cancelled, Some(PayFailed)));
      } else if e.kind == IntentSucceeded {
        UpdatePaymentsKeepsIds(t.payments, e.objectId, PaymentPatch(PaySucceeded, Keep, Put(Some(now))));
      } else if e.kind == IntentFailed {
        UpdatePaymentsKeepsIds(t.payments, e.objectId, PaymentPatch(PayFailed, Keep, Keep));
      }
    }
  }

  /** The completed-session branch: the payment it appends names an existing order. */
  lemma CompletedKeepsValid(t: Tables, e: Event, now: int)
    requires Valid(t) && e.kind == SessionCompleted
    ensures Valid(WebhookEffect(t, true, true, e, now).0)
  {
    var patch := SetStatus(Confirmed, Some(PaySucceeded));
    var orders := UpdateOrders(t.orders, BySession(e.objectId), patch);
    UpdateOrdersKeepsValid(t, BySession(e.objectId), patch);
    var t1 := t.(orders := orders);
    var found := FindOrderBySession(orders, e.objectId);
    if found.Some? {
      var i :| 0 <= i < |orders| && orders[i] == found.value;
      AppendPaymentKeepsValid(t1, WebhookPayment(found.value, e.objectId, now));
    }
  }

  /** The handler: the event switch issues the UPDATEs keyed by session or intent id. */
  method Webhook(db: Db, secretConfigured: bool, signatureValid: bool, e: Event, now: int)
    returns (resp: Response<()>)
    modifies db
    ensures (db.State(), resp) == WebhookEffect(old(db.State()), secretConfigured, signatureValid, e, now)
  {
    if !secretConfigured {
      return Err(500);
    }
    if !signatureValid {
      return Err(400);
    }
    if e.kind == SessionCompleted {
      db.UpdateOrdersWhere(BySession(e.objectId), SetStatus(Confirmed, Some(PaySucceeded)));
      var found := FindOrderBySession(db.orders, e.objectId);
      if found.Some? {
        var _ := db.CreatePayment(WebhookPayment(found.value, e.objectId, now));
      }
    } else if e.kind == SessionExpired {
      db.UpdateOrdersWhere(BySession(e.objectId), SetStatus(Cancelled, Some(PayFailed)));
    } else if e.kind == IntentSucceeded {
      db.UpdatePaymentsWhere(e.objectId, PaymentPatch(PaySucceeded, Keep, Put(Some(now))));
    } else if e.kind == IntentFailed {
      db.UpdatePaymentsWhere(e.objectId, PaymentPatch(PayFailed, Keep, Keep));
    }
    resp := Ok(());
  }
}
