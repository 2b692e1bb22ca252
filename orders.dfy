/**
 * The order routes of server/routes/orders.js: the caller's order list, one order with its
 * items and payment behind the 404/403 checks, and the cancellation rule of
 * `PATCH /:orderId/status`.
 */
module OrderRoutes {
  import opened Wrappers
  import opened Requests
  import opened Database
  import Rows

  datatype OrderWithItems = OrderWithItems(order: Order, items: seq<OrderItem>)

  /**
   * `GET /`: the caller's orders, newest first, each paired with its own items. Only reads
   * the tables.
   */
  method ListOrders(db: Db, userId: nat) returns (r: seq<OrderWithItems>)
    ensures |r| == |FindOrdersByUser(db.orders, userId)|
    ensures forall k :: 0 <= k < |r| ==> r[k].order == FindOrdersByUser(db.orders, userId)[k]
    ensures forall k :: 0 <= k < |r| ==> r[k].order in db.orders && r[k].order.userId == userId
    ensures forall o :: o in db.orders && o.userId == userId ==> exists k :: 0 <= k < |r| && r[k].order == o
    ensures forall k, it :: 0 <= k < |r| ==> (it in r[k].items <==> it in db.items && it.orderId == r[k].order.id)
    ensures forall k :: 0 <= k < |r| ==> r[k].items == FindItemsByOrder(db.items, r[k].order.id)
  {
    var orders := FindOrdersByUser(db.orders, userId);
    r := AttachItems(db.items, orders);
    forall o | o in db.orders && o.userId == userId
      ensures exists k :: 0 <= k < |r| && r[k].order == o
    {
      var k :| 0 <= k < |orders| && orders[k] == o;
      assert r[k].order == o;
    }
  }

  /** Pairs each order, in turn, with its own items. */
  method AttachItems(items: seq<OrderItem>, orders: seq<Order>) returns (r: seq<OrderWithItems>)
    ensures |r| == |orders|
    ensures forall k :: 0 <= k < |r| ==> r[k] == OrderWithItems(orders[k], FindItemsByOrder(items, orders[k].id))
  {
    r := [];
    var i := 0;
    while i < |orders|
      invariant 0 <= i <= |orders|
      invariant |r| == i
      invariant forall k :: 0 <= k < i ==> r[k] == OrderWithItems(orders[k], FindItemsByOrder(items, orders[k].id))
    {
      r := r + [OrderWithItems(orders[i], FindItemsByOrder(items, orders[i].id))];
      i := i + 1;
    }
  }

  datatype OrderDetail = OrderDetail(order: Order, items: seq<OrderItem>, payment: Option<Payment>)

  /** `GET /:orderId`: 404 when there is no such order, 403 when it is someone else's. */
  function GetOrder(t: Tables, userId: nat, orderId: nat): (r: Response<OrderDetail>)
    ensures r == Err(404) <==> FindOrderById(t.orders, orderId).None?
    ensures r == Err(403) <==> FindOrderById(t.orders, orderId).Some? && FindOrderById(t.orders, orderId).value.userId != userId
    ensures r.Ok? || r == Err(404) || r == Err(403)
    ensures r.Ok? ==> && r.data.order in t.orders && r.data.order.id == orderId && r.data.order.userId == userId
                      && (forall it :: it in r.data.items <==> it in t.items && it.orderId == orderId)
                      && (forall it :: multiset(r.data.items)[it] == if it.orderId == orderId then multiset(t.items)[it] else 0)
                      && Rows.IsSubsequence(r.data.items, t.items)
                      && (r.data.payment.Some? ==> r.data.payment.value in t.payments && r.data.payment.value.orderId == Some(orderId))
                      && (r.data.payment.Some? ==> exists i :: 0 <= i < |t.payments| && t.payments[i] == r.data.payment.value &&
                                                              forall j :: 0 <= j < i ==> t.payments[j].orderId != Some(orderId))
                      && (r.data.payment.None? <==> forall i :: 0 <= i < |t.payments| ==> t.payments[i].orderId != Some(orderId))
  {
    match FindOrderById(t.orders, orderId)
    case None => Err(404)
    case Some(o) =>
      if o.userId != userId then Err(403)
      else Ok(OrderDetail(o, FindItemsByOrder(t.items, orderId), FindPaymentByOrder(t.payments, orderId)))
  }

  /** Another user's order reveals nothing: the answer carries no order, items or payment. */
  lemma GetOrderOfOtherUser(t: Tables, userId: nat, orderId: nat)
    requires Valid(t) && orderId < |t.orders| && t.orders[orderId].userId != userId
    ensures GetOrder(t, userId, orderId) == Err(403)
  {
    FindOrderByIdSerial(t.orders, orderId);
  }

  // ---------------------------------------------------------------- PATCH /:orderId/status

  /** The statuses from which an order may still be cancelled (it has not shipped). */
  const Cancellable: set<OrderStatus> := {Pending, Confirmed, Processing}

  /**
   * `PATCH /:orderId/status` with body status `requested`. The answer carries the updated
   * row (the first row with the id).
   */
  function PatchStatusEffect(t: Tables, userId: nat, orderId: nat, requested: string): (Tables, Response<Order>)
  {
    match FindOrderById(t.orders, orderId)
    case None => (t, Err(404))
    case Some(o) =>
      if o.userId != userId then (t, Err(403))
      else if requested == "cancelled" && o.status in Cancellable then
        (t.(orders := UpdateOrders(t.orders, ById(orderId), SetStatus(Cancelled, Some(PayCancelled))),
            audit := t.audit + [AuditEntry(userId, OrderEntity, orderId, OrderCancelled(o.status, Cancelled))]),
         Ok(o.(status := Cancelled, paymentStatus := PayCancelled)))
      else (t, Err(400))
  }

  /** The 404 and 403 checks come first and write nothing. */
  lemma PatchChecksPrecedeWrites(t: Tables, userId: nat, orderId: nat, requested: string)
    ensures FindOrderById(t.orders, orderId).None? ==> PatchStatusEffect(t, userId, orderId, requested) == (t, Err(404))
    ensures FindOrderById(t.orders, orderId).Some? && FindOrderById(t.orders, orderId).value.userId != userId ==>
      PatchStatusEffect(t, userId, orderId, requested) == (t, Err(403))
  {
  }

  /**
   * A request succeeds exactly when the order exists, is the caller's, the requested status
   * is 'cancelled' and the order is pending, confirmed or processing.
   */
  lemma CancelIff(t: Tables, userId: nat, orderId: nat, requested: string)
    requires Valid(t)
    ensures PatchStatusEffect(t, userId, orderId, requested).1.Ok? <==>
      && orderId < |t.orders| && t.orders[orderId].userId == userId
      && requested == "cancelled" && t.orders[orderId].status != Cancelled
  {
    FindOrderByIdSerial(t.orders, orderId);
  }

  /**
   * A successful cancellation sets the order to (cancelled, cancelled), leaves every other
   * order alone and appends exactly one audit entry, holding the old and the new status.
   */
  lemma CancelEffect(t: Tables, userId: nat, orderId: nat, requested: string)
    requires Valid(t) && PatchStatusEffect(t, userId, orderId, requested).1.Ok?
    ensures var t' := PatchStatusEffect(t, userId, orderId, requested).0;
      && orderId < |t.orders|
      && t'.orders == t.orders[orderId := t.orders[orderId].(status := Cancelled, paymentStatus := PayCancelled)]
      && t'.audit == t.audit + [AuditEntry(userId, OrderEntity, orderId, OrderCancelled(t.orders[orderId].status, Cancelled))]
      && t' == t.(orders := t'.orders, audit := t'.audit)
  {
    FindOrderByIdSerial(t.orders, orderId);
    assert orderId < |t.orders|;
    var o := t.orders[orderId];
    var patch := SetStatus(Cancelled, Some(PayCancelled));
    UpdateOrderById(t.orders, orderId, patch);
    assert ApplyOrderPatch(o, patch) == o.(status := Cancelled, paymentStatus := PayCancelled);
    assert PatchStatusEffect(t, userId, orderId, requested).0
      == t.(orders := UpdateOrders(t.orders, ById(orderId), patch),
            audit := t.audit + [AuditEntry(userId, OrderEntity, orderId, OrderCancelled(o.status, Cancelled))]);
  }

  /**
   * Every other request for an existing order of the caller is answered 400 and changes
   * nothing; in particular an order that is already cancelled cannot be cancelled again.
   */
  lemma RejectedPatchChangesNothing(t: Tables, userId: nat, orderId: nat, requested: string)
    requires Valid(t) && orderId < |t.orders| && t.orders[orderId].userId == userId
    requires requested != "cancelled" || t.orders[orderId].status == Cancelled
    ensures PatchStatusEffect(t, userId, orderId, requested) == (t, Err(400))
  {
    FindOrderByIdSerial(t.orders, orderId);
  }

  lemma PatchPreservesValid(t: Tables, userId: nat, orderId: nat, requested: string)
    requires Valid(t)
    ensures Valid(PatchStatusEffect(t, userId, orderId, requested).0)
  {
    UpdateOrdersKeepsIds(t.orders, ById(orderId), SetStatus(Cancelled, Some(PayCancelled)));
  }

  method PatchOrderStatus(db: Db, userId: nat, orderId: nat, requested: string) returns (resp: Response<Order>)
    modifies db`orders, db`audit
    ensures (db.State(), resp) == PatchStatusEffect(old(db.State()), userId, orderId, requested)
  {
    var found := FindOrderById(db.orders, orderId);
    if found.None? {
      return Err(404);
    }
    var o := found.value;
    if o.userId != userId {
      return Err(403);
    }
    if requested == "cancelled" && o.status in Cancellable {
      resp := CancelOrder(db, userId, o);
    } else {
      resp := Err(400);
    }
  }

  /** The two writes of a cancellation: the statuses by id, then the audit entry with the old status. */
  method CancelOrder(db: Db, userId: nat, o: Order) returns (resp: Response<Order>)
    modifies db`orders, db`audit
    ensures db.State() == old(db.State()).(
      orders := UpdateOrders(old(db.orders), ById(o.id), SetStatus(Cancelled, Some(PayCancelled))),
      audit := old(db.audit) + [AuditEntry(userId, OrderEntity, o.id, OrderCancelled(o.status, Cancelled))])
    ensures resp == Ok(o.(status := Cancelled, paymentStatus := PayCancelled))
  {
    db.UpdateOrderStatus(o.id, Cancelled, Some(PayCancelled));
    db.CreateAuditEntry(AuditEntry(userId, OrderEntity, o.id, OrderCancelled(o.status, Cancelled)));
    resp := Ok(o.(status := Cancelled, paymentStatus := PayCancelled));
  }
}
