/** Generic orders (app/routers/orders.py): creation with its item rows,
    the role-based listing, the status update with its history entry, and
    the access rule for a single order. The `orders`, `order_items`,
    `order_status_history` and `vendors` tables are the fields of
    `OrderBook`. */
module Orders {
  import opened Common
  import opened Platform

  /** `OrderStatus` (app/models.py:18-23): the values a status update
      accepts. */
  const ORDER_STATUSES: set<string> := {"pending", "confirmed", "in_progress", "completed", "cancelled"}

  /** The roles `update_order_status` requires. */
  const STATUS_ROLES: seq<string> := ["admin", "partner", "master"]

  /** An entry of `OrderCreate.items`, a dictionary with these keys. */
  datatype ItemRequest = ItemRequest(productId: string, quantity: real, unitPrice: real)

  /** The `OrderCreate` request body. */
  datatype OrderRequest = OrderRequest(
    userId: string,
    vendorId: string,
    partnerId: Option<string>,
    totalAmount: real,
    deliveryAddress: Option<string>,
    deliveryDate: Option<string>,
    deliveryTime: Option<string>,
    specialInstructions: Option<string>,
    items: seq<ItemRequest>)

  /** An `order_items` row. */
  datatype ItemRow = ItemRow(orderId: string, productId: string, quantity: real, unitPrice: real, totalPrice: real)

  /** An `order_status_history` row. */
  datatype StatusChange = StatusChange(orderId: string, status: string, changedBy: string)

  /** The row `create_order` inserts: owned by the caller whatever user id
      the body names, pending, and carrying the client's total as sent. */
  function NewOrderRow(user: User, req: OrderRequest, id: string, now: string): (o: OrderRow)
    ensures o.id == id && o.userId == user.id && o.status == "pending"
    ensures o.totalAmount == Some(req.totalAmount)
    ensures o.vendorId == req.vendorId && o.partnerId == req.partnerId
    ensures o.deliveryAddress == req.deliveryAddress && o.specialInstructions == req.specialInstructions
  {
    OrderRow(id, user.id, req.vendorId, req.partnerId, "pending", Some(req.totalAmount), req.deliveryAddress,
             req.deliveryDate, req.deliveryTime, req.specialInstructions, now)
  }

  /** The item row written for `item`: its total is quantity times unit
      price. */
  predicate ItemRowFor(orderId: string, item: ItemRequest, row: ItemRow) {
    && row.orderId == orderId && row.productId == item.productId
    && row.quantity == item.quantity && row.unitPrice == item.unitPrice
    && row.totalPrice == item.quantity * item.unitPrice
  }

  /** Id of the first vendor, in fetched order, that `userId` administers. */
  function FirstAdministered(vendors: seq<VendorRow>, userId: string): (v: Option<string>)
    ensures v.None? <==> forall i :: 0 <= i < |vendors| ==> vendors[i].adminId != Some(userId)
    ensures v.Some? ==>
              exists i :: && 0 <= i < |vendors| && vendors[i].id == v.value && vendors[i].adminId == Some(userId)
                          && forall j :: 0 <= j < i ==> vendors[j].adminId != Some(userId)
  {
    if vendors == [] then None
    else if vendors[0].adminId == Some(userId) then Some(vendors[0].id)
    else
      var v := FirstAdministered(vendors[1..], userId);
      assert forall i :: 1 <= i < |vendors| ==> vendors[i] == vendors[1..][i - 1];
      v
  }

  /** Whether `get_orders` lists order `o` for `user`, given the vendor the
      user administers if any. */
  predicate Sees(user: User, administered: Option<string>, o: OrderRow) {
    if user.role == "user" then o.userId == user.id
    else if user.role == "admin" || user.role == "partner" then
      match administered
      case Some(vendorId) => o.vendorId == vendorId
      case None => o.partnerId == Some(user.id)
    else true
  }

  class OrderBook {
    var orders: map<string, OrderRow>
    var items: seq<ItemRow>
    var history: seq<StatusChange>
    var vendors: seq<VendorRow>

    constructor(vendors: seq<VendorRow>)
      ensures orders == map[] && items == [] && history == [] && this.vendors == vendors
    {
      orders := map[];
      items := [];
      history := [];
      this.vendors := vendors;
    }

    /** `create_order`: insert the pending order, then one item row per
        requested item, in order. The database supplies the fresh id. */
    method CreateOrder(user: User, req: OrderRequest, id: string, now: string) returns (o: OrderRow)
      requires id !in orders
      modifies this
      ensures o == NewOrderRow(user, req, id, now)
      ensures orders == old(orders)[id := o]
      ensures |items| == |old(items)| + |req.items| && items[..|old(items)|] == old(items)
      ensures forall j :: 0 <= j < |req.items| ==> ItemRowFor(id, req.items[j], items[|old(items)| + j])
      ensures history == old(history) && vendors == old(vendors)
    {
      o := NewOrderRow(user, req, id, now);
      orders := orders[id := o];
      ghost var before := items;
      for k := 0 to |req.items|
        invariant |items| == |before| + k && items[..|before|] == before
        invariant forall j :: 0 <= j < k ==> ItemRowFor(id, req.items[j], items[|before| + j])
        invariant orders == old(orders)[id := o] && history == old(history) && vendors == old(vendors)
      {
        var item := req.items[k];
        items := items + [ItemRow(id, item.productId, item.quantity, item.unitPrice, item.quantity * item.unitPrice)];
      }
    }

    /** `get_orders`: a "user" sees their own orders; an admin or partner
        sees the orders of the first vendor they administer, or failing
        that the orders naming them as partner; every other role sees all. */
    function VisibleOrders(user: User): (r: map<string, OrderRow>)
      reads this
      ensures forall id :: id in r ==> id in orders && r[id] == orders[id]
      ensures user.role == "user" ==> forall id :: id in orders ==> (id in r <==> orders[id].userId == user.id)
      ensures (user.role == "admin" || user.role == "partner") && FirstAdministered(vendors, user.id).Some? ==>
                forall id :: id in orders ==> (id in r <==> orders[id].vendorId == FirstAdministered(vendors, user.id).value)
      ensures (user.role == "admin" || user.role == "partner") && FirstAdministered(vendors, user.id).None? ==>
                forall id :: id in orders ==> (id in r <==> orders[id].partnerId == Some(user.id))
      ensures user.role != "user" && user.role != "admin" && user.role != "partner" ==> r == orders
    {
      var administered := FirstAdministered(vendors, user.id);
      map id | id in orders && Sees(user, administered, orders[id]) :: orders[id]
    }

    /** `get_order`: not found for an unknown id; a "user" may read only
        their own orders; every other role may read any order. */
    function GetOrder(user: User, orderId: string): (r: Result<OrderRow>)
      reads this
      ensures orderId !in orders ==> r == Failure(NotFound("Order not found"))
      ensures orderId in orders && user.role == "user" && orders[orderId].userId != user.id ==>
                r == Failure(Forbidden("Not authorized to view this order"))
      ensures r.Success? <==> orderId in orders && (user.role != "user" || orders[orderId].userId == user.id)
      ensures r.Success? ==> r.value == orders[orderId]
    {
      if orderId !in orders then Failure(NotFound("Order not found"))
      else if user.role == "user" && orders[orderId].userId != user.id then
        Failure(Forbidden("Not authorized to view this order"))
      else Success(orders[orderId])
    }

    /** `update_order_status`: only admins, partners and masters; the status
        must be an `OrderStatus` value; a missing order raises 404 inside the
        handler's `try`, which turns it into 400. On success the order takes
        the new status, whatever it was, and exactly one history entry is
        appended. */
    method UpdateStatus(user: User, orderId: string, newStatus: string) returns (r: Result<string>)
      modifies this
      ensures !HasRole(user, STATUS_ROLES) ==> r == Failure(Forbidden("Not enough permissions"))
      ensures HasRole(user, STATUS_ROLES) && newStatus !in ORDER_STATUSES ==> r == Failure(Unprocessable("new_status"))
      ensures HasRole(user, STATUS_ROLES) && newStatus in ORDER_STATUSES && orderId !in old(orders) ==>
                r == Failure(BadRequest("Failed to update order status: 404: Order not found"))
      ensures r.Success? <==> HasRole(user, STATUS_ROLES) && newStatus in ORDER_STATUSES && orderId in old(orders)
      ensures r.Failure? ==> orders == old(orders) && history == old(history)
      ensures r.Success? ==>
                && r.value == "Order status updated successfully"
                && orders == old(orders)[orderId := old(orders)[orderId].(status := newStatus)]
                && history == old(history) + [StatusChange(orderId, newStatus, user.id)]
      ensures items == old(items) && vendors == old(vendors)
    {
      if !HasRole(user, STATUS_ROLES) {
        return Failure(Forbidden("Not enough permissions"));
      }
      if newStatus !in ORDER_STATUSES {
        return Failure(Unprocessable("new_status"));
      }
      if orderId !in orders {
        return Failure(BadRequest("Failed to update order status: 404: Order not found"));
      }
      orders := orders[orderId := orders[orderId].(status := newStatus)];
      history := history + [StatusChange(orderId, newStatus, user.id)];
      return Success("Order status updated successfully");
    }
  }

  /** For a "user" the listing and the single-order read agree: an order is
      listed exactly when reading it succeeds. */
  lemma UserListingAgreesWithGet(book: OrderBook, user: User, orderId: string)
    requires user.role == "user"
    ensures orderId in book.VisibleOrders(user) <==> book.GetOrder(user, orderId).Success?
  {
  }

  /** An admin or partner may read any order by id, including orders their
      listing leaves out. */
  lemma StaffReadBeyondListing(book: OrderBook, user: User, orderId: string)
    requires user.role == "admin" || user.role == "partner"
    requires orderId in book.orders && orderId !in book.VisibleOrders(user)
    ensures book.GetOrder(user, orderId) == Success(book.orders[orderId])
  {
  }
}
