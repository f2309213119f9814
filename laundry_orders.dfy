/** Laundry order handling (app/routers/laundry.py): the localhost testing
    bypass that authenticates every laundry endpoint but the user
    dashboard, the ownership rule for "user" callers, the assembly of a
    partial update with its stage timestamp, and the `laundry_orders`
    table with creation, reading, updating, payment and role-based listing. */
module LaundryOrders {
  import opened Common
  import opened LaundryModels
  import opened LaundryPricing

  // ---------------------------------------------------------------------
  // Authentication (lines 20-49)

  const LOCAL_HOSTS: seq<string> := ["127.0.0.1", "localhost", "::1"]

  /** The mock user the bypass hands out. */
  const TESTING_USER := User("test-user-id", "master", "Test", "User", None, Some("test-community-id"))

  /** `get_current_user_or_testing` as written: a local client that sends
      `X-Testing: true` gets the mock master; every other request is
      refused with a 401. A bearer token is never looked at. */
  function CurrentUserOrTesting(clientHost: Option<string>, xTesting: Option<string>): (r: Result<User>)
    ensures r.Success? <==> clientHost.GetOr("") in LOCAL_HOSTS && xTesting == Some("true")
    ensures r.Success? ==> r.value.role == "master" && r.value.id == "test-user-id"
    ensures r.Failure? ==> r.error == Unauthorized("Not authenticated")
  {
    var host := clientHost.GetOr("");
    if host in LOCAL_HOSTS && xTesting == Some("true") then Success(TESTING_USER)
    else Failure(Unauthorized("Not authenticated"))
  }

  /** As written, no caller of a laundry endpoint guarded by the bypass is
      ever a "user": the only identity it yields is the mock master. */
  lemma BypassNeverYieldsUser(clientHost: Option<string>, xTesting: Option<string>)
    ensures CurrentUserOrTesting(clientHost, xTesting).Success? ==>
              CurrentUserOrTesting(clientHost, xTesting).value.role != "user"
  {
  }

  /** Whatever token a caller holds: a request from a host outside the
      local ones is turned away, a local one sending the testing header is
      served as the mock master, and no caller is ever served as the
      "user" its token names. */
  lemma TokenIgnoredAsWritten(tokenUser: User, clientHost: Option<string>, xTesting: Option<string>)
    requires tokenUser.role == "user"
    ensures clientHost.GetOr("") !in LOCAL_HOSTS ==>
              CurrentUserOrTesting(clientHost, xTesting) == Failure(Unauthorized("Not authenticated"))
    ensures clientHost.GetOr("") in LOCAL_HOSTS && xTesting == Some("true") ==>
              CurrentUserOrTesting(clientHost, xTesting) == Success(TESTING_USER)
    ensures CurrentUserOrTesting(clientHost, xTesting) != Success(tokenUser)
  {
  }

  /** The evident intent of the dependency ("get current user or allow
      testing mode only for localhost"): an authenticated bearer token
      decides the caller; only without one may a local testing request use
      the mock master. `token` is the outcome of bearer-token
      authentication, which is outside this model. */
  function CurrentUserOrTestingIntended(token: Result<User>, clientHost: Option<string>, xTesting: Option<string>)
    : (r: Result<User>)
    ensures token.Success? ==> r == token
    ensures token.Failure? ==> r == CurrentUserOrTesting(clientHost, xTesting)
  {
    if token.Success? then token else CurrentUserOrTesting(clientHost, xTesting)
  }

  /** With the intended dependency a "user" with a valid token reaches the
      role gate of order creation whatever the testing header says. */
  lemma IntendedAdmitsUsers(u: User, clientHost: Option<string>, xTesting: Option<string>)
    requires u.role == "user"
    ensures CurrentUserOrTestingIntended(Success(u), clientHost, xTesting) == Success(u)
    ensures CanCreateOrder(CurrentUserOrTestingIntended(Success(u), clientHost, xTesting).value)
  {
  }

  /** The role gate of `create_laundry_order` (lines 383-387). */
  predicate CanCreateOrder(user: User) {
    user.role == "user"
  }

  // ---------------------------------------------------------------------
  // Ownership (lines 576-580, 641-645, 709-713)

  /** A "user" may read, update or pay only their own orders; no other role
      is checked for ownership. */
  predicate MayAccess(user: User, order: LaundryOrder) {
    user.role != "user" || order.userId == user.id
  }

  // ---------------------------------------------------------------------
  // Partial updates and stage timestamps (lines 647-666)

  /** The statuses that stamp a timestamp column. */
  const STAGES: seq<string> := ["confirmed", "picked_up", "ready", "delivered", "cancelled"]

  const TIMESTAMP_COLUMNS: set<string> := {
    "confirmed_at", "picked_up_at", "ready_at", "delivered_at", "cancelled_at" }

  /** The column a status value stamps: `<status>_at` for the five stages,
      none for any other value (or a null status). */
  function StampColumn(status: Option<string>): (col: Option<string>)
    ensures col.Some? <==> status.Some? && status.value in STAGES
    ensures col.Some? ==> col.value == status.value + "_at" && col.value in TIMESTAMP_COLUMNS
  {
    if status == Some("confirmed") then Some("confirmed_at")
    else if status == Some("picked_up") then Some("picked_up_at")
    else if status == Some("ready") then Some("ready_at")
    else if status == Some("delivered") then Some("delivered_at")
    else if status == Some("cancelled") then Some("cancelled_at")
    else None
  }

  /** The column an update stamps, if any. */
  function StampFor(u: OrderUpdate): Option<string> {
    if u.status.Set? then StampColumn(u.status.value) else None
  }

  /** No updatable column is a timestamp column. */
  lemma ColumnsDisjoint()
    ensures UPDATABLE_COLUMNS * TIMESTAMP_COLUMNS == {}
  {
  }

  /** The copying loop of `update_data`: one entry per field sent, in any
      order. */
  method CopyFields(sent: map<string, Option<string>>) returns (d: map<string, Option<string>>)
    ensures d == sent
  {
    d := map[];
    var todo := sent.Keys;
    while todo != {}
      invariant todo <= sent.Keys
      invariant d.Keys == sent.Keys - todo
      invariant forall k :: k in d ==> d[k] == sent[k]
      decreases todo
    {
      var field :| field in todo;
      d := d[field := sent[field]];
      todo := todo - {field};
    }
  }

  /** Builds `update_data`: copies each field the client sent (no field of
      `LaundryOrderUpdate` is called `pickup_date`, so the ISO conversion of
      line 650 never applies), then, when a status was sent, adds the one
      timestamp column that status stamps, set to `now`. */
  method AssembleUpdate(u: OrderUpdate, now: string) returns (d: map<string, Option<string>>)
    ensures forall k :: k in d <==> k in Supplied(u) || Some(k) == StampFor(u)
    ensures forall k :: k in d && k in TIMESTAMP_COLUMNS ==> Some(k) == StampFor(u)
    ensures forall k :: k in Supplied(u) ==> d[k] == Supplied(u)[k]
    ensures StampFor(u).Some? ==> d[StampFor(u).value] == Some(now)
    ensures Assembled(u, now, d)
    ensures |d.Keys * TIMESTAMP_COLUMNS| == if StampFor(u).Some? then 1 else 0
  {
    var sent := Supplied(u);
    d := CopyFields(sent);
    d := AddStamp(u, now, d);
    StampsAtMostOne(u, now, d);
  }

  /** The second half of `update_data`: when the copied fields carry a
      status, adds the timestamp column that status stamps, set to `now`. */
  method AddStamp(u: OrderUpdate, now: string, sent: map<string, Option<string>>)
    returns (d: map<string, Option<string>>)
    requires sent == Supplied(u)
    ensures Assembled(u, now, d)
  {
    d := sent;
    ColumnsDisjoint();
    if "status" in d {
      var column := StampColumn(d["status"]);
      assert column == StampFor(u);
      if column.Some? {
        assert column.value !in sent by {
          assert column.value in TIMESTAMP_COLUMNS;
        }
        d := d[column.value := Some(now)];
      }
    } else {
      assert StampFor(u) == None;
    }
  }

  /** An update stamps a timestamp exactly when it sends one of the five
      stage statuses, and the assembled dictionary then holds exactly one
      timestamp column (none otherwise). */
  lemma StampsAtMostOne(u: OrderUpdate, now: string, d: map<string, Option<string>>)
    requires Assembled(u, now, d)
    ensures StampFor(u).Some? <==> u.status.Set? && u.status.value.Some? && u.status.value.value in STAGES
    ensures forall k :: k in d && k in TIMESTAMP_COLUMNS ==> Some(k) == StampFor(u)
    ensures |d.Keys * TIMESTAMP_COLUMNS| == if StampFor(u).Some? then 1 else 0
  {
    SuppliedUnstamped(u);
    var stamped: set<string> := if StampFor(u).Some? then {StampFor(u).value} else {};
    assert d.Keys * TIMESTAMP_COLUMNS == stamped;
  }

  /** No field a client can send is a timestamp column. */
  lemma SuppliedUnstamped(u: OrderUpdate)
    ensures forall k :: k in Supplied(u) ==> k !in TIMESTAMP_COLUMNS
  {
    ColumnsDisjoint();
    forall k | k in Supplied(u) ensures k !in TIMESTAMP_COLUMNS {
      assert k in UPDATABLE_COLUMNS * Supplied(u).Keys;
    }
  }

  /** The timestamp an order carries for a stage status. */
  function StageStamp(o: LaundryOrder, stage: string): Option<string> {
    if stage == "confirmed" then o.confirmedAt
    else if stage == "picked_up" then o.pickedUpAt
    else if stage == "ready" then o.readyAt
    else if stage == "delivered" then o.deliveredAt
    else if stage == "cancelled" then o.cancelledAt
    else None
  }

  /** The row after a database UPDATE with `update_data`: each column in the
      dictionary is overwritten, every other column kept. */
  function ApplyColumns(o: LaundryOrder, d: map<string, Option<string>>): LaundryOrder {
    o.(status := if "status" in d && d["status"].Some? then d["status"].value else o.status,
       pickupInstructions := Column(d, "pickup_instructions", o.pickupInstructions),
       deliveryAddress := Column(d, "delivery_address", o.deliveryAddress),
       deliveryInstructions := Column(d, "delivery_instructions", o.deliveryInstructions),
       estimatedDeliveryDate := Column(d, "estimated_delivery_date", o.estimatedDeliveryDate),
       estimatedDeliveryTime := Column(d, "estimated_delivery_time", o.estimatedDeliveryTime),
       confirmedAt := Column(d, "confirmed_at", o.confirmedAt),
       pickedUpAt := Column(d, "picked_up_at", o.pickedUpAt),
       readyAt := Column(d, "ready_at", o.readyAt),
       deliveredAt := Column(d, "delivered_at", o.deliveredAt),
       cancelledAt := Column(d, "cancelled_at", o.cancelledAt))
  }

  function Column(d: map<string, Option<string>>, name: string, current: Option<string>): Option<string> {
    if name in d then d[name] else current
  }

  /** The order after an accepted update: the fields sent are written, the
      stage the new status names is stamped with `now`, and nothing else
      changes. The current status is never consulted: any status string is
      accepted from any status. */
  function Updated(o: LaundryOrder, u: OrderUpdate, now: string): (r: LaundryOrder)
    ensures r == o.(status := r.status, pickupInstructions := r.pickupInstructions,
                    deliveryAddress := r.deliveryAddress, deliveryInstructions := r.deliveryInstructions,
                    estimatedDeliveryDate := r.estimatedDeliveryDate,
                    estimatedDeliveryTime := r.estimatedDeliveryTime,
                    confirmedAt := r.confirmedAt, pickedUpAt := r.pickedUpAt, readyAt := r.readyAt,
                    deliveredAt := r.deliveredAt, cancelledAt := r.cancelledAt)
    ensures u.status.Set? && u.status.value.Some? ==> r.status == u.status.value.value
    ensures u.status.Unset? ==> r.status == o.status
    ensures u.pickupInstructions.Unset? ==> r.pickupInstructions == o.pickupInstructions
    ensures u.deliveryAddress.Unset? ==> r.deliveryAddress == o.deliveryAddress
    ensures u.deliveryInstructions.Unset? ==> r.deliveryInstructions == o.deliveryInstructions
    ensures u.estimatedDeliveryDate.Unset? ==> r.estimatedDeliveryDate == o.estimatedDeliveryDate
    ensures u.estimatedDeliveryTime.Unset? ==> r.estimatedDeliveryTime == o.estimatedDeliveryTime
  {
    var s := u.status;
    o.(status := if s.Set? && s.value.Some? then s.value.value else o.status,
       pickupInstructions := if u.pickupInstructions.Set? then u.pickupInstructions.value else o.pickupInstructions,
       deliveryAddress := if u.deliveryAddress.Set? then u.deliveryAddress.value else o.deliveryAddress,
       deliveryInstructions :=
         if u.deliveryInstructions.Set? then u.deliveryInstructions.value else o.deliveryInstructions,
       estimatedDeliveryDate :=
         if u.estimatedDeliveryDate.Set? then u.estimatedDeliveryDate.value else o.estimatedDeliveryDate,
       estimatedDeliveryTime :=
         if u.estimatedDeliveryTime.Set? then u.estimatedDeliveryTime.value else o.estimatedDeliveryTime,
       confirmedAt := if s == Set(Some("confirmed")) then Some(now) else o.confirmedAt,
       pickedUpAt := if s == Set(Some("picked_up")) then Some(now) else o.pickedUpAt,
       readyAt := if s == Set(Some("ready")) then Some(now) else o.readyAt,
       deliveredAt := if s == Set(Some("delivered")) then Some(now) else o.deliveredAt,
       cancelledAt := if s == Set(Some("cancelled")) then Some(now) else o.cancelledAt)
  }

  /** The stage the sent status names is stamped with `now`; every other
      stage keeps its stamp. */
  lemma UpdatedStamps(o: LaundryOrder, u: OrderUpdate, now: string, stage: string)
    requires stage in STAGES
    ensures StageStamp(Updated(o, u, now), stage) == if u.status == Set(Some(stage)) then Some(now) else StageStamp(o, stage)
  {
  }

  /** The facts `AssembleUpdate` establishes about its dictionary. */
  ghost predicate Assembled(u: OrderUpdate, now: string, d: map<string, Option<string>>) {
    && (forall k :: k in d <==> k in Supplied(u) || Some(k) == StampFor(u))
    && (forall k :: k in Supplied(u) ==> d[k] == Supplied(u)[k])
    && (StampFor(u).Some? ==> d[StampFor(u).value] == Some(now))
  }

  /** Writing the assembled dictionary gives exactly the specified update. */
  lemma ApplyAssembled(o: LaundryOrder, u: OrderUpdate, now: string, d: map<string, Option<string>>)
    requires Assembled(u, now, d)
    requires u.status != Set(None)
    ensures ApplyColumns(o, d) == Updated(o, u, now)
  {
    ApplySentFields(o, u, now, d);
    ApplyStamps(o, u, now, d);
  }

  lemma ApplySentFields(o: LaundryOrder, u: OrderUpdate, now: string, d: map<string, Option<string>>)
    requires Assembled(u, now, d)
    requires u.status != Set(None)
    ensures var a, b := ApplyColumns(o, d), Updated(o, u, now);
            && a.status == b.status
            && a.pickupInstructions == b.pickupInstructions
            && a.deliveryAddress == b.deliveryAddress
            && a.deliveryInstructions == b.deliveryInstructions
            && a.estimatedDeliveryDate == b.estimatedDeliveryDate
            && a.estimatedDeliveryTime == b.estimatedDeliveryTime
  {
    ColumnsDisjoint();
  }

  lemma ApplyStamps(o: LaundryOrder, u: OrderUpdate, now: string, d: map<string, Option<string>>)
    requires Assembled(u, now, d)
    ensures var a, b := ApplyColumns(o, d), Updated(o, u, now);
            && a.confirmedAt == b.confirmedAt
            && a.pickedUpAt == b.pickedUpAt
            && a.readyAt == b.readyAt
            && a.deliveredAt == b.deliveredAt
            && a.cancelledAt == b.cancelledAt
  {
    ColumnsDisjoint();
    assert forall k :: k in TIMESTAMP_COLUMNS ==> k !in Supplied(u);
  }

  /** There is no transition table: a delivered order can be set back to
      "pending", and a cancelled one can later be stamped delivered too, so
      both terminal timestamps may end up set. */
  lemma {:induction false} NoTransitionTable(o: LaundryOrder, now1: string, now2: string)
    requires o.status == "delivered" && o.deliveredAt.Some? && o.cancelledAt.None?
    ensures var back := Updated(o, EMPTY_UPDATE.(status := Set(Some("pending"))), now1);
            back.status == "pending" && back.deliveredAt == o.deliveredAt
    ensures var c := Updated(o, EMPTY_UPDATE.(status := Set(Some("cancelled"))), now1);
            c.deliveredAt.Some? && c.cancelledAt == Some(now1)
  {
    var pending := EMPTY_UPDATE.(status := Set(Some("pending")));
    var cancel := EMPTY_UPDATE.(status := Set(Some("cancelled")));
    UpdatedStamps(o, pending, now1, "delivered");
    UpdatedStamps(o, cancel, now1, "delivered");
    UpdatedStamps(o, cancel, now1, "cancelled");
  }

  // ---------------------------------------------------------------------
  // Rows

  /** A `laundry_vendors` row as pricing and the dashboards read it. */
  datatype LaundryVendor = LaundryVendor(
    id: string,
    vendorId: string,
    businessName: string,
    pickupCharge: real,
    deliveryCharge: real)

  /** A `laundry_order_items` row. */
  datatype OrderItemRow = OrderItemRow(
    laundryOrderId: string,
    laundryItemId: string,
    quantity: Quantity,
    unitPrice: real,
    totalPrice: real,
    specialInstructions: Option<string>)

  function ItemRow(orderId: string, line: PricedLine): OrderItemRow {
    OrderItemRow(orderId, line.laundryItemId, line.quantity, line.unitPrice, line.totalPrice,
                 line.specialInstructions)
  }

  /** Column defaults the database applies to a new `laundry_orders` row;
      the insert sends neither column. */
  const DB_DEFAULT_STATUS := "pending"
  const DB_DEFAULT_PAYMENT_STATUS := "pending"

  /** `order_data.delivery_address or order_data.pickup_address`: an absent
      or empty delivery address falls back to the pickup address. */
  function DeliveryAddressFor(req: OrderCreate): (a: string)
    ensures req.deliveryAddress.Some? && req.deliveryAddress.value != "" ==> a == req.deliveryAddress.value
    ensures req.deliveryAddress.None? || req.deliveryAddress == Some("") ==> a == req.pickupAddress
  {
    if req.deliveryAddress.Some? && req.deliveryAddress.value != "" then req.deliveryAddress.value
    else req.pickupAddress
  }

  /** The generated order number, or `LND-<yyyymmdd>-001` when the
      generator returns nothing. */
  function OrderNumber(generated: Option<string>, yyyymmdd: string): string {
    if generated.Some? && generated.value != "" then generated.value else "LND-" + yyyymmdd + "-001"
  }

  /** The payment reference `PAY-LND-<timestamp>-<first 8 of order id, upper-cased>`. */
  function PaymentReference(stamp: string, orderId: string): (ref: string)
    ensures |ref| == 9 + |stamp| + (if |orderId| < 8 then |orderId| else 8)
    ensures ref[..8] == "PAY-LND-"
    ensures ref[8..8 + |stamp|] == stamp && ref[8 + |stamp|] == '-'
    ensures forall i :: 9 + |stamp| <= i < |ref| ==> ref[i] == UpperChar(orderId[i - 9 - |stamp|])
  {
    "PAY-LND-" + stamp + "-" + Upper(Prefix(orderId, 8))
  }

  /** The row written for a new order: the caller's id, the generated or
      fallback order number, the delivery address fallback, the catalog
      subtotal, the vendor's charges with the tax on top, the database's
      "pending" defaults and no stage timestamps. */
  function NewOrder(orderId: string, user: User, req: OrderCreate, orderNumber: string, c: Charges,
                    createdAt: string): LaundryOrder
  {
    LaundryOrder(
      orderId, user.id, req.laundryVendorId, orderNumber,
      req.pickupAddress, req.pickupDate, req.pickupTimeSlot, req.pickupInstructions,
      Some(DeliveryAddressFor(req)), None, None, req.deliveryInstructions,
      DB_DEFAULT_STATUS, c.subtotal, c.pickupCharge, c.deliveryCharge, c.taxAmount, c.totalAmount,
      DB_DEFAULT_PAYMENT_STATUS, None, None, None, None, None, None, None, createdAt)
  }

  /** What `create_laundry_order` stores, stated against the catalog and
      the vendor table. */
  ghost predicate IsNewOrder(o: LaundryOrder, orderId: string, user: User, req: OrderCreate,
                             generated: Option<string>, yyyymmdd: string,
                             catalog: map<string, LaundryItem>, vendors: map<string, LaundryVendor>)
  {
    && Listed(catalog, req.items) && req.laundryVendorId in vendors
    && var v := vendors[req.laundryVendorId];
    && o.id == orderId && o.userId == user.id && o.laundryVendorId == req.laundryVendorId
    && o.orderNumber == OrderNumber(generated, yyyymmdd)
    && o.status == "pending" && o.paymentStatus == "pending"
    && o.deliveryAddress == Some(DeliveryAddressFor(req))
    && o.subtotal == ExpectedSubtotal(catalog, req.items)
    && o.pickupCharge == v.pickupCharge && o.deliveryCharge == v.deliveryCharge
    && o.totalAmount == 1.18 * (o.subtotal + o.pickupCharge + o.deliveryCharge)
    && ChargesConsistent(o)
    && o.confirmedAt.None? && o.pickedUpAt.None? && o.readyAt.None? && o.deliveredAt.None? && o.cancelledAt.None?
  }

  /** An item row stores the requested line at the catalog price. */
  predicate RowFor(catalog: map<string, LaundryItem>, orderId: string, item: OrderItemCreate, row: OrderItemRow) {
    && item.laundryItemId in catalog
    && var price := catalog[item.laundryItemId].pricePerPiece;
       row == OrderItemRow(orderId, item.laundryItemId, item.quantity, price, price * item.quantity as real,
                           item.specialInstructions)
  }

  /** Stored totals obey the pricing rule. */
  /** The row built from a priced request and its vendor's charges is what
      `create_laundry_order` stores. */
  lemma NewOrderIsNew(orderId: string, user: User, req: OrderCreate, generated: Option<string>, yyyymmdd: string,
                      createdAt: string, catalog: map<string, LaundryItem>, vendors: map<string, LaundryVendor>,
                      subtotal: real)
    requires Listed(catalog, req.items) && req.laundryVendorId in vendors
    requires subtotal == ExpectedSubtotal(catalog, req.items)
    ensures var v := vendors[req.laundryVendorId];
            var o := NewOrder(orderId, user, req, OrderNumber(generated, yyyymmdd),
                              OrderCharges(subtotal, v.pickupCharge, v.deliveryCharge), createdAt);
            IsNewOrder(o, orderId, user, req, generated, yyyymmdd, catalog, vendors) && o.id == orderId
  {
  }

  predicate ChargesConsistent(o: LaundryOrder) {
    && o.taxAmount == (o.subtotal + o.pickupCharge + o.deliveryCharge) * TAX_RATE
    && o.totalAmount == o.subtotal + o.pickupCharge + o.deliveryCharge + o.taxAmount
  }

  ghost predicate TablesValid(orders: map<string, LaundryOrder>, orderItems: seq<OrderItemRow>) {
    && (forall id :: id in orders ==> orders[id].id == id && ChargesConsistent(orders[id]))
    && (forall i :: 0 <= i < |orderItems| ==>
          orderItems[i].laundryOrderId in orders
          && orderItems[i].totalPrice == orderItems[i].unitPrice * orderItems[i].quantity as real)
  }

  /** Storing a consistent row under its own id keeps the tables valid. */
  lemma StoreKeepsValid(orders: map<string, LaundryOrder>, orderItems: seq<OrderItemRow>, o: LaundryOrder)
    requires TablesValid(orders, orderItems)
    requires ChargesConsistent(o)
    ensures TablesValid(orders[o.id := o], orderItems)
  {
  }

  datatype PaymentReceipt = PaymentReceipt(success: bool, paymentReference: string, message: string)

  // ---------------------------------------------------------------------
  // The laundry tables

  class LaundryStore {
    /** `laundry_items`, by id. */
    var catalog: map<string, LaundryItem>
    /** `laundry_vendors`, by id. */
    var vendors: map<string, LaundryVendor>
    /** `laundry_orders`, by id. */
    var orders: map<string, LaundryOrder>
    /** `laundry_order_items`, in insertion order. */
    var orderItems: seq<OrderItemRow>

    /** Each order is stored under its id with totals that obey the pricing
        rule, and each item row belongs to a stored order and is priced
        `unit_price * quantity`. */
    ghost predicate Valid()
      reads this
    {
      TablesValid(orders, orderItems)
    }

    constructor (catalog: map<string, LaundryItem>, vendors: map<string, LaundryVendor>)
      ensures Valid()
      ensures this.catalog == catalog && this.vendors == vendors
      ensures orders == map[] && orderItems == []
    {
      this.catalog := catalog;
      this.vendors := vendors;
      orders := map[];
      orderItems := [];
    }

    /** `create_laundry_order`: the role gate, then pricing (a 400 at the
        first unknown item), then the vendor's charges (a 400 for an unknown
        vendor); all checks happen before anything is written. Then the
        order row, then one item row per priced line. */
    method CreateOrder(user: User, req: OrderCreate, orderId: string, generated: Option<string>,
                       yyyymmdd: string, createdAt: string) returns (r: Result<LaundryOrder>)
      requires Valid()
      requires orderId !in orders
      modifies this`orders, this`orderItems
      ensures Valid()
      ensures catalog == old(catalog) && vendors == old(vendors)
      ensures r.Success? <==> CanCreateOrder(user) && Listed(catalog, req.items) && req.laundryVendorId in vendors
      ensures !CanCreateOrder(user) ==> r == Failure(Forbidden("Only users can create laundry orders"))
      ensures CanCreateOrder(user) && !Listed(catalog, req.items) ==> r.Failure? && r.error.BadRequest?
      ensures CanCreateOrder(user) && Listed(catalog, req.items) && req.laundryVendorId !in vendors ==>
                r == Failure(BadRequest("Laundry vendor not found"))
      ensures r.Failure? ==> orders == old(orders) && orderItems == old(orderItems)
      ensures r.Success? ==>
                && orders == old(orders)[orderId := r.value]
                && IsNewOrder(r.value, orderId, user, req, generated, yyyymmdd, catalog, vendors)
      ensures r.Success? ==>
                && |orderItems| == |old(orderItems)| + |req.items|
                && orderItems[..|old(orderItems)|] == old(orderItems)
                && forall j :: 0 <= j < |req.items| ==>
                     RowFor(catalog, orderId, req.items[j], orderItems[|old(orderItems)| + j])
    {
      if !CanCreateOrder(user) {
        return Failure(Forbidden("Only users can create laundry orders"));
      }
      var priced := PriceItems(catalog, req.items);
      if priced.Failure? {
        return Failure(priced.error);
      }
      var lines := priced.value.lines;
      if req.laundryVendorId !in vendors {
        return Failure(BadRequest("Laundry vendor not found"));
      }
      var order := Place(user, req, orderId, generated, yyyymmdd, createdAt, lines, priced.value.subtotal);
      r := Success(order);
    }

    /** The successful path of `create_laundry_order`, once the request is
        priced and its vendor found: charges from the vendor, the order row,
        then its item rows. */
    method Place(user: User, req: OrderCreate, orderId: string, generated: Option<string>, yyyymmdd: string,
                 createdAt: string, lines: seq<PricedLine>, subtotal: real) returns (order: LaundryOrder)
      requires Valid()
      requires req.laundryVendorId in vendors
      requires |lines| == |req.items|
      requires forall j :: 0 <= j < |req.items| ==> PricedAt(catalog, req.items[j], lines[j])
      requires subtotal == LineTotals(lines)
      modifies this`orders, this`orderItems
      ensures Valid()
      ensures orders == old(orders)[orderId := order]
      ensures IsNewOrder(order, orderId, user, req, generated, yyyymmdd, catalog, vendors)
      ensures |orderItems| == |old(orderItems)| + |req.items|
      ensures orderItems[..|old(orderItems)|] == old(orderItems)
      ensures forall j :: 0 <= j < |req.items| ==> RowFor(catalog, orderId, req.items[j], orderItems[|old(orderItems)| + j])
    {
      SubtotalIsExpected(catalog, req.items, lines);
      var vendor := vendors[req.laundryVendorId];
      var c := OrderCharges(subtotal, vendor.pickupCharge, vendor.deliveryCharge);
      order := NewOrder(orderId, user, req, OrderNumber(generated, yyyymmdd), c, createdAt);
      NewOrderIsNew(orderId, user, req, generated, yyyymmdd, createdAt, catalog, vendors, subtotal);
      Insert(order, req.items, lines);
    }

    /** The writes of `create_laundry_order`: the order row, then its item
        rows. */
    method Insert(order: LaundryOrder, items: seq<OrderItemCreate>, lines: seq<PricedLine>)
      requires Valid() && ChargesConsistent(order)
      requires |lines| == |items|
      requires forall j :: 0 <= j < |items| ==> PricedAt(catalog, items[j], lines[j])
      modifies this`orders, this`orderItems
      ensures Valid()
      ensures orders == old(orders)[order.id := order]
      ensures |orderItems| == |old(orderItems)| + |items|
      ensures orderItems[..|old(orderItems)|] == old(orderItems)
      ensures forall j :: 0 <= j < |items| ==> RowFor(catalog, order.id, items[j], orderItems[|old(orderItems)| + j])
    {
      StoreKeepsValid(orders, orderItems, order);
      orders := orders[order.id := order];
      AppendItemRows(order.id, items, lines);
    }

    /** Inserts one `laundry_order_items` row per priced line, in order
        (lines 464-467). */
    method AppendItemRows(orderId: string, items: seq<OrderItemCreate>, lines: seq<PricedLine>)
      requires Valid()
      requires orderId in orders
      requires |lines| == |items|
      requires forall j :: 0 <= j < |items| ==> PricedAt(catalog, items[j], lines[j])
      modifies this`orderItems
      ensures Valid()
      ensures |orderItems| == |old(orderItems)| + |items|
      ensures orderItems[..|old(orderItems)|] == old(orderItems)
      ensures forall j :: 0 <= j < |items| ==> RowFor(catalog, orderId, items[j], orderItems[|old(orderItems)| + j])
    {
      var i := 0;
      while i < |lines|
        invariant 0 <= i <= |lines|
        invariant |orderItems| == |old(orderItems)| + i
        invariant orderItems[..|old(orderItems)|] == old(orderItems)
        invariant forall j :: 0 <= j < i ==> RowFor(catalog, orderId, items[j], orderItems[|old(orderItems)| + j])
        invariant Valid()
      {
        orderItems := orderItems + [ItemRow(orderId, lines[i])];
        i := i + 1;
      }
    }

    /** `get_laundry_order`: 404 for a missing order, 403 when a "user" asks
        for someone else's. */
    function GetOrder(user: User, orderId: string): (r: Result<LaundryOrder>)
      reads this
      ensures orderId !in orders ==> r == Failure(NotFound("Laundry order not found"))
      ensures orderId in orders && !MayAccess(user, orders[orderId]) ==> r == Failure(Forbidden("Access denied"))
      ensures r.Success? <==> orderId in orders && MayAccess(user, orders[orderId])
      ensures r.Success? ==> r.value == orders[orderId]
    {
      if orderId !in orders then Failure(NotFound("Laundry order not found"))
      else if !MayAccess(user, orders[orderId]) then Failure(Forbidden("Access denied"))
      else Success(orders[orderId])
    }

    /** `update_laundry_order`: 404, then the ownership check, then the
        assembled update is written. A status sent as null is taken to be
        refused by a NOT NULL `status` column, so the write itself fails,
        nothing changes, and the handler's `except` answers 400. */
    method UpdateOrder(user: User, orderId: string, u: OrderUpdate, now: string) returns (r: Result<LaundryOrder>)
      requires Valid()
      modifies this`orders
      ensures Valid()
      ensures orderId !in old(orders) ==> r == Failure(NotFound("Laundry order not found"))
      ensures orderId in old(orders) && !MayAccess(user, old(orders)[orderId]) ==>
                r == Failure(Forbidden("Access denied"))
      ensures r.Success? <==> orderId in old(orders) && MayAccess(user, old(orders)[orderId]) && u.status != Set(None)
      ensures r.Failure? ==> orders == old(orders)
      ensures r.Success? ==>
                && r.value == Updated(old(orders)[orderId], u, now)
                && orders == old(orders)[orderId := r.value]
    {
      if orderId !in orders {
        return Failure(NotFound("Laundry order not found"));
      }
      var current := orders[orderId];
      if !MayAccess(user, current) {
        return Failure(Forbidden("Access denied"));
      }
      var d := AssembleUpdate(u, now);
      if "status" in d && d["status"].None? {
        return Failure(BadRequest("Failed to update laundry order"));
      }
      assert u.status != Set(None);
      ApplyAssembled(current, u, now, d);
      var row := ApplyColumns(current, d);
      StoreKeepsValid(orders, orderItems, row);
      orders := orders[orderId := row];
      r := Success(row);
    }

    /** `process_laundry_payment` (dummy): 404, the ownership check, then the
        order's payment columns are set to paid with the generated
        reference. The order's status is left as it was. */
    method ProcessPayment(user: User, orderId: string, paymentMethod: string, stamp: string)
      returns (r: Result<PaymentReceipt>)
      requires Valid()
      modifies this`orders
      ensures Valid()
      ensures orderId !in old(orders) ==> r == Failure(NotFound("Laundry order not found"))
      ensures orderId in old(orders) && !MayAccess(user, old(orders)[orderId]) ==>
                r == Failure(Forbidden("Access denied"))
      ensures r.Success? <==> orderId in old(orders) && MayAccess(user, old(orders)[orderId])
      ensures r.Failure? ==> orders == old(orders)
      ensures r.Success? ==>
                var ref := PaymentReference(stamp, orderId);
                && r.value.success && r.value.paymentReference == ref
                && orders == old(orders)[orderId := old(orders)[orderId].(
                     paymentStatus := "paid", paymentMethod := Some(paymentMethod), paymentReference := Some(ref))]
                && orders[orderId].status == old(orders)[orderId].status
    {
      if orderId !in orders {
        return Failure(NotFound("Laundry order not found"));
      }
      var order := orders[orderId];
      if !MayAccess(user, order) {
        return Failure(Forbidden("Access denied"));
      }
      var ref := PaymentReference(stamp, orderId);
      orders := orders[orderId := order.(paymentStatus := "paid", paymentMethod := Some(paymentMethod),
                                         paymentReference := Some(ref))];
      r := Success(PaymentReceipt(true, ref, "Payment processed successfully (dummy implementation)"));
    }

    /** The rows `get_laundry_orders` selects, or None when the role is
        refused: a "user" sees their own orders, a "vendor" that names a
        vendor sees that vendor's orders, a "master" sees all; a non-empty
        status filter narrows any of these. */
    function Selected(user: User, status: Option<string>, vendorId: Option<string>)
      : (r: Option<map<string, LaundryOrder>>)
      reads this
      ensures r.None? <==>
                user.role != "user" && user.role != "master"
                && !(user.role == "vendor" && vendorId.Some? && vendorId.value != "")
      ensures r.Some? ==> forall id :: id in r.value <==> id in orders && Shown(user, status, vendorId, orders[id])
      ensures r.Some? ==> forall id :: id in r.value ==> r.value[id] == orders[id]
    {
      if user.role == "user" || (user.role == "vendor" && vendorId.Some? && vendorId.value != "")
         || user.role == "master"
      then Some(map id | id in orders && Shown(user, status, vendorId, orders[id]) :: orders[id])
      else None
    }

    /** `get_laundry_orders` as written. Its `status` query parameter shadows
        the `status` module, so building the 403 raises an AttributeError,
        and so does building the 400 in the handler's `except` clause: a
        refused role gets a 500. */
    function ListOrdersAsWritten(user: User, status: Option<string>, vendorId: Option<string>)
      : (r: Result<map<string, LaundryOrder>>)
      reads this
      ensures r.Failure? <==> Selected(user, status, vendorId).None?
      ensures r.Failure? ==> r.error.ServerError?
      ensures r.Success? ==> r.value == Selected(user, status, vendorId).value
    {
      var sel := Selected(user, status, vendorId);
      if sel.None? then Failure(ServerError("Internal Server Error")) else Success(sel.value)
    }

    /** `get_laundry_orders` as intended: a refused role gets the 403 the
        handler means to raise. */
    function ListOrders(user: User, status: Option<string>, vendorId: Option<string>)
      : (r: Result<map<string, LaundryOrder>>)
      reads this
      ensures r.Failure? <==> Selected(user, status, vendorId).None?
      ensures r.Failure? ==> r == Failure(Forbidden("Access denied"))
      ensures r.Success? ==> r.value == Selected(user, status, vendorId).value
    {
      var sel := Selected(user, status, vendorId);
      if sel.None? then Failure(Forbidden("Access denied")) else Success(sel.value)
    }
  }

  /** The row filter of `get_laundry_orders` for a permitted role. */
  predicate Shown(user: User, status: Option<string>, vendorId: Option<string>, o: LaundryOrder) {
    && (user.role == "user" ==> o.userId == user.id)
    && (user.role == "vendor" && vendorId.Some? && vendorId.value != "" ==> o.laundryVendorId == vendorId.value)
    && (status.Some? && status.value != "" ==> o.status == status.value)
  }

  /** A partner asking for the order list gets a 500 as written, where a 403
      is meant. */
  lemma PartnerListingFailsAsWritten(store: LaundryStore, partner: User)
    requires partner.role == "partner"
    ensures store.ListOrdersAsWritten(partner, None, None).Failure?
    ensures store.ListOrdersAsWritten(partner, None, None).error.ServerError?
    ensures store.ListOrders(partner, None, None) == Failure(Forbidden("Access denied"))
  {
  }

  /** A "user" only ever lists their own orders, whatever filters are sent. */
  lemma UserListsOnlyOwnOrders(store: LaundryStore, user: User, status: Option<string>, vendorId: Option<string>)
    requires user.role == "user"
    ensures store.ListOrders(user, status, vendorId).Success?
    ensures forall id :: id in store.ListOrders(user, status, vendorId).value ==>
              store.ListOrders(user, status, vendorId).value[id].userId == user.id
  {
  }
}
