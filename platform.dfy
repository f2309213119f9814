/** Rows of the general platform tables (`communities`, `vendors`, `users`,
    `orders`) as the dashboard and community handlers read them, and the
    aggregation both app/routers/dashboard.py and app/routers/communities.py
    perform over a community's active vendors: the number of their orders
    and the revenue of their completed ones. */
module Platform {
  import opened Common
  import opened Sorting

  /** A `communities` row. Columns read with `row.get(key, default)` may be
      absent or NULL. */
  datatype CommunityRow = CommunityRow(
    id: string,
    name: string,
    code: string,
    address: Cell<string>,
    adminName: Cell<string>,
    adminEmail: Cell<string>,
    adminPhone: Cell<string>,
    isActive: Cell<bool>,
    createdAt: string,
    updatedAt: string)

  /** A `vendors` row. */
  datatype VendorRow = VendorRow(
    id: string,
    name: string,
    kind: string,
    communityId: Option<string>,
    adminId: Option<string>,
    isActive: bool,
    updatedAt: string)

  /** A `users` row. */
  datatype UserRow = UserRow(
    id: string,
    firstName: string,
    lastName: string,
    communityId: Option<string>,
    isActive: bool,
    createdAt: string,
    updatedAt: string)

  /** An `orders` row. `totalAmount` is None when the fetched row has no
      `total_amount` key, which `order.get("total_amount", 0)` reads as 0;
      dates and times are kept as the ISO text the handlers write. */
  datatype OrderRow = OrderRow(
    id: string,
    userId: string,
    vendorId: string,
    partnerId: Option<string>,
    status: string,
    totalAmount: Option<real>,
    deliveryAddress: Option<string>,
    deliveryDate: Option<string>,
    deliveryTime: Option<string>,
    specialInstructions: Option<string>,
    createdAt: string)

  /** `order.get("total_amount", 0)` */
  function AmountOf(o: OrderRow): real {
    o.totalAmount.GetOr(0.0)
  }

  predicate IsCompleted(o: OrderRow) {
    o.status == "completed"
  }

  predicate IsPending(o: OrderRow) {
    o.status == "pending"
  }

  /** `.eq("is_active", True)` on `communities`. */
  predicate CommunityActive(c: CommunityRow) {
    c.isActive == Val(true)
  }

  // ---------------------------------------------------------------------
  // Orders of a set of vendors

  /** Number of orders placed with vendor `vendorId`. */
  function OrdersOfVendor(orders: seq<OrderRow>, vendorId: string): (n: nat)
    ensures n <= |orders|
  {
    if orders == [] then 0
    else OrdersOfVendor(orders[..|orders| - 1], vendorId) + (if orders[|orders| - 1].vendorId == vendorId then 1 else 0)
  }

  /** Revenue of vendor `vendorId`: the completed orders' amounts. */
  function RevenueOfVendor(orders: seq<OrderRow>, vendorId: string): real {
    if orders == [] then 0.0
    else
      var o := orders[|orders| - 1];
      RevenueOfVendor(orders[..|orders| - 1], vendorId)
      + (if o.vendorId == vendorId && IsCompleted(o) then AmountOf(o) else 0.0)
  }

  /** Number of orders over a list of vendors, each vendor's orders counted
      once per occurrence of its id in the list. */
  function OrdersOfVendors(orders: seq<OrderRow>, vendorIds: seq<string>): nat {
    if vendorIds == [] then 0
    else OrdersOfVendors(orders, vendorIds[..|vendorIds| - 1]) + OrdersOfVendor(orders, vendorIds[|vendorIds| - 1])
  }

  function RevenueOfVendors(orders: seq<OrderRow>, vendorIds: seq<string>): real {
    if vendorIds == [] then 0.0
    else RevenueOfVendors(orders, vendorIds[..|vendorIds| - 1]) + RevenueOfVendor(orders, vendorIds[|vendorIds| - 1])
  }

  /** With non-negative amounts a vendor's revenue is non-negative. */
  lemma {:induction false} RevenueOfVendorNonNegative(orders: seq<OrderRow>, vendorId: string)
    requires forall o :: o in orders ==> AmountOf(o) >= 0.0
    ensures RevenueOfVendor(orders, vendorId) >= 0.0
  {
    if orders != [] {
      RevenueOfVendorNonNegative(orders[..|orders| - 1], vendorId);
    }
  }

  lemma {:induction false} RevenueOfVendorsNonNegative(orders: seq<OrderRow>, vendorIds: seq<string>)
    requires forall o :: o in orders ==> AmountOf(o) >= 0.0
    ensures RevenueOfVendors(orders, vendorIds) >= 0.0
  {
    if vendorIds != [] {
      RevenueOfVendorsNonNegative(orders, vendorIds[..|vendorIds| - 1]);
      RevenueOfVendorNonNegative(orders, vendorIds[|vendorIds| - 1]);
    }
  }

  /** A vendor that placed no orders adds nothing. */
  lemma {:induction false} NoOrdersNoRevenue(orders: seq<OrderRow>, vendorId: string)
    requires OrdersOfVendor(orders, vendorId) == 0
    ensures RevenueOfVendor(orders, vendorId) == 0.0
  {
    if orders != [] {
      NoOrdersNoRevenue(orders[..|orders| - 1], vendorId);
    }
  }

  /** The nested loop of the performance and statistics endpoints: for each
      vendor, fetch its orders, add their number to `count` and the amounts
      of the completed ones to `revenue`. */
  method VendorTotals(orders: seq<OrderRow>, vendorIds: seq<string>) returns (count: nat, revenue: real)
    ensures count == OrdersOfVendors(orders, vendorIds)
    ensures revenue == RevenueOfVendors(orders, vendorIds)
  {
    count, revenue := 0, 0.0;
    var i := 0;
    while i < |vendorIds|
      invariant 0 <= i <= |vendorIds|
      invariant count == OrdersOfVendors(orders, vendorIds[..i])
      invariant revenue == RevenueOfVendors(orders, vendorIds[..i])
    {
      var vendorId := vendorIds[i];
      var j := 0;
      var vendorCount: nat, vendorRevenue := 0, 0.0;
      while j < |orders|
        invariant 0 <= j <= |orders|
        invariant vendorCount == OrdersOfVendor(orders[..j], vendorId)
        invariant vendorRevenue == RevenueOfVendor(orders[..j], vendorId)
      {
        var o := orders[j];
        assert orders[..j + 1][..j] == orders[..j];
        if o.vendorId == vendorId {
          vendorCount := vendorCount + 1;
          if IsCompleted(o) {
            vendorRevenue := vendorRevenue + AmountOf(o);
          }
        }
        j := j + 1;
      }
      assert orders[..j] == orders;
      assert vendorIds[..i + 1][..i] == vendorIds[..i];
      count := count + vendorCount;
      revenue := revenue + vendorRevenue;
      i := i + 1;
    }
    assert vendorIds[..i] == vendorIds;
  }

  /** `revenue / order_count if order_count > 0 else 0` */
  function Average(revenue: real, count: nat): (avg: real)
    ensures count > 0 ==> avg * count as real == revenue
    ensures count == 0 ==> avg == 0.0
  {
    if count > 0 then revenue / count as real else 0.0
  }

  // ---------------------------------------------------------------------
  // Per-community selections

  /** Ids of the active vendors of a community, in fetched order. */
  function ActiveVendorIds(vendors: seq<VendorRow>, communityId: string): (ids: seq<string>)
    ensures |ids| <= |vendors|
    ensures forall id :: id in ids <==> exists v :: v in vendors && v.id == id && v.communityId == Some(communityId) && v.isActive
  {
    if vendors == [] then []
    else
      var v := vendors[|vendors| - 1];
      ActiveVendorIds(vendors[..|vendors| - 1], communityId)
      + (if v.communityId == Some(communityId) && v.isActive then [v.id] else [])
  }

  /** Number of active users of a community. */
  function ActiveUsersIn(users: seq<UserRow>, communityId: string): (n: nat)
    ensures n <= |users|
  {
    if users == [] then 0
    else
      var u := users[|users| - 1];
      ActiveUsersIn(users[..|users| - 1], communityId) + (if u.communityId == Some(communityId) && u.isActive then 1 else 0)
  }

  /** The active communities, in fetched order. */
  function ActiveCommunities(communities: seq<CommunityRow>): (r: seq<CommunityRow>)
    ensures |r| <= |communities|
    ensures forall c :: c in r <==> c in communities && CommunityActive(c)
  {
    if communities == [] then []
    else
      var c := communities[|communities| - 1];
      ActiveCommunities(communities[..|communities| - 1]) + (if CommunityActive(c) then [c] else [])
  }
}
