/** The two laundry dashboards (app/routers/laundry.py): a vendor's order
    statistics, revenue and recent orders, and a user's order statistics,
    spending, favourite vendor and recent orders. Tables are passed in as
    snapshots of their rows in the order the database returns them;
    `dateOf` stands for parsing a `created_at` timestamp to its date and
    `today` for the server's current date. */
module LaundryDashboards {
  import opened Common
  import opened Sorting
  import opened LaundryModels
  import opened LaundryOrders

  // ---------------------------------------------------------------------
  // Ordering by creation time

  /** `a` was created no earlier than `b` (timestamps compared as text). */
  predicate CreatedGe(a: LaundryOrder, b: LaundryOrder) {
    StrLe(b.createdAt, a.createdAt)
  }

  lemma CreatedGeIsPreorder()
    ensures TotalPreorder(CreatedGe)
  {
    forall a: LaundryOrder, b: LaundryOrder ensures CreatedGe(a, b) || CreatedGe(b, a) {
      StrLeTotal(a.createdAt, b.createdAt);
    }
    forall a: LaundryOrder, b: LaundryOrder, c: LaundryOrder | CreatedGe(a, b) && CreatedGe(b, c)
      ensures CreatedGe(a, c)
    {
      StrLeTransitive(c.createdAt, b.createdAt, a.createdAt);
    }
  }

  /** The `n` most recent orders, newest first; equal timestamps keep their
      fetched order. */
  function MostRecent(orders: seq<LaundryOrder>, n: nat): (r: seq<LaundryOrder>)
    ensures |r| == if n <= |orders| then n else |orders|
    ensures multiset(r) <= multiset(orders)
    ensures SortedDesc(r, CreatedGe)
    ensures forall i, j :: 0 <= i < |r| && n <= j < |orders| ==> CreatedGe(r[i], SortDesc(orders, CreatedGe)[j])
    ensures forall x, y :: x in r && y in orders && y !in r ==> CreatedGe(x, y)
  {
    var t := SortDesc(orders, CreatedGe);
    CreatedGeIsPreorder();
    SortDescSorted(orders, CreatedGe);
    PrefixOfSortedIsTop(orders, CreatedGe, n);
    SliceOfSortedIsTop(orders, CreatedGe, n);
    assert SliceTo(t, n) == Prefix(t, n);
    if n <= |t| then PrefixMultiset(t, n); Prefix(t, n) else Prefix(t, n)
  }

  // ---------------------------------------------------------------------
  // Vendor dashboard (lines 743-830)

  /** The `laundry_orders` rows of one laundry vendor, in fetched order. */
  function OrdersOf(orders: seq<LaundryOrder>, vendorId: string): (r: seq<LaundryOrder>)
    ensures |r| <= |orders|
    ensures forall o :: o in r <==> o in orders && o.laundryVendorId == vendorId
  {
    if orders == [] then []
    else
      var last := orders[|orders| - 1];
      OrdersOf(orders[..|orders| - 1], vendorId) + (if last.laundryVendorId == vendorId then [last] else [])
  }

  /** `len([o for o in orders if o["status"] == status])` */
  function CountStatus(orders: seq<LaundryOrder>, status: string): (n: nat)
    ensures n <= |orders|
  {
    if orders == [] then 0
    else CountStatus(orders[..|orders| - 1], status) + (if orders[|orders| - 1].status == status then 1 else 0)
  }

  /** The six statuses the vendor statistics count. */
  const COUNTED_STATUSES: seq<string> := ["pending", "confirmed", "in_process", "ready", "delivered", "cancelled"]

  function CountOther(orders: seq<LaundryOrder>): nat {
    if orders == [] then 0
    else CountOther(orders[..|orders| - 1]) + (if orders[|orders| - 1].status !in COUNTED_STATUSES then 1 else 0)
  }

  /** The six status counts and the orders in any other status (such as
      "picked_up", which no counter covers) add up to the total. */
  lemma {:induction false} StatusCountsPartition(orders: seq<LaundryOrder>)
    ensures CountStatus(orders, "pending") + CountStatus(orders, "confirmed") + CountStatus(orders, "in_process")
            + CountStatus(orders, "ready") + CountStatus(orders, "delivered") + CountStatus(orders, "cancelled")
            + CountOther(orders) == |orders|
  {
    if orders != [] {
      StatusCountsPartition(orders[..|orders| - 1]);
    }
  }

  /** Total of the delivered orders created on `day`. */
  function RevenueOn(orders: seq<LaundryOrder>, dateOf: string -> Date, day: Date): real {
    if orders == [] then 0.0
    else
      var o := orders[|orders| - 1];
      RevenueOn(orders[..|orders| - 1], dateOf, day)
      + (if o.status == "delivered" && dateOf(o.createdAt) == day then o.totalAmount else 0.0)
  }

  /** Total of the delivered orders created on or after `from`. */
  function RevenueSince(orders: seq<LaundryOrder>, dateOf: string -> Date, from: Date): real {
    if orders == [] then 0.0
    else
      var o := orders[|orders| - 1];
      RevenueSince(orders[..|orders| - 1], dateOf, from)
      + (if o.status == "delivered" && DateLe(from, dateOf(o.createdAt)) then o.totalAmount else 0.0)
  }

  /** Today's revenue is part of the month's: with non-negative totals it is
      never larger. */
  lemma {:induction false} TodayWithinMonth(orders: seq<LaundryOrder>, dateOf: string -> Date, today: Date)
    requires ValidDate(today)
    requires forall i :: 0 <= i < |orders| ==> orders[i].totalAmount >= 0.0
    ensures 0.0 <= RevenueOn(orders, dateOf, today) <= RevenueSince(orders, dateOf, FirstOfMonth(today))
  {
    if orders != [] {
      TodayWithinMonth(orders[..|orders| - 1], dateOf, today);
    }
  }

  /** The dashboard's revenue figures for one vendor when every stored
      total is non-negative. */
  lemma VendorRevenueBound(orders: seq<LaundryOrder>, vendorId: string, dateOf: string -> Date, today: Date)
    ensures ValidDate(today) && (forall o :: o in orders ==> o.totalAmount >= 0.0) ==>
              var mine := OrdersOf(orders, vendorId);
              0.0 <= RevenueOn(mine, dateOf, today) <= RevenueSince(mine, dateOf, FirstOfMonth(today))
  {
    if ValidDate(today) && (forall o :: o in orders ==> o.totalAmount >= 0.0) {
      var mine := OrdersOf(orders, vendorId);
      assert forall i :: 0 <= i < |mine| ==> mine[i] in orders;
      TodayWithinMonth(mine, dateOf, today);
    }
  }

  /** Available catalog items of one laundry vendor. */
  function ActiveItems(items: seq<LaundryItem>, vendorId: string): (n: nat)
    ensures n <= |items|
  {
    if items == [] then 0
    else
      var it := items[|items| - 1];
      ActiveItems(items[..|items| - 1], vendorId) + (if it.laundryVendorId == vendorId && it.isAvailable then 1 else 0)
  }

  datatype VendorStats = VendorStats(
    totalOrders: nat,
    pendingOrders: nat,
    confirmedOrders: nat,
    inProcessOrders: nat,
    readyOrders: nat,
    deliveredOrders: nat,
    cancelledOrders: nat,
    todayRevenue: real,
    monthlyRevenue: real,
    activeItems: nat)

  datatype VendorDashboard = VendorDashboard(stats: VendorStats, recentOrders: seq<LaundryOrder>)

  /** May `user` see the dashboard of laundry vendor `vendorId`? A master
      always may; anyone else must own the `vendors` row the laundry vendor
      belongs to. `laundryVendors` maps a laundry vendor to its `vendor_id`,
      `vendorOwners` a vendor to its `user_id`. */
  function VendorAccess(user: User, vendorId: string, laundryVendors: map<string, string>,
                        vendorOwners: map<string, string>): (r: Result<()>)
    ensures r.Success? <==>
              user.role == "master"
              || (vendorId in laundryVendors && laundryVendors[vendorId] in vendorOwners
                  && vendorOwners[laundryVendors[vendorId]] == user.id)
    ensures user.role != "master" && vendorId !in laundryVendors ==> r == Failure(NotFound("Vendor not found"))
    ensures r.Failure? && vendorId in laundryVendors ==> r == Failure(Forbidden("Access denied"))
  {
    if user.role == "master" then Success(())
    else if vendorId !in laundryVendors then Failure(NotFound("Vendor not found"))
    else if laundryVendors[vendorId] !in vendorOwners || vendorOwners[laundryVendors[vendorId]] != user.id
    then Failure(Forbidden("Access denied"))
    else Success(())
  }

  /** `get_vendor_dashboard`. */
  function GetVendorDashboard(user: User, vendorId: string, laundryVendors: map<string, string>,
                              vendorOwners: map<string, string>, orders: seq<LaundryOrder>,
                              items: seq<LaundryItem>, dateOf: string -> Date, today: Date)
    : (r: Result<VendorDashboard>)
    ensures r.Success? <==> VendorAccess(user, vendorId, laundryVendors, vendorOwners).Success?
    ensures r.Failure? ==> r.error == VendorAccess(user, vendorId, laundryVendors, vendorOwners).error
    ensures r.Success? ==>
              var s := r.value.stats;
              var mine := OrdersOf(orders, vendorId);
              && s.totalOrders == |mine|
              && s.pendingOrders == CountStatus(mine, "pending")
              && s.confirmedOrders == CountStatus(mine, "confirmed")
              && s.inProcessOrders == CountStatus(mine, "in_process")
              && s.readyOrders == CountStatus(mine, "ready")
              && s.deliveredOrders == CountStatus(mine, "delivered")
              && s.cancelledOrders == CountStatus(mine, "cancelled")
              && s.pendingOrders + s.confirmedOrders + s.inProcessOrders + s.readyOrders + s.deliveredOrders
                 + s.cancelledOrders <= s.totalOrders
              && s.todayRevenue == RevenueOn(mine, dateOf, today)
              && s.monthlyRevenue == RevenueSince(mine, dateOf, FirstOfMonth(today))
              && (ValidDate(today) && (forall o :: o in orders ==> o.totalAmount >= 0.0) ==>
                    0.0 <= s.todayRevenue <= s.monthlyRevenue)
              && s.activeItems == ActiveItems(items, vendorId)
              && s.activeItems <= |items|
              && |r.value.recentOrders| == (if |mine| < 5 then |mine| else 5)
              && SortedDesc(r.value.recentOrders, CreatedGe)
              && (forall o :: o in r.value.recentOrders ==> o in orders && o.laundryVendorId == vendorId)
              && forall x, y :: x in r.value.recentOrders && y in mine && y !in r.value.recentOrders ==> CreatedGe(x, y)
  {
    var access := VendorAccess(user, vendorId, laundryVendors, vendorOwners);
    if access.Failure? then Failure(access.error)
    else
      var mine := OrdersOf(orders, vendorId);
      StatusCountsPartition(mine);
      VendorRevenueBound(orders, vendorId, dateOf, today);
      var recent := MostRecent(mine, 5);
      assert forall o :: o in recent ==> o in mine by {
        forall o | o in recent ensures o in mine {
          assert o in multiset(recent);
        }
      }
      var stats := VendorStats(
        |mine|,
        CountStatus(mine, "pending"), CountStatus(mine, "confirmed"), CountStatus(mine, "in_process"),
        CountStatus(mine, "ready"), CountStatus(mine, "delivered"), CountStatus(mine, "cancelled"),
        RevenueOn(mine, dateOf, today), RevenueSince(mine, dateOf, FirstOfMonth(today)),
        ActiveItems(items, vendorId));
      Success(VendorDashboard(stats, recent))
  }

  // ---------------------------------------------------------------------
  // User dashboard (lines 832-889)

  /** A `laundry_orders` row joined with its vendor's business name; None
      when the vendor row is missing, which the inner join drops. */
  datatype VendorOrder = VendorOrder(order: LaundryOrder, businessName: Option<string>)

  /** The rows the user dashboard fetches: the caller's orders that have a
      vendor, in fetched order. */
  function OwnOrders(rows: seq<VendorOrder>, userId: string): (r: seq<VendorOrder>)
    ensures |r| <= |rows|
    ensures forall x :: x in r <==> x in rows && x.order.userId == userId && x.businessName.Some?
  {
    if rows == [] then []
    else
      var last := rows[|rows| - 1];
      OwnOrders(rows[..|rows| - 1], userId)
      + (if last.order.userId == userId && last.businessName.Some? then [last] else [])
  }

  /** The statuses the user dashboard reports as pending. */
  predicate IsOpen(x: VendorOrder) {
    x.order.status in ["pending", "confirmed", "picked_up", "in_process"]
  }

  predicate IsDelivered(x: VendorOrder) {
    x.order.status == "delivered"
  }

  function TotalOf(x: VendorOrder): real {
    x.order.totalAmount
  }

  function NameOf(x: VendorOrder): string {
    x.businessName.GetOr("")
  }

  function Names(rows: seq<VendorOrder>): (r: seq<string>)
    ensures |r| == |rows|
    ensures forall i :: 0 <= i < |rows| ==> r[i] == NameOf(rows[i])
  {
    if rows == [] then [] else Names(rows[..|rows| - 1]) + [NameOf(rows[|rows| - 1])]
  }

  predicate RowCreatedGe(a: VendorOrder, b: VendorOrder) {
    CreatedGe(a.order, b.order)
  }

  lemma RowCreatedGeIsPreorder()
    ensures TotalPreorder(RowCreatedGe)
  {
    forall a: VendorOrder, b: VendorOrder ensures RowCreatedGe(a, b) || RowCreatedGe(b, a) {
      StrLeTotal(a.order.createdAt, b.order.createdAt);
    }
    forall a: VendorOrder, b: VendorOrder, c: VendorOrder | RowCreatedGe(a, b) && RowCreatedGe(b, c)
      ensures RowCreatedGe(a, c)
    {
      StrLeTransitive(c.order.createdAt, b.order.createdAt, a.order.createdAt);
    }
  }

  /** Dictionary keys in insertion order: each name where it first occurs. */
  function FirstSeen(names: seq<string>): (keys: seq<string>)
    ensures forall k :: k in keys <==> k in names
    ensures forall i, j :: 0 <= i < j < |keys| ==> keys[i] != keys[j]
  {
    if names == [] then []
    else
      var keys := FirstSeen(names[..|names| - 1]);
      var last := names[|names| - 1];
      assert names == names[..|names| - 1] + [last];
      if last in keys then keys else keys + [last]
  }

  /** The position where `n` first occurs in `names`. */
  function FirstIndex(names: seq<string>, n: string): (i: nat)
    requires n in names
    ensures i < |names| && names[i] == n && n !in names[..i]
  {
    var init := names[..|names| - 1];
    if n in init then FirstIndex(init, n) else |names| - 1
  }

  /** Insertion order is order of first occurrence. */
  lemma {:induction false} FirstSeenOrder(names: seq<string>)
    ensures forall i, j :: 0 <= i < j < |FirstSeen(names)| ==>
              FirstIndex(names, FirstSeen(names)[i]) < FirstIndex(names, FirstSeen(names)[j])
  {
    if names != [] {
      var init := names[..|names| - 1];
      var last := names[|names| - 1];
      FirstSeenOrder(init);
      var before := FirstSeen(init);
      forall k | k in init ensures FirstIndex(names, k) == FirstIndex(init, k) < |init| {
      }
      if last !in init {
        assert FirstSeen(names) == before + [last];
        assert FirstIndex(names, last) == |init|;
        forall i, j | 0 <= i < j < |before| + 1
          ensures FirstIndex(names, (before + [last])[i]) < FirstIndex(names, (before + [last])[j])
        {
          assert (before + [last])[i] == before[i] && before[i] in init;
          if j < |before| {
            assert (before + [last])[j] == before[j] && before[j] in init;
            assert FirstIndex(init, before[i]) < FirstIndex(init, before[j]);
          } else {
            assert (before + [last])[j] == last;
          }
        }
      } else {
        assert FirstSeen(names) == before;
        forall i, j | 0 <= i < j < |before|
          ensures FirstIndex(names, before[i]) < FirstIndex(names, before[j])
        {
          assert before[i] in init && before[j] in init;
          assert FirstIndex(init, before[i]) < FirstIndex(init, before[j]);
        }
      }
    }
  }

  /** How often `n` occurs in `names`. */
  function Occurrences(names: seq<string>, n: string): nat {
    multiset(names)[n]
  }

  /** The counting loop: a dictionary from each name to its number of
      occurrences, with its keys in insertion order. */
  method CountNames(names: seq<string>) returns (counts: map<string, nat>, keys: seq<string>)
    ensures keys == FirstSeen(names)
    ensures forall k :: k in counts <==> k in names
    ensures forall k :: k in counts ==> counts[k] == Occurrences(names, k)
  {
    counts := map[];
    keys := [];
    var i := 0;
    while i < |names|
      invariant 0 <= i <= |names|
      invariant Tallied(names[..i], counts, keys)
    {
      var name := names[i];
      TallyStep(names, i, counts, keys);
      counts := counts[name := (if name in counts then counts[name] else 0) + 1];
      if name !in keys {
        keys := keys + [name];
      }
      i := i + 1;
    }
    assert names[..i] == names;
  }

  /** The loop invariant of the counting loop over the names read so far. */
  ghost predicate Tallied(read: seq<string>, counts: map<string, nat>, keys: seq<string>) {
    && keys == FirstSeen(read)
    && (forall k :: k in counts <==> k in read)
    && (forall k :: k in counts ==> counts[k] == multiset(read)[k])
  }

  /** Counting one more name keeps the invariant. */
  lemma TallyStep(names: seq<string>, i: int, counts: map<string, nat>, keys: seq<string>)
    requires 0 <= i < |names|
    requires Tallied(names[..i], counts, keys)
    ensures Tallied(names[..i + 1],
                    counts[names[i] := (if names[i] in counts then counts[names[i]] else 0) + 1],
                    if names[i] in keys then keys else keys + [names[i]])
  {
    assert names[..i + 1] == names[..i] + [names[i]];
    assert names[..i + 1][..i] == names[..i];
  }

  /** `max` over the dictionary's items by count: the first key whose count
      no later key exceeds. */
  method FirstMax(keys: seq<string>, counts: map<string, nat>) returns (best: nat)
    requires keys != []
    requires forall k :: k in keys ==> k in counts
    ensures best < |keys|
    ensures forall m :: 0 <= m < |keys| ==> counts[keys[m]] <= counts[keys[best]]
    ensures forall m :: 0 <= m < best ==> counts[keys[m]] < counts[keys[best]]
  {
    best := 0;
    var j := 1;
    while j < |keys|
      invariant 0 <= best < j <= |keys|
      invariant forall m :: 0 <= m < j ==> counts[keys[m]] <= counts[keys[best]]
      invariant forall m :: 0 <= m < best ==> counts[keys[m]] < counts[keys[best]]
    {
      if counts[keys[j]] > counts[keys[best]] {
        best := j;
      }
      j := j + 1;
    }
  }

  /** The favourite vendor: the most frequent business name, the one seen
      first among equally frequent ones; None when there are no orders. */
  method FavoriteVendor(names: seq<string>) returns (fav: Option<string>)
    ensures fav.None? <==> names == []
    ensures fav.Some? ==> fav.value in names
    ensures fav.Some? ==> forall n :: n in names ==> Occurrences(names, n) <= Occurrences(names, fav.value)
    ensures fav.Some? ==>
              forall n :: n in names && FirstIndex(names, n) < FirstIndex(names, fav.value) ==>
                Occurrences(names, n) < Occurrences(names, fav.value)
  {
    var counts, keys := CountNames(names);
    if keys == [] {
      return None;
    }
    var best := FirstMax(keys, counts);
    var winner := keys[best];
    fav := Some(winner);
    FirstSeenOrder(names);
    forall n | n in names && FirstIndex(names, n) < FirstIndex(names, winner)
      ensures Occurrences(names, n) < Occurrences(names, winner)
    {
      var m :| 0 <= m < |keys| && keys[m] == n;
      assert m < best;
    }
    forall n | n in names ensures Occurrences(names, n) <= Occurrences(names, winner) {
      var m :| 0 <= m < |keys| && keys[m] == n;
    }
  }

  datatype UserStats = UserStats(
    totalOrders: nat,
    pendingOrders: nat,
    deliveredOrders: nat,
    totalSpent: real,
    favoriteVendor: Option<string>,
    recentOrders: seq<VendorOrder>)

  /** The five newest of the caller's rows, newest first. */
  function RecentRows(rows: seq<VendorOrder>): (r: seq<VendorOrder>)
    ensures |r| == if |rows| < 5 then |rows| else 5
    ensures multiset(r) <= multiset(rows)
    ensures SortedDesc(r, RowCreatedGe)
    ensures forall i, j :: 0 <= i < |r| && 5 <= j < |rows| ==> RowCreatedGe(r[i], SortDesc(rows, RowCreatedGe)[j])
    ensures forall x, y :: x in r && y in rows && y !in r ==> RowCreatedGe(x, y)
  {
    RowCreatedGeIsPreorder();
    SortDescSorted(rows, RowCreatedGe);
    PrefixOfSortedIsTop(rows, RowCreatedGe, 5);
    SliceOfSortedIsTop(rows, RowCreatedGe, 5);
    var t := SortDesc(rows, RowCreatedGe);
    assert SliceTo(t, 5) == Prefix(t, 5);
    if 5 <= |t| then PrefixMultiset(t, 5); Prefix(t, 5) else Prefix(t, 5)
  }

  /** The statistics of `get_user_dashboard` over the caller's rows. */
  method Summarise(own: seq<VendorOrder>) returns (s: UserStats)
    ensures s.totalOrders == |own|
    ensures s.pendingOrders == Count(own, IsOpen) && s.deliveredOrders == Count(own, IsDelivered)
    ensures s.pendingOrders + s.deliveredOrders <= s.totalOrders
    ensures s.totalSpent == SumWhere(own, IsDelivered, TotalOf)
    ensures (forall x :: x in own ==> x.order.totalAmount >= 0.0) ==> s.totalSpent >= 0.0
    ensures s.favoriteVendor.None? <==> own == []
    ensures s.favoriteVendor.Some? ==>
              var names, fav := Names(own), s.favoriteVendor.value;
              && fav in names
              && (forall n :: n in names ==> Occurrences(names, n) <= Occurrences(names, fav))
              && forall n :: n in names && FirstIndex(names, n) < FirstIndex(names, fav) ==>
                   Occurrences(names, n) < Occurrences(names, fav)
    ensures s.recentOrders == RecentRows(own) && forall x :: x in s.recentOrders ==> x in own
  {
    CountDisjoint(own, IsOpen, IsDelivered);
    if forall x :: x in own ==> x.order.totalAmount >= 0.0 {
      SumWhereNonNegative(own, IsDelivered, TotalOf);
    }
    var favorite := FavoriteVendor(Names(own));
    var recent := RecentRows(own);
    forall x | x in recent ensures x in own {
      assert x in multiset(recent);
    }
    s := UserStats(|own|, Count(own, IsOpen), Count(own, IsDelivered),
                   SumWhere(own, IsDelivered, TotalOf), favorite, recent);
  }

  /** `get_user_dashboard`: only role "user"; the statistics cover the
      caller's own orders. */
  method GetUserDashboard(user: User, rows: seq<VendorOrder>) returns (r: Result<UserStats>)
    ensures user.role != "user" ==> r == Failure(Forbidden("Only users can access user dashboard"))
    ensures r.Success? <==> user.role == "user"
    ensures r.Success? ==>
              var own := OwnOrders(rows, user.id);
              var s := r.value;
              && s.totalOrders == |own|
              && s.pendingOrders == Count(own, IsOpen)
              && s.deliveredOrders == Count(own, IsDelivered)
              && s.pendingOrders + s.deliveredOrders <= s.totalOrders
              && s.totalSpent == SumWhere(own, IsDelivered, TotalOf)
              && ((forall x :: x in rows ==> x.order.totalAmount >= 0.0) ==> s.totalSpent >= 0.0)
              && (s.favoriteVendor.None? <==> own == [])
              && (s.favoriteVendor.Some? ==>
                    var names, fav := Names(own), s.favoriteVendor.value;
                    && fav in names
                    && (forall n :: n in names ==> Occurrences(names, n) <= Occurrences(names, fav))
                    && forall n :: n in names && FirstIndex(names, n) < FirstIndex(names, fav) ==>
                         Occurrences(names, n) < Occurrences(names, fav))
              && s.recentOrders == RecentRows(own)
              && forall x :: x in s.recentOrders ==> x in rows && x.order.userId == user.id
  {
    if user.role != "user" {
      return Failure(Forbidden("Only users can access user dashboard"));
    }
    var own := OwnOrders(rows, user.id);
    var stats := Summarise(own);
    r := Success(stats);
  }
}
