/** The master dashboard (app/routers/dashboard.py): platform statistics,
    per-day order trends, the merged feed of recent activities, and
    community and vendor performance tables sorted by revenue. Tables are
    passed in as snapshots in the order the database returns them; the
    current time enters as cutoff strings and day numbers. */
module Dashboard {
  import opened Common
  import opened Sorting
  import opened Platform

  // ---------------------------------------------------------------------
  // Statistics (lines 34-79)

  predicate VendorActive(v: VendorRow) {
    v.isActive
  }

  predicate UserActive(u: UserRow) {
    u.isActive
  }

  /** Active users whose `updated_at` text sorts strictly after `cutoff`. */
  function ActiveUsersSince(users: seq<UserRow>, cutoff: string): (n: nat)
    ensures n <= Count(users, UserActive)
  {
    if users == [] then 0
    else
      var u := users[|users| - 1];
      ActiveUsersSince(users[..|users| - 1], cutoff) + (if u.isActive && StrGt(u.updatedAt, cutoff) then 1 else 0)
  }

  datatype Stats = Stats(
    totalCommunities: nat,
    totalVendors: nat,
    totalUsers: nat,
    totalOrders: nat,
    totalRevenue: real,
    activeUsers: nat,
    pendingOrders: nat,
    completedOrders: nat)

  /** `get_dashboard_stats`; `sevenDaysAgo` is the cutoff timestamp text. */
  function DashboardStats(communities: seq<CommunityRow>, vendors: seq<VendorRow>, users: seq<UserRow>,
                          orders: seq<OrderRow>, sevenDaysAgo: string): (s: Stats)
    ensures s.totalCommunities == |ActiveCommunities(communities)|
    ensures s.totalVendors == Count(vendors, VendorActive) && s.totalVendors <= |vendors|
    ensures s.totalUsers == Count(users, UserActive)
    ensures s.activeUsers == ActiveUsersSince(users, sevenDaysAgo) && s.activeUsers <= s.totalUsers
    ensures s.totalOrders == |orders|
    ensures s.pendingOrders == Count(orders, IsPending) && s.completedOrders == Count(orders, IsCompleted)
    ensures s.pendingOrders + s.completedOrders <= s.totalOrders
    ensures s.totalRevenue == SumWhere(orders, IsCompleted, AmountOf)
    ensures (forall o :: o in orders ==> AmountOf(o) >= 0.0) ==> s.totalRevenue >= 0.0
  {
    CountDisjoint(orders, IsPending, IsCompleted);
    RevenueNonNegative(orders);
    Stats(
      |ActiveCommunities(communities)|, Count(vendors, VendorActive), Count(users, UserActive), |orders|,
      SumWhere(orders, IsCompleted, AmountOf), ActiveUsersSince(users, sevenDaysAgo),
      Count(orders, IsPending), Count(orders, IsCompleted))
  }

  lemma RevenueNonNegative(orders: seq<OrderRow>)
    ensures (forall o :: o in orders ==> AmountOf(o) >= 0.0) ==> SumWhere(orders, IsCompleted, AmountOf) >= 0.0
  {
    if forall o :: o in orders ==> AmountOf(o) >= 0.0 {
      SumWhereNonNegative(orders, IsCompleted, AmountOf);
    }
  }

  // ---------------------------------------------------------------------
  // Order trends (lines 81-122)

  /** Calendar days are numbered consecutively; `dayOf` stands for parsing
      a `created_at` timestamp and taking its date. */
  datatype Bucket = Bucket(orders: nat, revenue: real)

  datatype Trend = Trend(day: int, orders: nat, revenue: real)

  /** Fetched orders created on `day`. */
  function CountOnDay(fetched: seq<OrderRow>, dayOf: string -> int, day: int): nat {
    if fetched == [] then 0
    else CountOnDay(fetched[..|fetched| - 1], dayOf, day) + (if dayOf(fetched[|fetched| - 1].createdAt) == day then 1 else 0)
  }

  /** Amounts of the completed fetched orders created on `day`. */
  function RevenueOnDay(fetched: seq<OrderRow>, dayOf: string -> int, day: int): real {
    if fetched == [] then 0.0
    else
      var o := fetched[|fetched| - 1];
      RevenueOnDay(fetched[..|fetched| - 1], dayOf, day)
      + (if dayOf(o.createdAt) == day && IsCompleted(o) then AmountOf(o) else 0.0)
  }

  /** Fetched orders created on a day in `[lo, hi)`. */
  function CountInRange(fetched: seq<OrderRow>, dayOf: string -> int, lo: int, hi: int): (n: nat)
    ensures n <= |fetched|
  {
    if fetched == [] then 0
    else
      var d := dayOf(fetched[|fetched| - 1].createdAt);
      CountInRange(fetched[..|fetched| - 1], dayOf, lo, hi) + (if lo <= d < hi then 1 else 0)
  }

  lemma {:induction false} CountInRangeStep(fetched: seq<OrderRow>, dayOf: string -> int, lo: int, hi: int)
    requires lo <= hi
    ensures CountInRange(fetched, dayOf, lo, hi + 1) == CountInRange(fetched, dayOf, lo, hi) + CountOnDay(fetched, dayOf, hi)
  {
    if fetched != [] {
      CountInRangeStep(fetched[..|fetched| - 1], dayOf, lo, hi);
    }
  }

  lemma {:induction false} CountInRangeEmpty(fetched: seq<OrderRow>, dayOf: string -> int, lo: int)
    ensures CountInRange(fetched, dayOf, lo, lo) == 0
  {
    if fetched != [] {
      CountInRangeEmpty(fetched[..|fetched| - 1], dayOf, lo);
    }
  }

  function TotalOrders(trends: seq<Trend>): nat {
    if trends == [] then 0 else TotalOrders(trends[..|trends| - 1]) + trends[|trends| - 1].orders
  }

  /** Every day of `[lo, lo + n)` has a bucket and no other day has one. */
  ghost predicate Window(trends: map<int, Bucket>, lo: int, n: nat) {
    forall d :: d in trends <==> lo <= d < lo + n
  }

  /** Each bucket holds the tally of `seen` for its day. */
  ghost predicate Tallied(trends: map<int, Bucket>, seen: seq<OrderRow>, dayOf: string -> int) {
    forall d :: d in trends ==> trends[d] == Bucket(CountOnDay(seen, dayOf, d), RevenueOnDay(seen, dayOf, d))
  }

  /** Initialise every day of the window ending `today` with zero. */
  method ZeroWindow(today: int, n: nat) returns (trends: map<int, Bucket>)
    ensures Window(trends, today - n + 1, n)
    ensures forall d :: d in trends ==> trends[d] == Bucket(0, 0.0)
  {
    trends := map[];
    for i := 0 to n
      invariant forall d :: d in trends <==> today - n + 1 <= d < today - n + 1 + i
      invariant forall d :: d in trends ==> trends[d] == Bucket(0, 0.0)
    {
      trends := trends[today - (n - 1 - i) := Bucket(0, 0.0)];
    }
  }

  /** Populate the buckets: an order whose day has a bucket adds one order,
      and its amount when completed; other orders are skipped. */
  method Populate(trends0: map<int, Bucket>, fetched: seq<OrderRow>, dayOf: string -> int)
    returns (trends: map<int, Bucket>)
    requires Tallied(trends0, [], dayOf)
    ensures trends.Keys == trends0.Keys
    ensures Tallied(trends, fetched, dayOf)
  {
    trends := trends0;
    for j := 0 to |fetched|
      invariant trends.Keys == trends0.Keys
      invariant Tallied(trends, fetched[..j], dayOf)
    {
      var order := fetched[j];
      assert fetched[..j + 1][..j] == fetched[..j];
      var day := dayOf(order.createdAt);
      if day in trends {
        var b := trends[day];
        var revenue := if IsCompleted(order) then b.revenue + AmountOf(order) else b.revenue;
        trends := trends[day := Bucket(b.orders + 1, revenue)];
      }
    }
    assert fetched[..|fetched|] == fetched;
  }

  /** The trend list for the `n` days starting at `lo`, oldest first. */
  function TrendsOf(fetched: seq<OrderRow>, dayOf: string -> int, lo: int, n: nat): (r: seq<Trend>)
    ensures |r| == n
  {
    if n == 0 then []
    else TrendsOf(fetched, dayOf, lo, n - 1) + [Trend(lo + n - 1, CountOnDay(fetched, dayOf, lo + n - 1), RevenueOnDay(fetched, dayOf, lo + n - 1))]
  }

  /** Entry `i` of the trend list is day `lo + i` with that day's tally. */
  lemma {:induction false} TrendsOfAt(fetched: seq<OrderRow>, dayOf: string -> int, lo: int, n: nat, i: int)
    requires 0 <= i < n
    ensures TrendsOf(fetched, dayOf, lo, n)[i]
            == Trend(lo + i, CountOnDay(fetched, dayOf, lo + i), RevenueOnDay(fetched, dayOf, lo + i))
  {
    if i < n - 1 {
      TrendsOfAt(fetched, dayOf, lo, n - 1, i);
    }
  }

  /** The order counts of the trend list add up to the orders dated in
      the window. */
  lemma {:induction false} TrendsOfTotal(fetched: seq<OrderRow>, dayOf: string -> int, lo: int, n: nat)
    ensures TotalOrders(TrendsOf(fetched, dayOf, lo, n)) == CountInRange(fetched, dayOf, lo, lo + n)
  {
    if n == 0 {
      CountInRangeEmpty(fetched, dayOf, lo);
    } else {
      var r := TrendsOf(fetched, dayOf, lo, n);
      TrendsOfTotal(fetched, dayOf, lo, n - 1);
      CountInRangeStep(fetched, dayOf, lo, lo + n - 1);
      assert r[..n - 1] == TrendsOf(fetched, dayOf, lo, n - 1);
      assert r[n - 1].orders == CountOnDay(fetched, dayOf, lo + n - 1);
    }
  }

  /** The output loop: the buckets of the window `[lo, lo + n)` as a list
      in ascending date order. */
  method Emit(trends: map<int, Bucket>, lo: int, n: nat, fetched: seq<OrderRow>, dayOf: string -> int)
    returns (result: seq<Trend>)
    requires Window(trends, lo, n) && Tallied(trends, fetched, dayOf)
    ensures result == TrendsOf(fetched, dayOf, lo, n)
  {
    result := [];
    for k := 0 to n
      invariant result == TrendsOf(fetched, dayOf, lo, k)
    {
      var b := trends[lo + k];
      result := result + [Trend(lo + k, b.orders, b.revenue)];
    }
  }

  /** What `TrendsOf` means: entry `i` is day `lo + i` with that day's
      tally, and the order counts add up to the orders dated in the window. */
  lemma TrendsOfSpec(fetched: seq<OrderRow>, dayOf: string -> int, lo: int, n: nat)
    ensures forall i :: 0 <= i < n ==> TrendsOf(fetched, dayOf, lo, n)[i].day == lo + i
    ensures forall i :: 0 <= i < n ==>
              && TrendsOf(fetched, dayOf, lo, n)[i].orders == CountOnDay(fetched, dayOf, lo + i)
              && TrendsOf(fetched, dayOf, lo, n)[i].revenue == RevenueOnDay(fetched, dayOf, lo + i)
    ensures TotalOrders(TrendsOf(fetched, dayOf, lo, n)) == CountInRange(fetched, dayOf, lo, lo + n)
  {
    forall i | 0 <= i < n
      ensures TrendsOf(fetched, dayOf, lo, n)[i]
              == Trend(lo + i, CountOnDay(fetched, dayOf, lo + i), RevenueOnDay(fetched, dayOf, lo + i))
    {
      TrendsOfAt(fetched, dayOf, lo, n, i);
    }
    TrendsOfTotal(fetched, dayOf, lo, n);
  }

  /** Build the zeroed window, tally the fetched orders into it and read it
      out in date order. */
  method Tabulate(lo: int, n: nat, fetched: seq<OrderRow>, dayOf: string -> int) returns (result: seq<Trend>)
    ensures result == TrendsOf(fetched, dayOf, lo, n)
  {
    var trends := ZeroWindow(lo + n - 1, n);
    trends := Populate(trends, fetched, dayOf);
    result := Emit(trends, lo, n, fetched, dayOf);
  }

  /** `get_order_trends`: one bucket per day of the window ending `today`,
      all starting at zero; each fetched order whose date falls in the
      window adds one order, and its amount when completed; the buckets
      come out in ascending date order. A `days` of zero or less gives no
      buckets. */
  method OrderTrends(days: int, today: int, fetched: seq<OrderRow>, dayOf: string -> int) returns (result: seq<Trend>)
    ensures |result| == if days > 0 then days else 0
    ensures forall i :: 0 <= i < |result| ==> result[i].day == today - |result| + 1 + i
    ensures forall i, j :: 0 <= i < j < |result| ==> result[i].day < result[j].day
    ensures forall i :: 0 <= i < |result| ==>
              && result[i].orders == CountOnDay(fetched, dayOf, result[i].day)
              && result[i].revenue == RevenueOnDay(fetched, dayOf, result[i].day)
    ensures TotalOrders(result) <= |fetched|
  {
    var n: nat := if days > 0 then days else 0;
    result := Tabulate(today - n + 1, n, fetched, dayOf);
    TrendsOfSpec(fetched, dayOf, today - n + 1, n);
  }

  // ---------------------------------------------------------------------
  // Recent activities (lines 124-210)

  datatype Activity = Activity(id: string, kind: string, message: string, timestamp: string, icon: string, color: string)

  /** A `payments` row as the activity feed reads it; `amountText` is the
      amount as Python prints it. */
  datatype PaymentRow = PaymentRow(id: string, amountText: string, status: string, createdAt: string)

  predicate ActivityGe(a: Activity, b: Activity) {
    StrLe(b.timestamp, a.timestamp)
  }

  lemma ActivityGeIsPreorder()
    ensures TotalPreorder(ActivityGe)
  {
    forall a: Activity, b: Activity ensures ActivityGe(a, b) || ActivityGe(b, a) {
      StrLeTotal(a.timestamp, b.timestamp);
    }
    forall a: Activity, b: Activity, c: Activity | ActivityGe(a, b) && ActivityGe(b, c) ensures ActivityGe(a, c) {
      StrLeTransitive(c.timestamp, b.timestamp, a.timestamp);
    }
  }

  predicate UserNewer(a: UserRow, b: UserRow) { StrLe(b.createdAt, a.createdAt) }
  predicate OrderNewer(a: OrderRow, b: OrderRow) { StrLe(b.createdAt, a.createdAt) }
  predicate VendorNewer(a: VendorRow, b: VendorRow) { StrLe(b.updatedAt, a.updatedAt) }
  predicate PaymentNewer(a: PaymentRow, b: PaymentRow) { StrLe(b.createdAt, a.createdAt) }

  /** `.order(column, desc=True).limit(n)` over the rows a query matches:
      up to n of those rows, newest first, none older than a row left out. */
  function Newest<T(!new)>(rows: seq<T>, newer: (T, T) -> bool, n: nat): (r: seq<T>)
    ensures |r| == if n <= |rows| then n else |rows|
    ensures multiset(r) <= multiset(rows)
    ensures TotalPreorder(newer) ==> SortedDesc(r, newer)
    ensures TotalPreorder(newer) ==> forall x, y :: x in r && y in rows && y !in r ==> newer(x, y)
  {
    NewestIsTop(rows, newer, n);
    Prefix(SortDesc(rows, newer), n)
  }

  /** The first n rows of the newest-first order are drawn from the rows,
      sorted, and dominate every row left out. */
  lemma NewestIsTop<T(!new)>(rows: seq<T>, newer: (T, T) -> bool, n: nat)
    ensures var r := Prefix(SortDesc(rows, newer), n);
            && multiset(r) <= multiset(rows)
            && (TotalPreorder(newer) ==> SortedDesc(r, newer))
            && (TotalPreorder(newer) ==> forall x, y :: x in r && y in rows && y !in r ==> newer(x, y))
  {
    var t := SortDesc(rows, newer);
    assert SliceTo(t, n) == Prefix(t, n);
    if n <= |t| { PrefixMultiset(t, n); }
    if TotalPreorder(newer) {
      SortDescSorted(rows, newer);
      SliceOfSortedIsTop(rows, newer, n);
    }
  }

  /** Users registered since `weekAgo`, newest three. */
  function NewUsers(users: seq<UserRow>, weekAgo: string): (r: seq<UserRow>)
    ensures |r| <= 3
  {
    Newest(Filter(users, (u: UserRow) => StrLe(weekAgo, u.createdAt)), UserNewer, 3)
  }

  /** Orders placed since `yesterday`, newest three. */
  function NewOrders(orders: seq<OrderRow>, yesterday: string): (r: seq<OrderRow>)
    ensures |r| <= 3
  {
    Newest(Filter(orders, (o: OrderRow) => StrLe(yesterday, o.createdAt)), OrderNewer, 3)
  }

  /** Active vendors updated since `yesterday`, most recent two. */
  function NewVendors(vendors: seq<VendorRow>, yesterday: string): (r: seq<VendorRow>)
    ensures |r| <= 2
  {
    Newest(Filter(vendors, (v: VendorRow) => v.isActive && StrLe(yesterday, v.updatedAt)), VendorNewer, 2)
  }

  /** Paid payments since `yesterday`, newest two. */
  function NewPayments(payments: seq<PaymentRow>, yesterday: string): (r: seq<PaymentRow>)
    ensures |r| <= 2
  {
    Newest(Filter(payments, (p: PaymentRow) => p.status == "paid" && StrLe(yesterday, p.createdAt)), PaymentNewer, 2)
  }

  function UserActivity(u: UserRow, communityNames: map<string, string>): Activity {
    var community :=
      if u.communityId.Some? && u.communityId.value != "" && u.communityId.value in communityNames
      then communityNames[u.communityId.value] else "Unknown Community";
    Activity(u.id, "new_user", "New user " + u.firstName + " " + u.lastName + " registered in " + community,
             u.createdAt, "person-add", "#22c55e")
  }

  function OrderActivity(o: OrderRow, vendorNames: map<string, string>): Activity {
    var vendor := if o.vendorId in vendorNames then vendorNames[o.vendorId] else "Unknown Vendor";
    Activity(o.id, "new_order", "Order #" + Prefix(o.id, 8) + " placed for " + vendor,
             o.createdAt, "bag", "#3b82f6")
  }

  function VendorActivity(v: VendorRow): Activity {
    Activity(v.id, "vendor_active", v.name + " went online", v.updatedAt, "checkmark-circle", "#10b981")
  }

  function PaymentActivity(p: PaymentRow): Activity {
    Activity(p.id, "payment", "Payment of $" + p.amountText + " received", p.createdAt, "card", "#f59e0b")
  }

  /** The loop over the fetched users: one entry each, appended in order. */
  method AppendUsers(acc: seq<Activity>, rows: seq<UserRow>, communityNames: map<string, string>)
    returns (activities: seq<Activity>)
    ensures activities == acc + UserActivities(rows, communityNames)
  {
    activities := acc;
    for i := 0 to |rows|
      invariant activities == acc + UserActivities(rows[..i], communityNames)
    {
      assert rows[..i + 1][..i] == rows[..i];
      activities := activities + [UserActivity(rows[i], communityNames)];
    }
    assert rows[..|rows|] == rows;
  }

  method AppendOrders(acc: seq<Activity>, rows: seq<OrderRow>, vendorNames: map<string, string>)
    returns (activities: seq<Activity>)
    ensures activities == acc + OrderActivities(rows, vendorNames)
  {
    activities := acc;
    for i := 0 to |rows|
      invariant activities == acc + OrderActivities(rows[..i], vendorNames)
    {
      assert rows[..i + 1][..i] == rows[..i];
      activities := activities + [OrderActivity(rows[i], vendorNames)];
    }
    assert rows[..|rows|] == rows;
  }

  method AppendVendors(acc: seq<Activity>, rows: seq<VendorRow>) returns (activities: seq<Activity>)
    ensures activities == acc + VendorActivities(rows)
  {
    activities := acc;
    for i := 0 to |rows|
      invariant activities == acc + VendorActivities(rows[..i])
    {
      assert rows[..i + 1][..i] == rows[..i];
      activities := activities + [VendorActivity(rows[i])];
    }
    assert rows[..|rows|] == rows;
  }

  method AppendPayments(acc: seq<Activity>, rows: seq<PaymentRow>) returns (activities: seq<Activity>)
    ensures activities == acc + PaymentActivities(rows)
  {
    activities := acc;
    for i := 0 to |rows|
      invariant activities == acc + PaymentActivities(rows[..i])
    {
      assert rows[..i + 1][..i] == rows[..i];
      activities := activities + [PaymentActivity(rows[i])];
    }
    assert rows[..|rows|] == rows;
  }

  /** The four loops of the handler: the feed in the order it is built. */
  method Gather(users: seq<UserRow>, orders: seq<OrderRow>, vendors: seq<VendorRow>, payments: seq<PaymentRow>,
                communityNames: map<string, string>, vendorNames: map<string, string>, weekAgo: string,
                yesterday: string) returns (feed: seq<Activity>)
    ensures feed == Merged(users, orders, vendors, payments, communityNames, vendorNames, weekAgo, yesterday)
  {
    var newUsers := NewUsers(users, weekAgo);
    var newOrders := NewOrders(orders, yesterday);
    var newVendors := NewVendors(vendors, yesterday);
    var newPayments := NewPayments(payments, yesterday);
    feed := AppendUsers([], newUsers, communityNames);
    assert feed == UserActivities(newUsers, communityNames);
    feed := AppendOrders(feed, newOrders, vendorNames);
    feed := AppendVendors(feed, newVendors);
    feed := AppendPayments(feed, newPayments);
    assert feed == UserActivities(newUsers, communityNames) + OrderActivities(newOrders, vendorNames)
                   + VendorActivities(newVendors) + PaymentActivities(newPayments);
  }

  /** `get_recent_activities`: up to three new users, three new orders, two
      newly active vendors and two payments, merged, sorted newest first
      and cut to `limit` with Python slice semantics. */
  method RecentActivities(users: seq<UserRow>, orders: seq<OrderRow>, vendors: seq<VendorRow>,
                          payments: seq<PaymentRow>, communityNames: map<string, string>,
                          vendorNames: map<string, string>, weekAgo: string, yesterday: string, limit: int)
    returns (r: seq<Activity>)
    ensures |r| <= 10
    ensures SortedDesc(r, ActivityGe)
    ensures multiset(r) <= multiset(Merged(users, orders, vendors, payments, communityNames, vendorNames, weekAgo, yesterday))
    ensures 0 <= limit ==> |r| == Min(limit, |Merged(users, orders, vendors, payments, communityNames, vendorNames, weekAgo, yesterday)|)
    ensures limit < 0 ==> |r| == Max(0, |Merged(users, orders, vendors, payments, communityNames, vendorNames, weekAgo, yesterday)| + limit)
    ensures forall x, y :: x in r && y in Merged(users, orders, vendors, payments, communityNames, vendorNames, weekAgo, yesterday) && y !in r ==> ActivityGe(x, y)
  {
    var feed := Gather(users, orders, vendors, payments, communityNames, vendorNames, weekAgo, yesterday);
    ActivityGeIsPreorder();
    SortedCut(feed, ActivityGe, limit);
    var sorted := SortDesc(feed, ActivityGe);
    r := SliceTo(sorted, limit);
  }

  /** The newest-first sort followed by `[:limit]` keeps a sorted
      sub-multiset, of `limit` elements when there are enough, and for a
      negative `limit` all but the last `-limit`; every entry kept is at
      least as new as every entry cut off. */
  lemma SortedCut<T(!new)>(s: seq<T>, ge: (T, T) -> bool, limit: int)
    requires TotalPreorder(ge)
    ensures SortedDesc(SliceTo(SortDesc(s, ge), limit), ge)
    ensures multiset(SliceTo(SortDesc(s, ge), limit)) <= multiset(s)
    ensures |SliceTo(SortDesc(s, ge), limit)| <= |s|
    ensures 0 <= limit ==> |SliceTo(SortDesc(s, ge), limit)| == Min(limit, |s|)
    ensures limit < 0 ==> |SliceTo(SortDesc(s, ge), limit)| == Max(0, |s| + limit)
    ensures forall x, y :: x in SliceTo(SortDesc(s, ge), limit) && y in s && y !in SliceTo(SortDesc(s, ge), limit) ==>
              ge(x, y)
  {
    var t := SortDesc(s, ge);
    SortDescSorted(s, ge);
    var r := SliceTo(t, limit);
    assert r == t[..|r|];
    PrefixMultiset(t, |r|);
    SliceOfSortedIsTop(s, ge, limit);
  }

  function Min(a: int, b: int): int { if a <= b then a else b }
  function Max(a: int, b: int): int { if a <= b then b else a }

  function UserActivities(rows: seq<UserRow>, communityNames: map<string, string>): (r: seq<Activity>)
    ensures |r| == |rows|
  {
    if rows == [] then [] else UserActivities(rows[..|rows| - 1], communityNames) + [UserActivity(rows[|rows| - 1], communityNames)]
  }

  function OrderActivities(rows: seq<OrderRow>, vendorNames: map<string, string>): (r: seq<Activity>)
    ensures |r| == |rows|
  {
    if rows == [] then [] else OrderActivities(rows[..|rows| - 1], vendorNames) + [OrderActivity(rows[|rows| - 1], vendorNames)]
  }

  function VendorActivities(rows: seq<VendorRow>): (r: seq<Activity>)
    ensures |r| == |rows|
  {
    if rows == [] then [] else VendorActivities(rows[..|rows| - 1]) + [VendorActivity(rows[|rows| - 1])]
  }

  function PaymentActivities(rows: seq<PaymentRow>): (r: seq<Activity>)
    ensures |r| == |rows|
  {
    if rows == [] then [] else PaymentActivities(rows[..|rows| - 1]) + [PaymentActivity(rows[|rows| - 1])]
  }

  /** The unsorted feed: at most 3 + 3 + 2 + 2 entries. */
  function Merged(users: seq<UserRow>, orders: seq<OrderRow>, vendors: seq<VendorRow>, payments: seq<PaymentRow>,
                  communityNames: map<string, string>, vendorNames: map<string, string>,
                  weekAgo: string, yesterday: string): (r: seq<Activity>)
    ensures |r| <= 10
  {
    UserActivities(NewUsers(users, weekAgo), communityNames)
    + OrderActivities(NewOrders(orders, yesterday), vendorNames)
    + VendorActivities(NewVendors(vendors, yesterday))
    + PaymentActivities(NewPayments(payments, yesterday))
  }


  // ---------------------------------------------------------------------
  // Community performance (lines 212-266)

  datatype CommunityPerf = CommunityPerf(
    id: string,
    name: string,
    code: string,
    userCount: nat,
    vendorCount: nat,
    orderCount: nat,
    revenue: real,
    avgOrderValue: real)

  predicate CommunityPerfGe(a: CommunityPerf, b: CommunityPerf) {
    a.revenue >= b.revenue
  }

  /** The entry of one active community: its active users and vendors, and
      the orders and completed revenue of those vendors. */
  function CommunityPerfOf(c: CommunityRow, users: seq<UserRow>, vendors: seq<VendorRow>, orders: seq<OrderRow>)
    : (p: CommunityPerf)
    ensures p.id == c.id && p.name == c.name && p.code == c.code
    ensures p.orderCount == OrdersOfVendors(orders, ActiveVendorIds(vendors, c.id))
    ensures p.revenue == RevenueOfVendors(orders, ActiveVendorIds(vendors, c.id))
    ensures p.orderCount > 0 ==> p.avgOrderValue * p.orderCount as real == p.revenue
    ensures p.orderCount == 0 ==> p.avgOrderValue == 0.0
  {
    var ids := ActiveVendorIds(vendors, c.id);
    var count := OrdersOfVendors(orders, ids);
    var revenue := RevenueOfVendors(orders, ids);
    CommunityPerf(c.id, c.name, c.code, ActiveUsersIn(users, c.id), |ids|, count, revenue, Average(revenue, count))
  }

  function CommunityPerfRows(cs: seq<CommunityRow>, users: seq<UserRow>, vendors: seq<VendorRow>, orders: seq<OrderRow>)
    : (r: seq<CommunityPerf>)
    ensures |r| == |cs|
  {
    if cs == [] then []
    else CommunityPerfRows(cs[..|cs| - 1], users, vendors, orders) + [CommunityPerfOf(cs[|cs| - 1], users, vendors, orders)]
  }

  /** `get_community_performance`: one entry per active community, then a
      stable sort by revenue, highest first. */
  method CommunityPerformance(communities: seq<CommunityRow>, users: seq<UserRow>, vendors: seq<VendorRow>,
                              orders: seq<OrderRow>) returns (perf: seq<CommunityPerf>)
    ensures multiset(perf) == multiset(CommunityPerfRows(ActiveCommunities(communities), users, vendors, orders))
    ensures |perf| == |ActiveCommunities(communities)|
    ensures SortedDesc(perf, CommunityPerfGe)
  {
    var active := ActiveCommunities(communities);
    perf := [];
    for i := 0 to |active|
      invariant perf == CommunityPerfRows(active[..i], users, vendors, orders)
    {
      var c := active[i];
      var vendorIds := ActiveVendorIds(vendors, c.id);
      var count: nat, revenue := 0, 0.0;
      if vendorIds != [] {
        count, revenue := VendorTotals(orders, vendorIds);
      }
      assert active[..i + 1][..i] == active[..i];
      perf := perf + [CommunityPerf(c.id, c.name, c.code, ActiveUsersIn(users, c.id), |vendorIds|,
                                    count, revenue, Average(revenue, count))];
    }
    assert active[..|active|] == active;
    var rows := perf;
    perf := SortDesc(perf, CommunityPerfGe);
    SortDescSorted(rows, CommunityPerfGe);
  }

  // ---------------------------------------------------------------------
  // Vendor performance (lines 268-311)

  datatype VendorPerf = VendorPerf(
    id: string,
    name: string,
    kind: string,
    communityName: string,
    isActive: bool,
    orderCount: nat,
    revenue: real,
    avgOrderValue: real)

  predicate VendorPerfGe(a: VendorPerf, b: VendorPerf) {
    a.revenue >= b.revenue
  }

  /** The entry of one vendor: its community's name ("Unknown" when there
      is none), all its orders, the amounts of the completed ones. */
  function VendorPerfOf(v: VendorRow, communityNames: map<string, string>, orders: seq<OrderRow>): (p: VendorPerf)
    ensures p.id == v.id && p.isActive == v.isActive
    ensures p.orderCount == OrdersOfVendor(orders, v.id)
    ensures p.revenue == RevenueOfVendor(orders, v.id)
    ensures p.orderCount > 0 ==> p.avgOrderValue * p.orderCount as real == p.revenue
    ensures p.orderCount == 0 ==> p.avgOrderValue == 0.0 && p.revenue == 0.0
  {
    var community :=
      if v.communityId.Some? && v.communityId.value in communityNames then communityNames[v.communityId.value]
      else "Unknown";
    var count := OrdersOfVendor(orders, v.id);
    var revenue := RevenueOfVendor(orders, v.id);
    if count == 0 then NoOrdersNoRevenue(orders, v.id); VendorPerf(v.id, v.name, v.kind, community, v.isActive, count, revenue, 0.0)
    else VendorPerf(v.id, v.name, v.kind, community, v.isActive, count, revenue, Average(revenue, count))
  }

  function VendorPerfRows(vs: seq<VendorRow>, communityNames: map<string, string>, orders: seq<OrderRow>)
    : (r: seq<VendorPerf>)
    ensures |r| == |vs|
  {
    if vs == [] then []
    else VendorPerfRows(vs[..|vs| - 1], communityNames, orders) + [VendorPerfOf(vs[|vs| - 1], communityNames, orders)]
  }

  /** `get_vendor_performance`: one entry per vendor, active or not, then a
      stable sort by revenue, highest first. */
  method VendorPerformance(vendors: seq<VendorRow>, communityNames: map<string, string>, orders: seq<OrderRow>)
    returns (perf: seq<VendorPerf>)
    ensures multiset(perf) == multiset(VendorPerfRows(vendors, communityNames, orders))
    ensures |perf| == |vendors|
    ensures SortedDesc(perf, VendorPerfGe)
  {
    perf := [];
    for i := 0 to |vendors|
      invariant perf == VendorPerfRows(vendors[..i], communityNames, orders)
    {
      assert vendors[..i + 1][..i] == vendors[..i];
      perf := perf + [VendorPerfOf(vendors[i], communityNames, orders)];
    }
    assert vendors[..|vendors|] == vendors;
    var rows := perf;
    perf := SortDesc(perf, VendorPerfGe);
    SortDescSorted(rows, VendorPerfGe);
  }
}
