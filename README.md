# CommunityExpress API — a Dafny model of its business rules

CommunityExpress is a FastAPI backend for a residential community platform.
It stores communities, vendors, users, generic orders, payments and a laundry
service in a hosted database. Its route handlers hold the business rules. This
project models those rules with the database tables as in-memory maps and
sequences, and proves properties of them.

The modules follow the source files:

- `LaundryModels` (`app/models/laundry.py`): the order-line quantity
  constraint, the vendor profile defaults, the partial order update and the
  stored laundry order.
- `LaundryPricing` (`app/routers/laundry.py`, pricing in `create_laundry_order`):
  line totals, the subtotal loop, and the 18% tax on subtotal plus charges.
  Amounts are exact decimals (`real`); nothing is rounded.
- `LaundryOrders` (`app/routers/laundry.py`):
  - the localhost testing bypass;
  - the ownership rule;
  - the assembly of a partial update and its stage timestamp;
  - class `LaundryStore`, which holds the laundry tables and does create, read, update, payment and listing.
- `LaundryDashboards` (`app/routers/laundry.py`): the vendor and user
  dashboards, covering status counts, revenue windows, the favourite vendor
  and the most recent orders.
- `Dashboard` (`app/routers/dashboard.py`):
  - platform statistics;
  - per-day order trends;
  - the merged feed of recent activities;
  - community and vendor performance tables sorted by revenue.
- `Communities` (`app/routers/communities.py`):
  - row mapping;
  - search;
  - join codes;
  - statistics;
  - class `CommunityTable`, which does create, update and the status toggle.
- `Orders` (`app/routers/orders.py`): class `OrderBook` with creation, role-based
  listing, the status update and its history entry, and single-order access.
- `Payments` (`app/routers/payments.py`): class `PaymentLedger`. Paying goes
  pending → paid and confirms the order. Refunding goes paid → refunded and
  cancels the order.
- Shared modules:
  - `Common`: options, results, HTTP errors, database cells, Python string and slice operations, counting and summing.
  - `Sorting`: Python's stable `sort(reverse=True)` and `str` ordering.
  - `Platform`: the general table rows and the per-vendor order and revenue sums.

Clocks, uuids, the order-number generator and date parsing enter as
parameters. Database queries without an `ORDER BY` are modelled as maps, or
as snapshots in the order the rows come back.

## Model

| member | source | states |
|---|---|---|
| LaundryModels.ValidateOrderItem | app/models/laundry.py:77-80 | a line is accepted iff its quantity is strictly positive; a refused line is a 422 |
| LaundryModels.VendorWithDefaults | app/models/laundry.py:8-17 | each omitted vendor field takes its default (08:00, 18:00, 24 h, 100, 20, 30, no areas); each supplied one is kept |
| LaundryModels.Supplied | app/models/laundry.py:103-109 | the update dictionary holds exactly the fields the client sent, with the values sent, and only updatable columns |
| LaundryPricing.PriceItems | app/routers/laundry.py:397-420 | succeeds iff every requested item is in the catalog; otherwise a 400 naming the first unknown item; one line per requested line, in order, each priced `unit_price × quantity`, subtotal = sum of line totals |
| LaundryPricing.SubtotalIsExpected | app/routers/laundry.py:410-412 | the accumulated subtotal equals the reference sum of price × quantity over the requested lines |
| LaundryPricing.SubtotalNonNegative | app/routers/laundry.py:397-412 | with non-negative catalog prices the subtotal is non-negative, and an empty item list gives 0 |
| LaundryPricing.OrderCharges | app/routers/laundry.py:431-434 | total = subtotal + pickup + delivery + tax = 1.18 × (subtotal + pickup + delivery); tax lies between 0 and the total for a non-negative base |
| LaundryOrders.CurrentUserOrTesting | app/routers/laundry.py:20-49 | succeeds iff the client host is 127.0.0.1, localhost or ::1 and `X-Testing` is "true", yielding the mock master; otherwise 401 |
| LaundryOrders.BypassNeverYieldsUser | app/routers/laundry.py:31-49 | no caller admitted by the bypass has role "user" |
| LaundryOrders.TokenIgnoredAsWritten | app/routers/laundry.py:43-49 | for every host and header: a request from a non-local host gets the 401, a local one with `X-Testing: true` is the mock master, and no request is ever served as the "user" its token names |
| LaundryOrders.CurrentUserOrTestingIntended | app/routers/laundry.py:24 | a valid bearer token decides the caller; only without one does the testing bypass apply |
| LaundryOrders.IntendedAdmitsUsers | app/routers/laundry.py:383-387 | with the intended dependency a "user" with a valid token passes the order-creation role gate |
| LaundryOrders.StampColumn | app/routers/laundry.py:655-666 | exactly the five stage statuses stamp a column, named `<status>_at`; any other value stamps none |
| LaundryOrders.AssembleUpdate | app/routers/laundry.py:647-666 | the update dictionary holds the sent fields with their values plus, for a stage status, that one timestamp column set to now, and nothing else; it holds exactly one timestamp column for a stage status and none otherwise |
| LaundryOrders.CopyFields | app/routers/laundry.py:648-652 | the copying loop yields exactly the dictionary of fields sent, in whatever order it visits them |
| LaundryOrders.StampsAtMostOne | app/routers/laundry.py:655-666 | an update stamps a timestamp iff it sends one of the five stage statuses; any assembled dictionary then holds exactly one timestamp column for a stage status and none otherwise |
| LaundryOrders.SuppliedUnstamped | app/models/laundry.py:103-109 | no field a client can send in an order update is a timestamp column |
| LaundryOrders.Updated | app/routers/laundry.py:647-666 | unsent fields are unchanged and no column outside the update and the stamps changes; the sent status is written whatever the current status |
| LaundryOrders.UpdatedStamps | app/routers/laundry.py:655-666 | the stage the sent status names is stamped with now; every other stage keeps its stamp |
| LaundryOrders.ApplyAssembled | app/routers/laundry.py:647-668 | writing the assembled dictionary to a row gives exactly `Updated` |
| LaundryOrders.NoTransitionTable | app/routers/laundry.py:655-666 | a delivered order can be set back to pending, and a cancelled stamp can join a delivered one |
| LaundryOrders.DeliveryAddressFor | app/routers/laundry.py:445 | a missing or empty delivery address falls back to the pickup address |
| LaundryOrders.PaymentReference | app/routers/laundry.py:716 | the reference is "PAY-LND-", then the stamp, then "-", then the first 8 characters of the order id (all of a shorter id) upper-cased character by character |
| LaundryOrders.StoreKeepsValid | app/routers/laundry.py:437-452 | storing a row whose totals obey the pricing rule keeps the tables valid |
| LaundryOrders.NewOrderIsNew | app/routers/laundry.py:430-452 | the row built from a priced request and its vendor carries the catalog subtotal, the vendor charges, total = 1.18 × pre-tax sum, pending statuses and no stamps |
| LaundryOrders.LaundryStore.CreateOrder | app/routers/laundry.py:377-478 | succeeds iff the caller is a "user", every item is listed and the vendor exists; the role gate answers 403, pricing 400 and the vendor lookup 400, all before any write; the stored order carries the catalog subtotal, the vendor's charges, total = 1.18 × pre-tax sum, pending statuses and no stamps, followed by one item row per line |
| LaundryOrders.LaundryStore.Place | app/routers/laundry.py:430-467 | once priced and with its vendor found, the order row stored is the new order and one item row per line follows it; the tables stay valid |
| LaundryOrders.LaundryStore.Insert | app/routers/laundry.py:454-467 | the order row is stored under its id, then one item row per priced line is appended, and the tables stay valid |
| LaundryOrders.LaundryStore.AppendItemRows | app/routers/laundry.py:464-467 | appends one item row per priced line, in order, each priced at the catalog price, and keeps the tables valid |
| LaundryOrders.LaundryStore.GetOrder | app/routers/laundry.py:552-618 | 404 for a missing order; 403 when a "user" asks for another's; otherwise the stored row |
| LaundryOrders.LaundryStore.UpdateOrder | app/routers/laundry.py:620-684 | 404, then the ownership 403; on success the row becomes `Updated(row, update, now)` and nothing else changes |
| LaundryOrders.LaundryStore.ProcessPayment | app/routers/laundry.py:688-739 | 404, then the ownership 403; on success only the payment columns change, to paid with the generated reference; the order status is kept |
| LaundryOrders.LaundryStore.Selected | app/routers/laundry.py:496-507 | the role is refused iff it is not user, master, or vendor with a vendor id; a user sees own orders, a vendor that vendor's orders, a master all; a non-empty status filter narrows |
| LaundryOrders.LaundryStore.ListOrdersAsWritten | app/routers/laundry.py:480-550 | a refused role gets a 500, because the `status` parameter shadows the status module |
| LaundryOrders.LaundryStore.ListOrders | app/routers/laundry.py:500-504 | a refused role gets the intended 403; a permitted one gets exactly the selected orders |
| LaundryOrders.PartnerListingFailsAsWritten | app/routers/laundry.py:500-504 | a partner's listing fails with 500 as written and with 403 as intended |
| LaundryOrders.UserListsOnlyOwnOrders | app/routers/laundry.py:496-497 | a "user" always lists successfully and only their own orders, whatever filters are sent |
| LaundryDashboards.MostRecent | app/routers/laundry.py:791-794 | at most n orders, taken from the input, newest first, none older than any left out |
| LaundryDashboards.OrdersOf | app/routers/laundry.py:763 | exactly the vendor's orders |
| LaundryDashboards.StatusCountsPartition | app/routers/laundry.py:765-771 | the six status counts plus the orders in uncounted statuses such as picked_up add up to the total |
| LaundryDashboards.TodayWithinMonth | app/routers/laundry.py:774-784 | with non-negative totals, today's delivered revenue is non-negative and at most the month's |
| LaundryDashboards.VendorAccess | app/routers/laundry.py:751-759 | a master always passes; anyone else must own the vendor row behind the laundry vendor; 404 for an unknown laundry vendor, else 403 |
| LaundryDashboards.GetVendorDashboard | app/routers/laundry.py:743-830 | succeeds iff access is granted; each status count is the number of the vendor's orders in that status; today's revenue is the delivered total dated today, monthly revenue the delivered total from the first of the month, today ≤ monthly; active items are the vendor's active items; up to 5 of the vendor's orders, newest first, none older than any left out |
| LaundryDashboards.FirstSeen | app/routers/laundry.py:856-859 | the dictionary's keys are the distinct names, without repeats |
| LaundryDashboards.FirstSeenOrder | app/routers/laundry.py:856-859 | the keys come in order of first occurrence |
| LaundryDashboards.CountNames | app/routers/laundry.py:856-859 | the loop maps each name to its number of occurrences, with keys in insertion order |
| LaundryDashboards.FirstMax | app/routers/laundry.py:861 | `max` picks a key with the largest count, and no earlier key has that count |
| LaundryDashboards.FavoriteVendor | app/routers/laundry.py:856-861 | None iff no orders; otherwise a most-frequent vendor, which beats every vendor seen before it |
| LaundryDashboards.RecentRows | app/routers/laundry.py:864 | up to 5 of the rows, newest first, none older than any left out |
| LaundryDashboards.GetUserDashboard | app/routers/laundry.py:832-888 | 403 unless role is "user"; counts open and delivered orders over the caller's own orders; total spent is the sum of delivered totals; the favourite vendor is a most-ordered vendor, and among equally frequent vendors the one seen first; none iff no orders; recent orders are the caller's |
| LaundryDashboards.Summarise | app/routers/laundry.py:847-875 | the statistics of a list of orders: total, open and delivered counts, delivered spend, the first-seen most frequent vendor (none iff no orders), and the 5 newest orders |
| Dashboard.ActiveUsersSince | app/routers/dashboard.py:54-56 | the active-user count is at most the number of active users |
| Dashboard.DashboardStats | app/routers/dashboard.py:34-79 | counts of active communities, active vendors, active users and all orders; active users are the active ones updated after the seven-day cutoff; pending + completed ≤ total; revenue is the sum of completed amounts, with a missing amount as 0, and non-negative for non-negative amounts |
| Dashboard.ZeroWindow | app/routers/dashboard.py:97-100 | one zero bucket for each of the `days` days ending today, and no others |
| Dashboard.Populate | app/routers/dashboard.py:103-108 | each bucket counts the fetched orders of its day and sums their completed amounts; orders outside the window are skipped |
| Dashboard.CountInRangeStep | app/routers/dashboard.py:103-106 | widening the window by a day adds that day's orders |
| Dashboard.TrendsOfAt | app/routers/dashboard.py:110-117 | entry i of the trend list is day lo + i with that day's order count and completed revenue |
| Dashboard.TrendsOfTotal | app/routers/dashboard.py:103-117 | the trend list's order counts add up to the fetched orders dated inside the window |
| Dashboard.TrendsOfSpec | app/routers/dashboard.py:110-117 | every entry is its day with that day's tally, and the counts add up to the orders in the window |
| Dashboard.Emit | app/routers/dashboard.py:110-117 | reading the tallied window out in ascending date order gives the trend list of the window |
| Dashboard.Tabulate | app/routers/dashboard.py:95-117 | zeroing, tallying and reading out the window gives its trend list |
| Dashboard.OrderTrends | app/routers/dashboard.py:81-122 | exactly `days` entries (none for days ≤ 0), strictly ascending consecutive days ending today, each the count and completed revenue of its day; summed counts ≤ fetched orders |
| Dashboard.ActivityGeIsPreorder | app/routers/dashboard.py:205 | ordering by timestamp text is a total preorder |
| Dashboard.Newest | app/routers/dashboard.py:138 | a query ordered newest first with `.limit(n)` returns min(n, matches) of the matching rows, newest first, and no row left out is newer than one kept |
| Dashboard.Merged | app/routers/dashboard.py:138-202 | the unsorted feed has at most 3 + 3 + 2 + 2 entries |
| Dashboard.Gather | app/routers/dashboard.py:133-202 | the four fetch-and-append loops build exactly the merged feed: users, then orders, vendors and payments |
| Dashboard.AppendUsers | app/routers/dashboard.py:140-155 | the loop appends one activity per fetched user, in order |
| Dashboard.AppendOrders | app/routers/dashboard.py:162-176 | the loop appends one activity per fetched order, in order |
| Dashboard.AppendVendors | app/routers/dashboard.py:181-189 | the loop appends one activity per fetched vendor, in order |
| Dashboard.AppendPayments | app/routers/dashboard.py:194-202 | the loop appends one activity per fetched payment, in order |
| Dashboard.RecentActivities | app/routers/dashboard.py:124-210 | at most 10 entries, newest first, drawn from the merged feed, none older than any feed entry left out; length `limit` capped by the feed, or for a negative limit the feed minus \|limit\| |
| Dashboard.SortedCut | app/routers/dashboard.py:205-206 | sorting newest first and slicing keeps a sorted sub-multiset whose entries are at least as new as every one cut off, of length `limit` capped by the input, or the input minus \|limit\| for a negative limit |
| Dashboard.CommunityPerfOf | app/routers/dashboard.py:224-259 | order count and revenue sum over the community's active vendors; average × count = revenue, or 0 with no orders |
| Dashboard.CommunityPerformance | app/routers/dashboard.py:212-266 | a permutation of one entry per active community, sorted by revenue descending |
| Dashboard.VendorPerfOf | app/routers/dashboard.py:279-304 | all the vendor's orders counted, completed amounts summed; average × count = revenue; no orders means revenue and average 0 |
| Dashboard.VendorPerformance | app/routers/dashboard.py:268-311 | a permutation of one entry per vendor, sorted by revenue descending |
| Platform.VendorTotals | app/routers/dashboard.py:235-246 | the nested loop's count and revenue equal the per-vendor sums over the vendor list |
| Platform.Average | app/routers/dashboard.py:248 | average × count = revenue when count > 0, else 0 |
| Platform.ActiveVendorIds | app/routers/dashboard.py:231-239 | exactly the ids of the community's active vendors |
| Platform.ActiveCommunities | app/routers/dashboard.py:43-44 | exactly the active communities |
| Platform.RevenueOfVendorsNonNegative | app/routers/communities.py:86-94 | with non-negative amounts a community's revenue is non-negative |
| Platform.NoOrdersNoRevenue | app/routers/dashboard.py:290-292 | a vendor without orders has no revenue |
| Sorting.SortDesc | app/routers/dashboard.py:262 | the sort is a permutation of its input |
| Sorting.SortDescSorted | app/routers/dashboard.py:262 | the sort's result is in descending key order |
| Sorting.PrefixOfSortedIsTop | app/routers/laundry.py:864 | after a descending sort, `[:n]` keeps elements at least as large as every one cut off |
| Sorting.SliceOfSortedIsTop | app/routers/dashboard.py:205-206 | after a descending sort, a Python slice `[:n]` (any integer n, negative counting from the end) keeps elements at least as large as every one cut off |
| Sorting.StrLeTotal | app/routers/dashboard.py:205 | any two strings are ordered one way or the other |
| Sorting.StrLeTransitive | app/routers/dashboard.py:205 | string order is transitive |
| Common.TaggedId | app/routers/communities.py:155 | tag, then the first 8 characters upper-cased; hex input gives upper-case hex |
| Common.SliceTo | app/routers/dashboard.py:206 | Python's `[:n]` for any integer n, including a negative n dropping from the end |
| Common.IsSubstringOccurs | app/routers/communities.py:304-306 | Python's `in` on strings holds iff the term occurs at some index of the text |
| Common.FirstOfMonth | app/routers/laundry.py:780 | the first of the same month, never after the date |
| Communities.View | app/routers/communities.py:41-52 | an absent address or admin field reads as "", an absent `is_active` as true, a NULL as None; the code appears as `community_code` |
| Communities.Matching | app/routers/communities.py:303-306 | a row is kept iff the lowered term occurs in its lowered name, code or address |
| Communities.MatchingAppend | app/routers/communities.py:303-319 | filtering commutes with concatenation, so input order is preserved |
| Communities.RowTest | app/routers/communities.py:304-306 | the per-row test raises exactly when name and code miss and the address is NULL; otherwise it keeps the row iff the term matches |
| Communities.ViewsAppend | app/routers/communities.py:308-319 | mapping rows to views commutes with concatenation |
| Communities.SearchRowsSpec | app/routers/communities.py:300-324 | the search over rows succeeds iff no row raises; its value is the views of the matching rows, and a failure is the 500 |
| Communities.Search | app/routers/communities.py:288-324 | succeeds iff no name/code miss meets a NULL address; the result is the matching rows' views, in order; failure is a 500 |
| Communities.CommunityCode | app/routers/communities.py:155 | "COM" then the first 8 characters of the UUID text, each upper-cased; length 11 for a UUID, and upper-case hex for hex input |
| Communities.StatOf | app/routers/communities.py:71-103 | active vendor and user counts, order count and completed revenue over the community's active vendors |
| Communities.StatRevenueNonNegative | app/routers/communities.py:86-94 | a community's revenue is non-negative for non-negative amounts |
| Communities.CommunityStats | app/routers/communities.py:59-110 | a permutation of one entry per active community, sorted by revenue descending |
| Communities.ApplyUpdate | app/routers/communities.py:199-205 | name, address and the admin fields take the request's values; every other column is unchanged |
| Communities.ApplyStatus | app/routers/communities.py:241-243 | only `is_active` changes |
| Communities.UpdateKeepsCode | app/routers/communities.py:199-205 | an update keeps the code and active flag, so a search by code still finds the community |
| Communities.StatusRoundTrip | app/routers/communities.py:241-243 | setting the status is idempotent, and setting it back restores the row |
| Communities.NewCommunity | app/routers/communities.py:155-168 | a new community is active, carries the generated code and the request's address and phone |
| Communities.CommunityTable.Create | app/routers/communities.py:145-187 | inserts the new active community under a fresh id; a taken id is a 500 and changes nothing |
| Communities.CommunityTable.Update | app/routers/communities.py:189-229 | 404 for an unknown id; otherwise only the updated columns change |
| Communities.CommunityTable.SetStatus | app/routers/communities.py:231-265 | 404 for an unknown id; otherwise only `is_active` changes |
| Orders.NewOrderRow | app/routers/orders.py:16-26 | a new order is pending, owned by the caller, and stores the client's total unrecomputed |
| Orders.FirstAdministered | app/routers/orders.py:80-83 | None iff no vendor lists the user as admin; otherwise the first such vendor |
| Orders.OrderBook.CreateOrder | app/routers/orders.py:10-69 | stores the pending order, then appends one item row per requested item, in order, with total = quantity × unit price |
| Orders.OrderBook.VisibleOrders | app/routers/orders.py:78-90 | a user sees own orders; admin/partner see their first administered vendor's orders, else those naming them as partner; others see all |
| Orders.OrderBook.GetOrder | app/routers/orders.py:145-181 | 404 for a missing order; 403 when a "user" asks for another's; otherwise the row |
| Orders.OrderBook.UpdateStatus | app/routers/orders.py:111-143 | 403 unless admin/partner/master; 422 for a non-`OrderStatus` value; a missing order ends as 400; on success the status is written and exactly one history entry appended |
| Orders.UserListingAgreesWithGet | app/routers/orders.py:78-79 | for a "user", an order is listed iff reading it succeeds |
| Orders.StaffReadBeyondListing | app/routers/orders.py:160-166 | an admin or partner can read orders their listing leaves out |
| Payments.MethodOrDefault | app/routers/payments.py:39 | the method sent, or "mock_payment" when it is absent or empty |
| Payments.TransactionId | app/routers/payments.py:33 | "TX_" then the first 8 hex digits, each upper-cased; length 11 for a full hex UUID, and upper-case hex for hex input |
| Payments.PendingPayment | app/routers/payments.py:35-43 | the payment is inserted pending, owned by the caller, with the default method and the transaction id |
| Payments.StatusChangesKeepValid | app/routers/payments.py:55-62 | changing payment and order statuses keeps every payment tied to an owned order |
| Payments.InsertKeepsValid | app/routers/payments.py:35-62 | recording a payment of an owned order and changing that order's status keeps the ledger valid |
| Payments.PaymentLedger.CreatePayment | app/routers/payments.py:10-79 | 404 for an unknown order; 403 unless the caller owns it, whatever their role; on success the payment is paid and the order confirmed |
| Payments.PaymentLedger.Record | app/routers/payments.py:45-62 | the pending row is inserted then marked paid, the order is confirmed, and the ledger stays valid |
| Payments.PaymentLedger.Refund | app/routers/payments.py:145-184 | 404 for an unknown payment; 400 unless paid, with nothing changed; on success the payment is refunded and its order cancelled |
| Payments.PaymentLedger.GetPayment | app/routers/payments.py:110-143 | 404 for an unknown payment; 403 when a "user" asks for another's; otherwise the row |
| Payments.PaymentLedger.VisiblePayments | app/routers/payments.py:88-92 | a user sees own payments; every other role sees all |
| Payments.ListingAgreesWithGet | app/routers/payments.py:88-131 | a payment is listed iff reading it succeeds, for every caller |
| Payments.RefundTwice | app/routers/payments.py:162-166 | after a successful refund, a second refund of the same payment fails with 400 |
| Payments.PayThenRefund | app/routers/payments.py:55-177 | paying then refunding leaves the payment refunded and the order cancelled |

## Left out

- Database I/O: every call to the hosted database, its inner joins and its
  `generate_laundry_order_number` function. Tables are maps or row
  snapshots. The generator's output is a parameter (`OrderNumber`).
- Order of rows the database returns for equal sort keys. The model uses a
  stable sort of the snapshot given.
- Fresh ids. The database supplies new order, payment and community ids. The
  class methods take them as parameters and require that they are unused.
  `CommunityTable.Create` models a taken id as the insert failing.
- Side inputs: clocks (`datetime.now()`), ISO date parsing and formatting,
  and `uuid4`. They are parameters: `now`, `today`, cutoff strings, and
  `dateOf`/`dayOf` functions.
- Dashboard.OrderTrends: dates are day numbers, not `%Y-%m-%d` strings. The
  two orders agree for four-digit years.
- Number conversions: the `float(...)` conversions of amounts for storage and
  responses, and float division in averages. Money is an exact `real`.
  Python's printing of an amount inside the payment activity message is the
  `amountText` parameter.
- String case: `lower()`/`upper()` are modelled for ASCII letters only.
- Authentication: JWT decoding, password hashing and the `get_current_user`
  dependency. The caller is a `User` parameter. `require_role` is a list
  membership test, and is assumed to run before request validation, so a
  wrong role answers 403 before a bad status value answers 422.
- Framework and concurrency: FastAPI routing, including `/communities/search`
  being declared after `/communities/{community_id}`. Concurrency and partial
  failure of the non-atomic insert loops.
- Orders.OrderBook.CreateOrder: a malformed item dictionary raises after the
  order row has been written. Items are well-formed records here.
- NULL values: a NULL `total_amount` or `updated_at` in the dashboards makes
  Python raise. Amounts are either present or absent (read as 0), and
  timestamps are always present.
- Laundry database defaults: the order `status` and `payment_status`
  defaults are not in the source. They are the constant "pending".
  `updated_at` triggers are not modelled.
- LaundryOrders.LaundryStore.UpdateOrder: a status sent as JSON null is
  modelled as a 400 with no change. The NOT NULL constraint behind it is not
  in the source.
- LaundryOrders.LaundryStore.UpdateOrder: an `estimated_delivery_date` is
  taken to arrive as already-serialised date text. The handler converts only a
  `pickup_date` field to ISO text (app/routers/laundry.py:647-652). It hands a
  `date` object to the database client for this field. If the client cannot
  serialise it, the request answers 400 with nothing changed. The client
  library is not part of this model.
- LaundryDashboards.VendorAccess: ownership is read as app/routers/laundry.py:756-757
  reads it, through a `user_id` column of `vendors`. Every other file reads
  vendor ownership from `admin_id` (app/models.py:67,
  app/routers/vendors.py:133). The database schema is not part of this
  model. So it is unverified whether a non-master caller can ever pass this
  check, or whether the query fails instead.
- Error details: 400s built from exception text are modelled with a fixed
  detail. `Unprocessable("new_status")` stands for FastAPI's validation
  error body.
- Dashboard.CommunityPerfOf: its revenue non-negativity is not in its own
  contract. It follows from `Platform.RevenueOfVendorsNonNegative`.
- Other community endpoints: `get_communities`, `get_community` and
  `delete_community` are not modelled beyond the row mapping `View`, which
  they share.
- Laundry response shape: the joined user and vendor names of
  `LaundryOrderResponse` and the item list of a fetched order are not
  modelled. Orders are stored rows.

## Findings

| source | as written | input that shows it | evidently intended | confidence | as-written member | corrected member |
|---|---|---|---|---|---|---|
| app/routers/laundry.py:20-49 | `get_current_user_or_testing` raises 401 for every request that is not a local testing request. It never reads a bearer token, so the only caller that reaches the laundry endpoints is the mock master. `create_laundry_order`, which demands role "user", therefore always answers 403. | a remote client with a valid token of a "user" | a valid token identifies the caller; the testing bypass is a fallback for local requests only | not executed | LaundryOrders.BypassNeverYieldsUser | LaundryOrders.IntendedAdmitsUsers |
| app/routers/laundry.py:480-550 | The `status` query parameter of `get_laundry_orders` shadows the `status` module. Building the 403 then raises `AttributeError`, and so does the 400 in the `except` clause, so a refused role gets a 500. | a caller with role "partner" and no filters | a refused role gets 403 "Access denied" | not executed | LaundryOrders.LaundryStore.ListOrdersAsWritten | LaundryOrders.LaundryStore.ListOrders |
