/** Community management (app/routers/communities.py): the dictionary every
    endpoint returns for a row, the case-insensitive search filter, the join
    code of a new community, the per-community statistics, and which columns
    creation, update and the status toggle write. */
module Communities {
  import opened Common
  import opened Sorting
  import opened Platform

  // ---------------------------------------------------------------------
  // Row mapping (lines 41-52, repeated by every endpoint)

  /** The response dictionary. Columns read with `row.get(key, default)` are
      None when the row holds NULL. */
  datatype CommunityView = CommunityView(
    id: string,
    name: string,
    address: Option<string>,
    communityCode: string,
    adminName: Option<string>,
    adminEmail: Option<string>,
    adminPhone: Option<string>,
    isActive: Option<bool>,
    createdAt: string,
    updatedAt: string)

  /** An absent address or admin column reads as "", an absent `is_active`
      as true; the join code is exposed as `community_code`. */
  function View(row: CommunityRow): (v: CommunityView)
    ensures v.id == row.id && v.name == row.name && v.communityCode == row.code
    ensures v.createdAt == row.createdAt && v.updatedAt == row.updatedAt
    ensures row.address.Missing? ==> v.address == Some("")
    ensures row.adminName.Missing? ==> v.adminName == Some("")
    ensures row.adminEmail.Missing? ==> v.adminEmail == Some("")
    ensures row.adminPhone.Missing? ==> v.adminPhone == Some("")
    ensures row.isActive.Missing? ==> v.isActive == Some(true)
    ensures v.address.None? <==> row.address.Null?
    ensures v.isActive.None? <==> row.isActive.Null?
  {
    CommunityView(row.id, row.name, row.address.Get(""), row.code, row.adminName.Get(""), row.adminEmail.Get(""),
                  row.adminPhone.Get(""), row.isActive.Get(true), row.createdAt, row.updatedAt)
  }

  function Views(rows: seq<CommunityRow>): (r: seq<CommunityView>)
    ensures |r| == |rows|
    ensures forall i :: 0 <= i < |rows| ==> r[i] == View(rows[i])
  {
    if rows == [] then [] else Views(rows[..|rows| - 1]) + [View(rows[|rows| - 1])]
  }

  // ---------------------------------------------------------------------
  // Search (lines 288-324)

  /** The name or the code contains the (lowercased) search term. */
  predicate NameOrCodeMatches(term: string, row: CommunityRow) {
    IsSubstring(term, Lower(row.name)) || IsSubstring(term, Lower(row.code))
  }

  /** The row is kept: the term occurs in the lowercased name, code or
      address, an absent address counting as "". */
  predicate Matches(term: string, row: CommunityRow) {
    || NameOrCodeMatches(term, row)
    || (match row.address
        case Missing => IsSubstring(term, "")
        case Null => false
        case Val(a) => IsSubstring(term, Lower(a)))
  }

  /** The address test runs (name and code did not match) on a NULL
      address, and `None.lower()` raises. */
  predicate AddressRaises(term: string, row: CommunityRow) {
    !NameOrCodeMatches(term, row) && row.address.Null?
  }

  /** The kept rows, in input order. */
  function Matching(rows: seq<CommunityRow>, term: string): (r: seq<CommunityRow>)
    ensures |r| <= |rows|
    ensures forall row :: row in r <==> row in rows && Matches(term, row)
  {
    if rows == [] then []
    else Matching(rows[..|rows| - 1], term) + (if Matches(term, rows[|rows| - 1]) then [rows[|rows| - 1]] else [])
  }

  /** Filtering commutes with concatenation: the kept rows of a longer
      listing are those of its first part followed by those of the rest, so
      the search never reorders rows. */
  lemma {:induction false} MatchingAppend(a: seq<CommunityRow>, b: seq<CommunityRow>, term: string)
    ensures Matching(a + b, term) == Matching(a, term) + Matching(b, term)
  {
    if b == [] {
      assert a + b == a;
    } else {
      var b' := b[..|b| - 1];
      assert (a + b)[..|a + b| - 1] == a + b';
      MatchingAppend(a, b', term);
    }
  }

  /** The test of lines 304-306 on one row, evaluated left to right: None
      when it reaches a NULL address and raises. */
  function RowTest(term: string, row: CommunityRow): (keep: Option<bool>)
    ensures keep.None? <==> AddressRaises(term, row)
    ensures keep.Some? ==> (keep.value <==> Matches(term, row))
  {
    if NameOrCodeMatches(term, row) then Some(true)
    else
      match row.address
      case Missing => Some(IsSubstring(term, ""))
      case Null => None
      case Val(a) => Some(IsSubstring(term, Lower(a)))
  }

  /** Mapping rows to views commutes with concatenation. */
  lemma {:induction false} ViewsAppend(a: seq<CommunityRow>, b: seq<CommunityRow>)
    ensures Views(a + b) == Views(a) + Views(b)
  {
    var l, r := Views(a + b), Views(a) + Views(b);
    assert |l| == |r|;
    forall i | 0 <= i < |l| ensures l[i] == r[i] {
      if i < |a| {
        assert (a + b)[i] == a[i];
      } else {
        assert (a + b)[i] == b[i - |a|];
      }
    }
  }

  /** The outcome of the search loop over `rows`: the views of the kept
      rows in order, or the server error once a row's test raises. */
  function SearchRows(rows: seq<CommunityRow>, term: string): Result<seq<CommunityView>> {
    if rows == [] then Success([])
    else
      match SearchRows(rows[..|rows| - 1], term)
      case Failure(e) => Failure(e)
      case Success(kept) =>
        var row := rows[|rows| - 1];
        match RowTest(term, row)
        case None => Failure(ServerError("Failed to search communities"))
        case Some(keep) => Success(if keep then kept + [View(row)] else kept)
  }

  /** The search loop fails exactly when some row's address test raises,
      always with the same server error, and otherwise returns the views of
      the matching rows in input order. */
  lemma {:induction false} SearchRowsSpec(rows: seq<CommunityRow>, term: string)
    ensures SearchRows(rows, term).Success? <==> forall row :: row in rows ==> !AddressRaises(term, row)
    ensures SearchRows(rows, term).Success? ==> SearchRows(rows, term).value == Views(Matching(rows, term))
    ensures SearchRows(rows, term).Failure? ==> SearchRows(rows, term).error == ServerError("Failed to search communities")
  {
    if rows != [] {
      var init, row := rows[..|rows| - 1], rows[|rows| - 1];
      assert rows == init + [row];
      SearchRowsSpec(init, term);
      if SearchRows(init, term).Success? && RowTest(term, row).Some? {
        var tail := if Matches(term, row) then [row] else [];
        assert Matching(rows, term) == Matching(init, term) + tail;
        ViewsAppend(Matching(init, term), tail);
      }
    }
  }

  /** `search_communities`: the query is lowercased once; a row is kept when
      the term occurs in its name, code or address, and the endpoint fails
      with a server error when the address test meets a NULL address. */
  method Search(rows: seq<CommunityRow>, q: string) returns (r: Result<seq<CommunityView>>)
    ensures r.Success? <==> forall row :: row in rows ==> !AddressRaises(Lower(q), row)
    ensures r.Success? ==> r.value == Views(Matching(rows, Lower(q)))
    ensures r.Failure? ==> r.error == ServerError("Failed to search communities")
  {
    var term := Lower(q);
    var communities: seq<CommunityView> := [];
    for i := 0 to |rows|
      invariant SearchRows(rows[..i], term) == Success(communities)
    {
      var row := rows[i];
      assert rows[..i + 1][..i] == rows[..i];
      var keep := RowTest(term, row);
      if keep.None? {
        assert row in rows && AddressRaises(term, row);
        return Failure(ServerError("Failed to search communities"));
      }
      if keep.value {
        communities := communities + [View(row)];
      }
    }
    assert rows[..|rows|] == rows;
    SearchRowsSpec(rows, term);
    return Success(communities);
  }

  // ---------------------------------------------------------------------
  // Community code (line 155)

  /** `f"COM{str(uuid.uuid4())[:8].upper()}"`, with the UUID's text given. */
  function CommunityCode(uuid: string): (code: string)
    ensures |uuid| >= 8 ==> |code| == 11
    ensures |code| >= 3 && code[..3] == "COM"
    ensures |code| == 3 + (if |uuid| >= 8 then 8 else |uuid|)
    ensures forall i :: 3 <= i < |code| ==> code[i] == UpperChar(uuid[i - 3])
    ensures (forall i :: 0 <= i < |uuid| && i < 8 ==> IsHexChar(uuid[i])) ==> forall i :: 3 <= i < |code| ==> IsUpperHexChar(code[i])
  {
    TaggedId("COM", uuid)
  }

  // ---------------------------------------------------------------------
  // Statistics (lines 59-110)

  datatype CommunityStat = CommunityStat(
    communityId: string,
    communityName: string,
    vendorCount: nat,
    userCount: nat,
    orderCount: nat,
    revenue: real)

  predicate StatGe(a: CommunityStat, b: CommunityStat) {
    a.revenue >= b.revenue
  }

  /** The statistics of one active community: its active vendors and users,
      the orders of those vendors and the amounts of the completed ones. */
  function StatOf(c: CommunityRow, users: seq<UserRow>, vendors: seq<VendorRow>, orders: seq<OrderRow>)
    : (s: CommunityStat)
    ensures s.communityId == c.id && s.communityName == c.name
    ensures s.vendorCount == |ActiveVendorIds(vendors, c.id)| <= |vendors|
    ensures s.userCount == ActiveUsersIn(users, c.id) <= |users|
    ensures s.orderCount == OrdersOfVendors(orders, ActiveVendorIds(vendors, c.id))
    ensures s.revenue == RevenueOfVendors(orders, ActiveVendorIds(vendors, c.id))
  {
    var ids := ActiveVendorIds(vendors, c.id);
    CommunityStat(c.id, c.name, |ids|, ActiveUsersIn(users, c.id), OrdersOfVendors(orders, ids), RevenueOfVendors(orders, ids))
  }

  function StatRows(cs: seq<CommunityRow>, users: seq<UserRow>, vendors: seq<VendorRow>, orders: seq<OrderRow>)
    : (r: seq<CommunityStat>)
    ensures |r| == |cs|
  {
    if cs == [] then [] else StatRows(cs[..|cs| - 1], users, vendors, orders) + [StatOf(cs[|cs| - 1], users, vendors, orders)]
  }

  /** With non-negative order amounts every community's revenue is
      non-negative. */
  lemma StatRevenueNonNegative(c: CommunityRow, users: seq<UserRow>, vendors: seq<VendorRow>, orders: seq<OrderRow>)
    requires forall o :: o in orders ==> AmountOf(o) >= 0.0
    ensures StatOf(c, users, vendors, orders).revenue >= 0.0
  {
    RevenueOfVendorsNonNegative(orders, ActiveVendorIds(vendors, c.id));
  }

  /** `get_community_stats`: one entry per active community, then a stable
      sort by revenue, highest first. */
  method CommunityStats(communities: seq<CommunityRow>, users: seq<UserRow>, vendors: seq<VendorRow>,
                        orders: seq<OrderRow>) returns (stats: seq<CommunityStat>)
    ensures multiset(stats) == multiset(StatRows(ActiveCommunities(communities), users, vendors, orders))
    ensures |stats| == |ActiveCommunities(communities)|
    ensures SortedDesc(stats, StatGe)
  {
    var active := ActiveCommunities(communities);
    stats := [];
    for i := 0 to |active|
      invariant stats == StatRows(active[..i], users, vendors, orders)
    {
      var c := active[i];
      var vendorIds := ActiveVendorIds(vendors, c.id);
      var count: nat, revenue := 0, 0.0;
      if vendorIds != [] {
        count, revenue := VendorTotals(orders, vendorIds);
      }
      assert active[..i + 1][..i] == active[..i];
      stats := stats + [CommunityStat(c.id, c.name, |vendorIds|, ActiveUsersIn(users, c.id), count, revenue)];
    }
    assert active[..|active|] == active;
    var rows := stats;
    stats := SortDesc(stats, StatGe);
    SortDescSorted(rows, StatGe);
  }

  // ---------------------------------------------------------------------
  // Create, update, toggle (lines 145-265)

  /** The `CommunityUpdate` request body, used by both create and update. */
  datatype CommunityRequest = CommunityRequest(
    name: string,
    address: string,
    adminName: string,
    adminEmail: string,
    adminPhone: Option<string>)

  /** A Python None written to a column stores NULL. */
  function Stored(v: Option<string>): (c: Cell<string>)
    ensures c.Get("") == v
  {
    match v
    case None => Null
    case Some(s) => Val(s)
  }

  /** The columns `update_community` writes: name, address and the admin
      fields. */
  function ApplyUpdate(row: CommunityRow, req: CommunityRequest): (r: CommunityRow)
    ensures r.name == req.name && r.address == Val(req.address)
    ensures r.adminName == Val(req.adminName) && r.adminEmail == Val(req.adminEmail)
    ensures View(r).adminPhone == req.adminPhone
    ensures r.(name := row.name, address := row.address, adminName := row.adminName,
               adminEmail := row.adminEmail, adminPhone := row.adminPhone) == row
  {
    row.(name := req.name, address := Val(req.address), adminName := Val(req.adminName),
         adminEmail := Val(req.adminEmail), adminPhone := Stored(req.adminPhone))
  }

  /** The one column `toggle_community_status` writes. */
  function ApplyStatus(row: CommunityRow, isActive: bool): (r: CommunityRow)
    ensures r.isActive == Val(isActive) && View(r).isActive == Some(isActive)
    ensures r.(isActive := row.isActive) == row
  {
    row.(isActive := Val(isActive))
  }

  /** Update never changes a community's join code or whether it is active,
      so a search that found it by code still does. */
  lemma {:induction false} UpdateKeepsCode(row: CommunityRow, req: CommunityRequest, term: string)
    ensures ApplyUpdate(row, req).code == row.code && ApplyUpdate(row, req).isActive == row.isActive
    ensures IsSubstring(term, Lower(row.code)) ==> Matches(term, ApplyUpdate(row, req))
  {
    var r := ApplyUpdate(row, req);
    assert r.code == r.(name := row.name, address := row.address, adminName := row.adminName,
                        adminEmail := row.adminEmail, adminPhone := row.adminPhone).code;
  }

  /** Setting the status twice is setting it once; toggling back to the
      previous value restores a row whose status was stored explicitly. */
  lemma {:induction false} StatusRoundTrip(row: CommunityRow, b: bool)
    ensures ApplyStatus(ApplyStatus(row, b), b) == ApplyStatus(row, b)
    ensures row.isActive.Val? ==> ApplyStatus(ApplyStatus(row, b), row.isActive.value) == row
  {
  }

  /** The row `create_community` inserts; the database supplies the id and
      the timestamps. */
  function NewCommunity(req: CommunityRequest, id: string, code: string, now: string): (row: CommunityRow)
    ensures CommunityActive(row) && View(row).isActive == Some(true)
    ensures row.code == code && row.id == id
    ensures View(row).address == Some(req.address) && View(row).adminPhone == req.adminPhone
  {
    CommunityRow(id, req.name, code, Val(req.address), Val(req.adminName), Val(req.adminEmail),
                 Stored(req.adminPhone), Val(true), now, now)
  }

  /** The `communities` table keyed by id. */
  class CommunityTable {
    var rows: map<string, CommunityRow>

    constructor()
      ensures rows == map[]
    {
      rows := map[];
    }

    /** `create_community`: a new active community with a generated code.
        An id already taken makes the insert fail. */
    method Create(req: CommunityRequest, id: string, uuid: string, now: string) returns (r: Result<CommunityView>)
      modifies this
      ensures id in old(rows) ==> r == Failure(ServerError("Failed to create community")) && rows == old(rows)
      ensures id !in old(rows) ==>
                && rows == old(rows)[id := NewCommunity(req, id, CommunityCode(uuid), now)]
                && r == Success(View(rows[id]))
    {
      if id in rows {
        return Failure(ServerError("Failed to create community"));
      }
      var row := NewCommunity(req, id, CommunityCode(uuid), now);
      rows := rows[id := row];
      return Success(View(row));
    }

    /** `update_community`: not found when no row has the id; otherwise only
        name, address and the admin fields change. */
    method Update(id: string, req: CommunityRequest) returns (r: Result<CommunityView>)
      modifies this
      ensures id !in old(rows) ==> r == Failure(NotFound("Community not found")) && rows == old(rows)
      ensures id in old(rows) ==>
                && rows == old(rows)[id := ApplyUpdate(old(rows)[id], req)]
                && r == Success(View(rows[id]))
    {
      if id !in rows {
        return Failure(NotFound("Community not found"));
      }
      var row := ApplyUpdate(rows[id], req);
      rows := rows[id := row];
      return Success(View(row));
    }

    /** `toggle_community_status`: not found when no row has the id;
        otherwise only `is_active` changes. */
    method SetStatus(id: string, isActive: bool) returns (r: Result<CommunityView>)
      modifies this
      ensures id !in old(rows) ==> r == Failure(NotFound("Community not found")) && rows == old(rows)
      ensures id in old(rows) ==>
                && rows == old(rows)[id := ApplyStatus(old(rows)[id], isActive)]
                && r == Success(View(rows[id]))
    {
      if id !in rows {
        return Failure(NotFound("Community not found"));
      }
      var row := ApplyStatus(rows[id], isActive);
      rows := rows[id := row];
      return Success(View(row));
    }
  }
}
