/** The queries that list orders: grouping of history records, paging, refunds and the history view. */
module ReadSide {
  import opened Domain
  import opened Tables
  import opened Transactions
  import opened Lifecycle

  // ---- what the SELECT statements return ----

  function Least(keys: set<nat>): (m: nat)
    requires keys != {}
    ensures m in keys && forall k :: k in keys ==> m <= k
  {
    assert exists m :: m in keys && forall k :: k in keys ==> m <= k by {
      var x :| x in keys;
      LeastExists(keys, x);
    }
    var m :| m in keys && forall k :: k in keys ==> m <= k;
    m
  }

  lemma {:induction false} LeastExists(keys: set<nat>, x: nat)
    requires x in keys
    ensures exists m :: m in keys && forall k :: k in keys ==> m <= k
    decreases x
  {
    if y :| y in keys && y < x {
      LeastExists(keys, y);
    }
  }

  /** ORDER BY id ASC. */
  function SortedIds(keys: set<nat>): (ids: seq<nat>)
    ensures |ids| == |keys|
    ensures forall id :: id in ids <==> id in keys
  {
    if keys == {} then []
    else
      var m := Least(keys);
      [m] + SortedIds(keys - {m})
  }

  ghost predicate Increasing(ids: seq<nat>) {
    forall i, j :: 0 <= i < j < |ids| ==> ids[i] < ids[j]
  }

  lemma PrependLeast(m: nat, rest: seq<nat>)
    requires Increasing(rest) && forall id :: id in rest ==> m < id
    ensures Increasing([m] + rest)
  {
    var ids := [m] + rest;
    forall i, j | 0 <= i < j < |ids| ensures ids[i] < ids[j] {
      assert ids[j] == rest[j - 1] && rest[j - 1] in rest;
    }
  }

  /** The listing order is by increasing id. */
  lemma {:induction false} SortedIdsAscend(keys: set<nat>)
    ensures Increasing(SortedIds(keys))
  {
    if keys != {} {
      var m := Least(keys);
      SortedIdsAscend(keys - {m});
      PrependLeast(m, SortedIds(keys - {m}));
    }
  }

  datatype OrderDto = OrderDto(id: nat, row: OrderRow)

  function SelectOrders(s: Store): seq<OrderDto> {
    var ids := SortedIds(s.orders.Keys);
    seq(|ids|, i requires 0 <= i < |ids| => OrderDto(ids[i], s.orders[ids[i]]))
  }

  function Cut(n: nat, top: nat): nat {
    if n < top then n else top
  }

  /** LIMIT and OFFSET. */
  function Window(rows: seq<OrderDto>, limit: nat, offset: nat): seq<OrderDto> {
    rows[Cut(offset, |rows|)..Cut(offset + limit, |rows|)]
  }

  /** ORDER BY order_id, timestamp. */
  ghost predicate InListingOrder(listing: seq<RecordRow>) {
    forall i, j :: 0 <= i < j < |listing| ==>
      listing[i].orderId < listing[j].orderId
      || (listing[i].orderId == listing[j].orderId && listing[i].record.timestamp <= listing[j].record.timestamp)
  }

  /** An answer of the record query: ties may come in any order. */
  ghost predicate IsListing(listing: seq<RecordRow>, records: seq<RecordRow>) {
    multiset(listing) == multiset(records) && InListingOrder(listing)
  }

  /** The models the loops are to build: each order with its own records, in listing order. */
  function Models(rows: seq<OrderDto>, listing: seq<RecordRow>): seq<OrderData> {
    seq(|rows|, i requires 0 <= i < |rows| => OrderData(rows[i].id, rows[i].row, HistoryOf(listing, rows[i].id)))
  }

  // ---- GetAll, GetList ----

  /** The single-pass grouping of the record rows by order id. */
  method Group(listing: seq<RecordRow>) returns (m: map<nat, seq<Record>>)
    ensures forall id: nat :: (if id in m then m[id] else []) == HistoryOf(listing, id)
  {
    m := map[];
    var i := 0;
    while i < |listing|
      invariant 0 <= i <= |listing|
      invariant forall id: nat :: (if id in m then m[id] else []) == HistoryOf(listing[..i], id)
    {
      var r := listing[i];
      assert listing[..i + 1] == listing[..i] + [r];
      forall id: nat ensures HistoryOf(listing[..i + 1], id) ==
                             if r.orderId == id then HistoryOf(listing[..i], id) + [r.record]
                             else HistoryOf(listing[..i], id)
      {
        HistoryOfAppend(listing[..i], r, id);
      }
      m := m[r.orderId := (if r.orderId in m then m[r.orderId] else []) + [r.record]];
      i := i + 1;
    }
    assert listing[..|listing|] == listing;
  }

  method Assemble(rows: seq<OrderDto>, listing: seq<RecordRow>) returns (orders: seq<OrderData>)
    ensures orders == Models(rows, listing)
  {
    var m := Group(listing);
    orders := [];
    for i := 0 to |rows|
      invariant orders == Models(rows[..i], listing)
    {
      var id := rows[i].id;
      orders := orders + [OrderData(id, rows[i].row, if id in m then m[id] else [])];
    }
    assert rows[..|rows|] == rows;
  }

  // ---- what an answer is ----

  ghost function Smaller(s: Store, id: nat): set<nat> {
    set j | j in s.orders && j < id
  }

  /** How many stored orders have a smaller id. */
  ghost function Rank(s: Store, id: nat): nat {
    |Smaller(s, id)|
  }

  /** The page is the stored orders from place `offset` on in the order of their ids, at most `limit` of
      them, each with its own row. */
  ghost predicate IsPage(orders: seq<OrderData>, s: Store, limit: nat, offset: nat) {
    && |orders| == (if |s.orders| <= offset then 0
                    else if |s.orders| <= offset + limit then |s.orders| - offset else limit)
    && forall i :: 0 <= i < |orders| ==>
         orders[i].id in s.orders && Rank(s, orders[i].id) == offset + i && orders[i].row == s.orders[orders[i].id]
  }

  /** Each order comes with its own records in the order of their times, which is the order in which they
      were written if no two have the same time. */
  ghost predicate OwnHistories(orders: seq<OrderData>, records: seq<RecordRow>) {
    forall i :: 0 <= i < |orders| ==> OwnHistory(orders[i], records)
  }

  ghost predicate OwnHistory(d: OrderData, records: seq<RecordRow>) {
    && multiset(d.history) == multiset(HistoryOf(records, d.id))
    && Ascending(d.history, false)
    && (StrictHistories(records) ==> d.history == HistoryOf(records, d.id))
  }

  /** The refunded orders whose place is on the page, in the order of their ids. */
  ghost predicate IsRefundPage(refunds: seq<OrderData>, s: Store, limit: nat, offset: nat) {
    && (forall i, j :: 0 <= i < j < |refunds| ==> refunds[i].id < refunds[j].id)
    && (forall i :: 0 <= i < |refunds| ==> OnRefundPage(s, limit, offset, refunds[i].id)
                                           && refunds[i].row == s.orders[refunds[i].id])
    && (forall id :: OnRefundPage(s, limit, offset, id) ==> exists i :: 0 <= i < |refunds| && refunds[i].id == id)
  }

  ghost predicate OnRefundPage(s: Store, limit: nat, offset: nat, id: nat) {
    id in s.orders && s.orders[id].status == Refunded && offset <= Rank(s, id) < offset + limit
  }

  ghost function Members(ids: seq<nat>): set<nat> {
    set j | j in ids
  }

  lemma {:induction false} MembersCount(ids: seq<nat>)
    requires Increasing(ids)
    ensures |Members(ids)| == |ids|
  {
    if ids != [] {
      var n := |ids| - 1;
      MembersCount(ids[..n]);
      assert ids == ids[..n] + [ids[n]];
      assert Members(ids) == Members(ids[..n]) + {ids[n]};
      assert ids[n] !in ids[..n];
    }
  }

  lemma RankInSorted(s: Store, i: nat)
    requires i < |SortedIds(s.orders.Keys)|
    ensures Rank(s, SortedIds(s.orders.Keys)[i]) == i
  {
    var ids := SortedIds(s.orders.Keys);
    SortedIdsAscend(s.orders.Keys);
    MembersCount(ids[..i]);
    forall j: nat ensures j in Smaller(s, ids[i]) <==> j in Members(ids[..i]) {
      BelowPlace(ids, i, j);
    }
    assert Smaller(s, ids[i]) == Members(ids[..i]);
  }

  lemma BelowPlace(ids: seq<nat>, i: nat, j: nat)
    requires Increasing(ids) && i < |ids|
    ensures j in ids && j < ids[i] <==> j in ids[..i]
  {
    if j in ids && j < ids[i] {
      var k :| 0 <= k < |ids| && ids[k] == j;
      assert k < i && ids[..i][k] == j;
    }
  }

  lemma WindowIsPage(s: Store, listing: seq<RecordRow>, limit: nat, offset: nat)
    ensures IsPage(Models(Window(SelectOrders(s), limit, offset), listing), s, limit, offset)
  {
    var page := Models(Window(SelectOrders(s), limit, offset), listing);
    assert |SelectOrders(s)| == |s.orders.Keys| == |s.orders|;
    forall i | 0 <= i < |page|
      ensures page[i].id in s.orders && Rank(s, page[i].id) == offset + i && page[i].row == s.orders[page[i].id]
    {
      RankInSorted(s, offset + i);
    }
  }

  lemma AllIsPage(s: Store, listing: seq<RecordRow>)
    ensures IsPage(Models(SelectOrders(s), listing), s, |s.orders|, 0)
  {
    assert |SelectOrders(s)| == |s.orders.Keys| == |s.orders|;
    WindowIsPage(s, listing, |s.orders|, 0);
    assert Window(SelectOrders(s), |s.orders|, 0) == SelectOrders(s);
  }

  lemma OwnsHistory(d: OrderData, listing: seq<RecordRow>, records: seq<RecordRow>)
    requires d.history == HistoryOf(listing, d.id) && IsListing(listing, records)
    ensures OwnHistory(d, records)
  {
    PermutedHistory(listing, records, d.id);
    ListingAscends(listing, d.id);
    if StrictHistories(records) { ListingIsHistory(listing, records, d.id); }
  }

  lemma OwnModels(rows: seq<OrderDto>, listing: seq<RecordRow>)
    ensures forall records :: IsListing(listing, records) ==> OwnHistories(Models(rows, listing), records)
  {
    forall records | IsListing(listing, records) ensures OwnHistories(Models(rows, listing), records) {
      forall i | 0 <= i < |rows| ensures OwnHistory(Models(rows, listing)[i], records) {
        OwnsHistory(Models(rows, listing)[i], listing, records);
      }
    }
  }

  // ---- the methods ----

  /** Which of the two SELECT statements fail if they are reached.  In the methods below `s` is what the
      first one sees and `listing` the answer of the second one, whatever was committed in between. */
  datatype Selects = Selects(orders: bool, records: bool) {
    predicate Fail() {
      orders || records
    }
  }

  method GetAll(s: Store, listing: seq<RecordRow>, faults: Selects)
    returns (orders: seq<OrderData>, error: Option<Error>)
    ensures faults.Fail() ==> error == Some(DatabaseFault) && orders == []
    ensures !faults.Fail() ==> error.None? && orders == Models(SelectOrders(s), listing)
    ensures !faults.Fail() ==> IsPage(orders, s, |s.orders|, 0)
    ensures forall records :: IsListing(listing, records) ==> OwnHistories(orders, records)
  {
    if faults.orders { return [], Some(DatabaseFault); }
    if faults.records { return [], Some(DatabaseFault); }
    orders := Assemble(SelectOrders(s), listing);
    error := None;
    AllIsPage(s, listing);
    OwnModels(SelectOrders(s), listing);
  }

  /** A page is answered unless a query fails; a negative limit or offset is refused by the database. */
  predicate Answerable(limit: int, offset: int, faults: Selects) {
    limit >= 0 && offset >= 0 && !faults.Fail()
  }

  method GetList(s: Store, listing: seq<RecordRow>, limit: int, offset: int, faults: Selects)
    returns (orders: seq<OrderData>, error: Option<Error>)
    ensures error.None? <==> Answerable(limit, offset, faults)
    ensures error.Some? ==> orders == []
    ensures Answerable(limit, offset, faults) ==> orders == Models(Window(SelectOrders(s), limit, offset), listing)
    ensures Answerable(limit, offset, faults) ==> IsPage(orders, s, limit, offset)
    ensures forall records :: IsListing(listing, records) ==> OwnHistories(orders, records)
  {
    if faults.orders { return [], Some(DatabaseFault); }
    if limit < 0 || offset < 0 { return [], Some(BadPagination); }
    if faults.records { return [], Some(DatabaseFault); }
    orders := Assemble(Window(SelectOrders(s), limit, offset), listing);
    error := None;
    WindowIsPage(s, listing, limit, offset);
    OwnModels(Window(SelectOrders(s), limit, offset), listing);
  }

  function RefundedOnly(orders: seq<OrderData>): seq<OrderData> {
    if orders == [] then []
    else
      var n := |orders| - 1;
      RefundedOnly(orders[..n]) + if orders[n].row.status == Refunded then [orders[n]] else []
  }

  lemma RefundedNext(orders: seq<OrderData>, i: nat)
    requires i < |orders|
    ensures RefundedOnly(orders[..i + 1]) ==
            RefundedOnly(orders[..i]) + if orders[i].row.status == Refunded then [orders[i]] else []
  {
    assert orders[..i + 1][..i] == orders[..i];
  }

  method GetAllRefunds(s: Store, listing: seq<RecordRow>, limit: int, offset: int, faults: Selects)
    returns (refunds: seq<OrderData>, error: Option<Error>)
    ensures error.None? <==> Answerable(limit, offset, faults)
    ensures error.Some? ==> refunds == []
    ensures Answerable(limit, offset, faults) ==>
              refunds == RefundedOnly(Models(Window(SelectOrders(s), limit, offset), listing))
    ensures Answerable(limit, offset, faults) ==> IsRefundPage(refunds, s, limit, offset)
    ensures forall records :: IsListing(listing, records) ==> OwnHistories(refunds, records)
  {
    var orders;
    orders, error := GetList(s, listing, limit, offset, faults);
    refunds := [];
    if error.Some? { return; }
    for i := 0 to |orders|
      invariant refunds == RefundedOnly(orders[..i])
    {
      RefundedNext(orders, i);
      if orders[i].row.status == Refunded { refunds := refunds + [orders[i]]; }
    }
    assert orders[..|orders|] == orders;
    RefundedAre(orders);
    PageRefunds(orders, s, limit, offset);
    forall records | IsListing(listing, records) ensures OwnHistories(refunds, records) {
      forall i | 0 <= i < |refunds| ensures OwnHistory(refunds[i], records) {
        assert refunds[i] in orders;
      }
    }
  }

  /** The refunded orders are those of the list with that status. */
  lemma {:induction false} RefundedAre(orders: seq<OrderData>)
    ensures forall d :: d in RefundedOnly(orders) <==> d in orders && d.row.status == Refunded
  {
    if orders != [] {
      var n := |orders| - 1;
      RefundedAre(orders[..n]);
      assert orders == orders[..n] + [orders[n]];
    }
  }

  ghost predicate Ascends(orders: seq<OrderData>) {
    forall i, j :: 0 <= i < j < |orders| ==> orders[i].id < orders[j].id
  }

  lemma {:induction false} RefundedAscend(orders: seq<OrderData>)
    requires Ascends(orders)
    ensures Ascends(RefundedOnly(orders))
  {
    if orders != [] {
      var n := |orders| - 1;
      RefundedAscend(orders[..n]);
      RefundedAre(orders[..n]);
      var before := RefundedOnly(orders[..n]);
      forall i | 0 <= i < |before| ensures before[i].id < orders[n].id {
        assert before[i] in orders[..n];
      }
    }
  }

  lemma RankMonotone(s: Store, a: nat, b: nat)
    requires a in s.orders && b <= a
    ensures Rank(s, b) <= Rank(s, a)
  {
    var below, above := Smaller(s, b), Smaller(s, a);
    assert above == below + (above - below);
  }

  lemma RankApart(s: Store, a: nat, b: nat)
    requires a in s.orders && b in s.orders && a < b
    ensures Rank(s, a) < Rank(s, b)
  {
    var below, above := Smaller(s, a), Smaller(s, b);
    assert above == below + (above - below) && a in above - below;
  }

  /** On a page, places and ids go together. */
  lemma PageAscends(page: seq<OrderData>, s: Store, limit: nat, offset: nat)
    requires IsPage(page, s, limit, offset)
    ensures Ascends(page)
  {
    forall i, j | 0 <= i < j < |page| ensures page[i].id < page[j].id {
      if page[j].id <= page[i].id { RankMonotone(s, page[i].id, page[j].id); }
    }
  }

  /** Every order whose place is on the page is there. */
  lemma PageCovers(page: seq<OrderData>, s: Store, limit: nat, offset: nat, id: nat)
    requires IsPage(page, s, limit, offset) && id in s.orders && offset <= Rank(s, id) < offset + limit
    ensures Rank(s, id) - offset < |page| && page[Rank(s, id) - offset].id == id
  {
    RankBelow(s, id);
    var other := page[Rank(s, id) - offset].id;
    if other < id { RankApart(s, other, id); }
    if id < other { RankApart(s, id, other); }
  }

  lemma RankBelow(s: Store, id: nat)
    requires id in s.orders
    ensures Rank(s, id) < |s.orders|
  {
    var below := Smaller(s, id);
    assert s.orders.Keys == below + (s.orders.Keys - below) && id in s.orders.Keys - below;
  }

  lemma PageRefunds(page: seq<OrderData>, s: Store, limit: nat, offset: nat)
    requires IsPage(page, s, limit, offset)
    ensures IsRefundPage(RefundedOnly(page), s, limit, offset)
  {
    var refunds := RefundedOnly(page);
    RefundedAre(page);
    PageAscends(page, s, limit, offset);
    RefundedAscend(page);
    forall i | 0 <= i < |refunds|
      ensures OnRefundPage(s, limit, offset, refunds[i].id) && refunds[i].row == s.orders[refunds[i].id]
    {
      assert refunds[i] in page;
      var k :| 0 <= k < |page| && page[k] == refunds[i];
    }
    forall id | OnRefundPage(s, limit, offset, id) ensures exists i :: 0 <= i < |refunds| && refunds[i].id == id {
      PageCovers(page, s, limit, offset, id);
      var d := page[Rank(s, id) - offset];
      assert d in refunds;
    }
  }

  // ---- the grouping does not depend on the order of other records ----

  /** Taking one record out takes it out of its order's history. */
  lemma HistoryWithoutAt(b: seq<RecordRow>, i: nat, id: nat)
    requires i < |b|
    ensures multiset(HistoryOf(b, id)) ==
            multiset(HistoryOf(b[..i] + b[i + 1..], id))
                + (if b[i].orderId == id then multiset{b[i].record} else multiset{})
  {
    assert b == (b[..i] + [b[i]]) + b[i + 1..];
    HistoryOfConcat(b[..i], b[i + 1..], id);
    HistoryOfConcat(b[..i] + [b[i]], b[i + 1..], id);
    HistoryOfAppend(b[..i], b[i], id);
  }

  lemma {:induction false} PermutedHistory(a: seq<RecordRow>, b: seq<RecordRow>, id: nat)
    requires multiset(a) == multiset(b)
    ensures multiset(HistoryOf(a, id)) == multiset(HistoryOf(b, id))
  {
    if a == [] {
      assert |multiset(b)| == |b| == 0;
    } else {
      var n := |a| - 1;
      var i := Position(b, a[n]) by { assert a[n] in multiset(a); }
      assert a[..n] + a[n + 1..] == a[..n];
      RestPermuted(a, n, b, i);
      PermutedHistory(a[..n], b[..i] + b[i + 1..], id);
      HistoryWithoutAt(a, n, id);
      HistoryWithoutAt(b, i, id);
    }
  }

  ghost function Position<T>(b: seq<T>, x: T): (i: nat)
    requires x in b
    ensures i < |b| && b[i] == x
  {
    var i :| 0 <= i < |b| && b[i] == x; i
  }

  lemma WithoutOne<T>(a: seq<T>, n: nat)
    requires n < |a|
    ensures multiset(a[..n] + a[n + 1..]) == multiset(a) - multiset{a[n]}
  {
    assert a == a[..n] + [a[n]] + a[n + 1..];
  }

  lemma RestPermuted<T>(a: seq<T>, n: nat, b: seq<T>, i: nat)
    requires n < |a| && i < |b| && a[n] == b[i] && multiset(a) == multiset(b)
    ensures multiset(a[..n] + a[n + 1..]) == multiset(b[..i] + b[i + 1..])
  {
    WithoutOne(a, n);
    WithoutOne(b, i);
  }

  ghost predicate Occurs(listing: seq<RecordRow>, id: nat, r: Record) {
    exists i :: 0 <= i < |listing| && listing[i].orderId == id && listing[i].record == r
  }

  lemma {:induction false} HistoryOccurs(listing: seq<RecordRow>, id: nat, r: Record)
    requires r in HistoryOf(listing, id)
    ensures Occurs(listing, id, r)
  {
    var n := |listing| - 1;
    if r in HistoryOf(listing[..n], id) {
      HistoryOccurs(listing[..n], id, r);
      var i :| 0 <= i < n && listing[..n][i].orderId == id && listing[..n][i].record == r;
      assert listing[i].orderId == id;
    } else {
      assert listing[n].orderId == id && listing[n].record == r;
    }
  }

  /** Each order's part of a listing is in timestamp order. */
  lemma {:induction false} ListingAscends(listing: seq<RecordRow>, id: nat)
    requires InListingOrder(listing)
    ensures Ascending(HistoryOf(listing, id), false)
  {
    if listing != [] {
      var n := |listing| - 1;
      ListingAscends(listing[..n], id);
      var before := HistoryOf(listing[..n], id);
      forall k | 0 <= k < |before| && listing[n].orderId == id
          ensures before[k].timestamp <= listing[n].record.timestamp {
        HistoryOccurs(listing[..n], id, before[k]);
        var i :| 0 <= i < n && listing[..n][i].orderId == id && listing[..n][i].record == before[k];
        assert listing[i].orderId == id;
      }
    }
  }

  lemma SameLast(a: seq<Record>, b: seq<Record>)
    requires a != [] && |a| == |b| && multiset(a) == multiset(b) && Ascending(a, false) && Ascending(b, true)
    ensures a[|a| - 1] == b[|b| - 1]
  {
    var n := |a| - 1;
    assert a[n] in multiset(b) && b[n] in multiset(a);
    var i, j := Position(b, a[n]), Position(a, b[n]);
    assert b[i].timestamp <= b[n].timestamp && a[j].timestamp <= a[n].timestamp;
  }

  /** A time-ordered arrangement of records with distinct timestamps is unique. */
  lemma {:induction false} UniqueArrangement(a: seq<Record>, b: seq<Record>)
    requires multiset(a) == multiset(b) && Ascending(a, false) && Ascending(b, true)
    ensures a == b
  {
    assert |multiset(a)| == |a| && |multiset(b)| == |b|;
    if a != [] {
      var n := |a| - 1;
      SameLast(a, b);
      RestPermuted(a, n, b, n);
      assert a[..n] + a[n + 1..] == a[..n] && b[..n] + b[n + 1..] == b[..n];
      UniqueArrangement(a[..n], b[..n]);
      assert a == a[..n] + [a[n]] && b == b[..n] + [b[n]];
    }
  }

  ghost predicate StrictHistories(records: seq<RecordRow>) {
    forall id :: Ascending(HistoryOf(records, id), true)
  }

  /** With distinct timestamps per order, every listing groups to the insertion-order history. */
  lemma ListingIsHistory(listing: seq<RecordRow>, records: seq<RecordRow>, id: nat)
    requires IsListing(listing, records) && StrictHistories(records)
    ensures HistoryOf(listing, id) == HistoryOf(records, id)
  {
    PermutedHistory(listing, records, id);
    ListingAscends(listing, id);
    assert Ascending(HistoryOf(records, id), true);
    UniqueArrangement(HistoryOf(listing, id), HistoryOf(records, id));
  }

  /** The same orders with the same records; only records of one order with the same timestamp may
      come in a different order. */
  ghost predicate SameUpToTies(a: seq<OrderData>, b: seq<OrderData>) {
    && |a| == |b|
    && forall i :: 0 <= i < |a| ==>
         && a[i].id == b[i].id && a[i].row == b[i].row && multiset(a[i].history) == multiset(b[i].history)
         && Ascending(a[i].history, false)
  }

  lemma ModelsUpToTies(rows: seq<OrderDto>, a: seq<RecordRow>, b: seq<RecordRow>, records: seq<RecordRow>)
    requires IsListing(a, records) && IsListing(b, records)
    ensures SameUpToTies(Models(rows, a), Models(rows, b))
  {
    forall i | 0 <= i < |rows| ensures multiset(HistoryOf(a, rows[i].id)) == multiset(HistoryOf(b, rows[i].id))
                                       && Ascending(HistoryOf(a, rows[i].id), false)
    {
      PermutedHistory(a, b, rows[i].id);
      ListingAscends(a, rows[i].id);
    }
  }

  /** Without ties in the histories nothing is left open. */
  lemma NoTies(a: seq<OrderData>, b: seq<OrderData>)
    requires SameUpToTies(a, b) && forall i :: 0 <= i < |b| ==> Ascending(b[i].history, true)
    ensures a == b
  {
    forall i | 0 <= i < |a| ensures a[i] == b[i] {
      UniqueArrangement(a[i].history, b[i].history);
    }
  }

  // ---- paging ----

  /** The answers to the first `|listings|` pages of `size` orders, one after the other; the record
      query of each page may order ties in its own way. */
  function Pages(s: Store, size: nat, listings: seq<seq<RecordRow>>): seq<OrderData> {
    if listings == [] then []
    else
      var n := |listings| - 1;
      Pages(s, size, listings[..n]) + Models(Window(SelectOrders(s), size, n * size), listings[n])
  }

  function RefundPages(s: Store, size: nat, listings: seq<seq<RecordRow>>): seq<OrderData> {
    if listings == [] then []
    else
      var n := |listings| - 1;
      RefundPages(s, size, listings[..n]) + RefundedOnly(Models(Window(SelectOrders(s), size, n * size), listings[n]))
  }

  lemma PageOf(rows: seq<OrderDto>, listing: seq<RecordRow>, limit: nat, offset: nat)
    ensures var all := Models(rows, listing);
            all[..Cut(offset, |rows|)] + Models(Window(rows, limit, offset), listing)
                == all[..Cut(offset + limit, |rows|)]
  {
  }

  lemma NextOffset(n: nat, size: nat)
    ensures n * size + size == (n + 1) * size
  {
  }

  lemma TiesAppend(a: seq<OrderData>, b: seq<OrderData>, c: seq<OrderData>, d: seq<OrderData>)
    requires SameUpToTies(a, b) && SameUpToTies(c, d)
    ensures SameUpToTies(a + c, b + d)
  {
  }

  lemma {:induction false} PagesArePrefix(s: Store, size: nat, listings: seq<seq<RecordRow>>, listing: seq<RecordRow>)
    requires IsListing(listing, s.records)
    requires forall l :: l in listings ==> IsListing(l, s.records)
    ensures SameUpToTies(Pages(s, size, listings),
                         Models(SelectOrders(s), listing)[..Cut(|listings| * size, |SelectOrders(s)|)])
  {
    if listings == [] {
    } else {
      var n := |listings| - 1;
      PagesArePrefix(s, size, listings[..n], listing);
      assert listings[n] in listings;
      NextOffset(n, size);
      var offset := n * size;
      ModelsUpToTies(Window(SelectOrders(s), size, offset), listings[n], listing, s.records);
      var all, rows := Models(SelectOrders(s), listing), SelectOrders(s);
      TiesAppend(Pages(s, size, listings[..n]), all[..Cut(offset, |rows|)],
                 Models(Window(rows, size, offset), listings[n]), Models(Window(rows, size, offset), listing));
      PageOf(rows, listing, size, offset);
    }
  }

  /** On a fixed store, consecutive pages of any positive size concatenate to GetAll, histories
      included; records of one order with equal timestamps may come in any order on both sides. */
  lemma PagesTile(s: Store, size: nat, listings: seq<seq<RecordRow>>, listing: seq<RecordRow>)
    requires IsListing(listing, s.records)
    requires forall l :: l in listings ==> IsListing(l, s.records)
    requires |listings| * size >= |s.orders|
    ensures SameUpToTies(Pages(s, size, listings), Models(SelectOrders(s), listing))
    ensures StrictHistories(s.records) ==> Pages(s, size, listings) == Models(SelectOrders(s), listing)
  {
    PagesArePrefix(s, size, listings, listing);
    assert |SelectOrders(s)| == |s.orders.Keys| == |s.orders|;
    var all := Models(SelectOrders(s), listing);
    if StrictHistories(s.records) {
      forall i | 0 <= i < |all| ensures Ascending(all[i].history, true) {
        ListingIsHistory(listing, s.records, all[i].id);
      }
      NoTies(Pages(s, size, listings), all);
    }
  }

  lemma {:induction false} RefundedUpToTies(a: seq<OrderData>, b: seq<OrderData>)
    requires SameUpToTies(a, b)
    ensures SameUpToTies(RefundedOnly(a), RefundedOnly(b))
  {
    if a != [] { RefundedUpToTies(a[..|a| - 1], b[..|b| - 1]); }
  }

  lemma {:induction false} RefundedConcat(a: seq<OrderData>, b: seq<OrderData>)
    ensures RefundedOnly(a + b) == RefundedOnly(a) + RefundedOnly(b)
  {
    if b == [] {
      assert a + b == a;
    } else {
      var n := |b| - 1;
      assert (a + b)[..|a + b| - 1] == a + b[..n];
      RefundedConcat(a, b[..n]);
    }
  }

  lemma {:induction false} RefundPagesFilter(s: Store, size: nat, listings: seq<seq<RecordRow>>)
    ensures RefundPages(s, size, listings) == RefundedOnly(Pages(s, size, listings))
  {
    if listings != [] {
      var n := |listings| - 1;
      RefundPagesFilter(s, size, listings[..n]);
      RefundedConcat(Pages(s, size, listings[..n]), Models(Window(SelectOrders(s), size, n * size), listings[n]));
    }
  }

  /** The pages of GetAllRefunds concatenate to the refunded orders of GetAll, in order. */
  lemma RefundPagesTile(s: Store, size: nat, listings: seq<seq<RecordRow>>, listing: seq<RecordRow>)
    requires IsListing(listing, s.records)
    requires forall l :: l in listings ==> IsListing(l, s.records)
    requires |listings| * size >= |s.orders|
    ensures SameUpToTies(RefundPages(s, size, listings), RefundedOnly(Models(SelectOrders(s), listing)))
    ensures StrictHistories(s.records) ==>
              RefundPages(s, size, listings) == RefundedOnly(Models(SelectOrders(s), listing))
  {
    RefundPagesFilter(s, size, listings);
    PagesTile(s, size, listings, listing);
    RefundedUpToTies(Pages(s, size, listings), Models(SelectOrders(s), listing));
  }

  // ---- GetHistory ----

  /** The key of the comparator: the zero time for an order without records. */
  function LastStamp(d: OrderData): Time {
    if d.history == [] then ZERO_TIME else d.history[|d.history| - 1].timestamp
  }

  ghost predicate NewestFirst(orders: seq<OrderData>) {
    forall i, j :: 0 <= i < j < |orders| ==> LastStamp(orders[i]) >= LastStamp(orders[j])
  }

  /** An order without records is not before one whose last record has a time. */
  ghost predicate EmptyLast(orders: seq<OrderData>) {
    forall i, j :: 0 <= i < j < |orders| && orders[i].history == [] ==>
      orders[j].history == [] || orders[j].history[|orders[j].history| - 1].timestamp == 0
  }

  /** Of two orders with records, the one with the later last record comes first. */
  ghost predicate LatestFirst(orders: seq<OrderData>) {
    forall i, j :: 0 <= i < j < |orders| && orders[i].history != [] && orders[j].history != [] ==>
      orders[j].history[|orders[j].history| - 1].timestamp <= orders[i].history[|orders[i].history| - 1].timestamp
  }

  function Insert(sorted: seq<OrderData>, d: OrderData): seq<OrderData> {
    if sorted == [] || LastStamp(sorted[|sorted| - 1]) >= LastStamp(d) then sorted + [d]
    else Insert(sorted[..|sorted| - 1], d) + [sorted[|sorted| - 1]]
  }

  function Arrange(orders: seq<OrderData>): seq<OrderData> {
    if orders == [] then [] else Insert(Arrange(orders[..|orders| - 1]), orders[|orders| - 1])
  }

  lemma {:induction false} InsertElements(sorted: seq<OrderData>, d: OrderData)
    ensures multiset(Insert(sorted, d)) == multiset(sorted) + multiset{d}
  {
    if sorted != [] {
      var n := |sorted| - 1;
      InsertElements(sorted[..n], d);
      assert sorted == sorted[..n] + [sorted[n]];
    }
  }

  ghost predicate AllAtLeast(orders: seq<OrderData>, time: Time) {
    forall k :: 0 <= k < |orders| ==> LastStamp(orders[k]) >= time
  }

  lemma {:induction false} InsertAtLeast(sorted: seq<OrderData>, d: OrderData, time: Time)
    requires AllAtLeast(sorted, time) && LastStamp(d) >= time
    ensures AllAtLeast(Insert(sorted, d), time)
  {
    if sorted != [] { InsertAtLeast(sorted[..|sorted| - 1], d, time); }
  }

  lemma {:induction false} InsertSorts(sorted: seq<OrderData>, d: OrderData)
    requires NewestFirst(sorted)
    ensures NewestFirst(Insert(sorted, d))
  {
    var n := |sorted| - 1;
    if sorted != [] && LastStamp(sorted[n]) < LastStamp(d) {
      InsertSorts(sorted[..n], d);
      InsertAtLeast(sorted[..n], d, LastStamp(sorted[n]));
    }
  }

  lemma {:induction false} ArrangeKeeps(orders: seq<OrderData>)
    ensures NewestFirst(Arrange(orders)) && multiset(Arrange(orders)) == multiset(orders)
  {
    if orders != [] {
      var n := |orders| - 1;
      ArrangeKeeps(orders[..n]);
      InsertSorts(Arrange(orders[..n]), orders[n]);
      InsertElements(Arrange(orders[..n]), orders[n]);
      assert orders == orders[..n] + [orders[n]];
    }
  }

  /** Where an element of a sorted prefix ends up when `d` is inserted at place `j`. */
  lemma {:induction false} InsertAt(sorted: seq<OrderData>, d: OrderData, j: nat)
    requires j <= |sorted| && (forall k :: j <= k < |sorted| ==> LastStamp(sorted[k]) < LastStamp(d))
    requires j > 0 ==> LastStamp(sorted[j - 1]) >= LastStamp(d)
    ensures Insert(sorted, d) == sorted[..j] + [d] + sorted[j..]
  {
    var n := |sorted|;
    if j < n {
      InsertAt(sorted[..n - 1], d, j);
      assert sorted[..n - 1][..j] == sorted[..j] && sorted[..n - 1][j..] + [sorted[n - 1]] == sorted[j..];
    }
  }

  /** `after` is `before` with element `i` moved down to place `j`. */
  ghost predicate MovedDown(before: seq<OrderData>, after: seq<OrderData>, i: nat, j: nat)
    requires j <= i < |before| == |after|
  {
    && (forall k :: 0 <= k < |before| && (k < j || k > i) ==> after[k] == before[k])
    && after[j] == before[i]
    && (forall k :: j < k <= i ==> after[k] == before[k - 1])
  }

  lemma MovedDownInserts(before: seq<OrderData>, after: seq<OrderData>, i: nat, j: nat)
    requires j <= i < |before| == |after| && MovedDown(before, after, i, j)
    requires forall k :: j <= k < i ==> LastStamp(before[k]) < LastStamp(before[i])
    requires j > 0 ==> LastStamp(before[j - 1]) >= LastStamp(before[i])
    ensures after[..i + 1] == Insert(before[..i], before[i])
  {
    var sorted, d := before[..i], before[i];
    InsertAt(sorted, d, j);
    var r := sorted[..j] + [d] + sorted[j..];
    forall k | 0 <= k <= i ensures after[k] == r[k] {
      if k > j { assert r[k] == sorted[k - 1]; }
    }
    assert after[..i + 1] == r;
  }

  /** One insertion of the in-place sort: the element after the sorted prefix moves to its place. */
  method InsertInPlace(a: array<OrderData>, i: nat) returns (j: nat)
    requires i < a.Length
    modifies a
    ensures j <= i && MovedDown(old(a[..]), a[..], i, j)
    ensures forall k :: j <= k < i ==> LastStamp(old(a[k])) < LastStamp(old(a[i]))
    ensures j > 0 ==> LastStamp(old(a[j - 1])) >= LastStamp(old(a[i]))
  {
    var d := a[i];
    j := i;
    while j > 0 && LastStamp(a[j - 1]) < LastStamp(d)
      invariant 0 <= j <= i
      invariant forall k :: 0 <= k < a.Length && (k < j || k > i) ==> a[k] == old(a[k])
      invariant forall k :: j < k <= i ==> a[k] == old(a[k - 1])
      invariant forall k :: j <= k < i ==> LastStamp(old(a[k])) < LastStamp(d)
    {
      a[j] := a[j - 1];
      j := j - 1;
    }
    a[j] := d;
  }

  /** After `i` insertions the first `i` elements are arranged and the others untouched. */
  ghost predicate ArrangedUpTo(was: seq<OrderData>, now: seq<OrderData>, i: nat)
    requires i <= |was| == |now|
  {
    now[..i] == Arrange(was[..i]) && forall k :: i <= k < |was| ==> now[k] == was[k]
  }

  lemma SortStep(was: seq<OrderData>, before: seq<OrderData>, after: seq<OrderData>, i: nat, j: nat)
    requires j <= i < |was| == |before| == |after| && MovedDown(before, after, i, j)
    requires forall k :: j <= k < i ==> LastStamp(before[k]) < LastStamp(before[i])
    requires j > 0 ==> LastStamp(before[j - 1]) >= LastStamp(before[i])
    requires ArrangedUpTo(was, before, i)
    ensures ArrangedUpTo(was, after, i + 1)
  {
    MovedDownInserts(before, after, i, j);
    assert was[..i + 1][..i] == was[..i];
  }

  method SortNewestFirst(a: array<OrderData>)
    modifies a
    ensures NewestFirst(a[..]) && multiset(a[..]) == multiset(old(a[..]))
  {
    ghost var was := a[..];
    for i := 0 to a.Length
      invariant ArrangedUpTo(was, a[..], i)
    {
      ghost var before := a[..];
      var j := InsertInPlace(a, i);
      SortStep(was, before, a[..], i, j);
    }
    assert a[..][..a.Length] == a[..] && was[..a.Length] == was;
    ArrangeKeeps(was);
  }

  lemma SortedPlainly(orders: seq<OrderData>)
    requires NewestFirst(orders)
    ensures EmptyLast(orders) && LatestFirst(orders)
  {
    forall i, j | 0 <= i < j < |orders| ensures LastStamp(orders[i]) >= LastStamp(orders[j]) {}
  }

  method GetHistory(s: Store, listing: seq<RecordRow>, limit: int, offset: int, faults: Selects)
    returns (orders: array<OrderData>, error: Option<Error>)
    ensures error.None? <==> Answerable(limit, offset, faults)
    ensures error.Some? ==> orders.Length == 0
    ensures Answerable(limit, offset, faults) ==>
              exists page :: IsPage(page, s, limit, offset) && multiset(orders[..]) == multiset(page)
    ensures forall records :: IsListing(listing, records) ==> OwnHistories(orders[..], records)
    ensures EmptyLast(orders[..]) && LatestFirst(orders[..])
    ensures Answerable(limit, offset, faults) ==>
              && NewestFirst(orders[..])
              && multiset(orders[..]) == multiset(Models(Window(SelectOrders(s), limit, offset), listing))
  {
    var page;
    page, error := GetList(s, listing, limit, offset, faults);
    orders := new OrderData[|page|](i requires 0 <= i < |page| => page[i]);
    assert orders[..] == page;
    SortNewestFirst(orders);
    ghost var answer := orders[..];
    forall records | IsListing(listing, records) ensures OwnHistories(answer, records) {
      forall i | 0 <= i < |answer| ensures OwnHistory(answer[i], records) {
        assert answer[i] in multiset(page);
      }
    }
    SortedPlainly(answer);
  }

  /** On a stored order with distinct record times the sort key is the latest of its records, and that
      record is the transition into the current status. */
  lemma LastStampIsCurrent(s: Store, now: Time, listing: seq<RecordRow>, id: nat)
    requires StoreOk(s, now, true) && IsListing(listing, s.records) && id in s.orders
    ensures var h := HistoryOf(listing, id); var d := OrderData(id, s.orders[id], h);
            && h != []
            && (forall r :: r in h ==> r.timestamp <= LastStamp(d))
            && h[|h| - 1].status == s.orders[id].status
            && LastStamp(d) == h[|h| - 1].timestamp
            && h == HistoryOf(s.records, id)
  {
    HistoriesStrict(s, now);
    ListingIsHistory(listing, s.records, id);
    LastIsCurrent(s.orders[id], HistoryOf(s.records, id), now);
  }

  lemma LastIsCurrent(row: OrderRow, h: seq<Record>, now: Time)
    requires OrderOk(row, h, now, true)
    ensures h[|h| - 1].status == row.status
    ensures forall r :: r in h ==> r.timestamp <= h[|h| - 1].timestamp
  {
    assert |Statuses(h)| == |h| && Statuses(h)[|h| - 1] == h[|h| - 1].status;
  }

  lemma HistoriesStrict(s: Store, now: Time)
    requires StoreOk(s, now, true)
    ensures StrictHistories(s.records)
  {
  }
}
