/** The read side on the states the order service can reach. */
module HistoryGuarantees {
  import opened Domain
  import opened Tables
  import opened Lifecycle
  import opened ReadSide
  import O = Interleaving
  import S = Serializability
  import G = OrderGuarantees

  lemma StrictStore(run: seq<O.Action>)
    requires O.After(true, run).Some?
    ensures var s := O.After(true, run).value; StoreOk(s.store, s.now, true) && forall id :: O.TrailOk(s, id)
  {
    S.Reachable(true, run);
    G.StrictFixed(true, run);
  }

  /** The time GetHistory sorts an order by is the latest of its records and the time of the committed
      transition into its current status, whatever order the record query gives ties. */
  lemma SortKeyIsLastTransition(run: seq<O.Action>, s: O.State, listing: seq<RecordRow>, id: nat)
    requires O.After(true, run) == Some(s) && IsListing(listing, s.store.records) && id in s.store.orders
    ensures SortsByLast(s, OrderData(id, s.store.orders[id], HistoryOf(listing, id)))
  {
    StrictStore(run);
    LastStampIsCurrent(s.store, s.now, listing, id);
    assert O.TrailOk(s, id);
  }

  ghost predicate SortsByLast(s: O.State, d: OrderData) {
    var ever := HistoryOf(s.entries, d.id);
    && d.history == ever != []
    && (forall r :: r in d.history ==> r.timestamp <= LastStamp(d))
    && LastStamp(d) == ever[|ever| - 1].timestamp
    && ever[|ever| - 1].status == d.row.status
  }

  /** The time of the last transition of order `id` that ever committed. */
  function LastTransition(s: O.State, id: nat): Time {
    var ever := HistoryOf(s.entries, id);
    if ever == [] then 0 else ever[|ever| - 1].timestamp
  }

  /** In every reachable state, what GetHistory answers is listed by the last transitions of its orders, the
      latest first. */
  method ReachableHistory(ghost run: seq<O.Action>, ghost s: O.State, store: Store, listing: seq<RecordRow>,
                          limit: nat, offset: nat) returns (orders: array<OrderData>)
    requires O.After(true, run) == Some(s) && store == s.store && IsListing(listing, store.records)
    ensures exists page :: IsPage(page, store, limit, offset) && multiset(orders[..]) == multiset(page)
    ensures forall i :: 0 <= i < orders.Length ==> SortsByLast(s, orders[i])
    ensures forall i, j :: 0 <= i < j < orders.Length ==>
              LastTransition(s, orders[j].id) <= LastTransition(s, orders[i].id)
  {
    var error;
    orders, error := GetHistory(store, listing, limit, offset, Selects(false, false));
    ghost var answer := orders[..];
    ghost var page :| IsPage(page, store, limit, offset) && multiset(answer) == multiset(page);
    forall i | 0 <= i < |answer| ensures SortsByLast(s, answer[i]) {
      assert answer[i] in multiset(page);
      AnswerSorts(run, s, listing, answer[i]);
    }
  }

  lemma AnswerSorts(run: seq<O.Action>, s: O.State, listing: seq<RecordRow>, d: OrderData)
    requires O.After(true, run) == Some(s) && IsListing(listing, s.store.records)
    requires d.id in s.store.orders && d.row == s.store.orders[d.id] && OwnHistory(d, s.store.records)
    ensures SortsByLast(s, d)
  {
    StrictStore(run);
    HistoriesStrict(s.store, s.now);
    ListingIsHistory(listing, s.store.records, d.id);
    SortKeyIsLastTransition(run, s, listing, d.id);
  }

  /** In every reachable store, consecutive pages tile the whole list and the refund pages its refunds,
      exactly so when the clock never repeats. */
  lemma ReachablePagesTile(strict: bool, run: seq<O.Action>, s: O.State, size: nat,
                           listings: seq<seq<RecordRow>>, listing: seq<RecordRow>)
    requires O.After(strict, run) == Some(s) && IsListing(listing, s.store.records)
    requires forall l :: l in listings ==> IsListing(l, s.store.records)
    requires |listings| * size >= |s.store.orders|
    ensures Tiles(s.store, size, listings, Models(SelectOrders(s.store), listing), strict)
  {
    PagesTile(s.store, size, listings, listing);
    RefundPagesTile(s.store, size, listings, listing);
    if strict {
      StrictStore(run);
      HistoriesStrict(s.store, s.now);
    }
  }

  /** The pages make up `all`, and the refund pages its refunds; without ties exactly. */
  ghost predicate Tiles(s: Store, size: nat, listings: seq<seq<RecordRow>>, all: seq<OrderData>, exact: bool) {
    && SameUpToTies(Pages(s, size, listings), all)
    && SameUpToTies(RefundPages(s, size, listings), RefundedOnly(all))
    && (exact ==> Pages(s, size, listings) == all && RefundPages(s, size, listings) == RefundedOnly(all))
  }
}
