/** The tables as values: one record per SQL statement effect, and the per-order history that
    the `order_records` table holds. */
module Tables {
  import opened Domain

  datatype RecordRow = RecordRow(id: nat, orderId: nat, record: Record)

  datatype TaskStatus = Created | Processing | Failed

  datatype TaskRow = TaskRow(status: TaskStatus, createdAt: Time,
                             orderStatus: Status, description: Text, timestamp: Time)

  /** `orders` and the outbox are keyed by primary key; `records` is in insertion order. */
  datatype Store = Store(orders: map<nat, OrderRow>, records: seq<RecordRow>, outbox: map<nat, TaskRow>)

  const EMPTY_STORE := Store(map[], [], map[])

  function Lookup(s: Store, id: nat): Option<OrderRow> {
    if id in s.orders then Some(s.orders[id]) else None
  }

  /** The subsequence of `records` that belongs to order `id`. */
  function HistoryOf(records: seq<RecordRow>, id: nat): seq<Record> {
    if records == [] then []
    else
      var last := records[|records| - 1];
      var before := HistoryOf(records[..|records| - 1], id);
      if last.orderId == id then before + [last.record] else before
  }

  /** ON DELETE CASCADE: the records that do not belong to order `id`. */
  function Without(records: seq<RecordRow>, id: nat): seq<RecordRow> {
    if records == [] then []
    else
      var last := records[|records| - 1];
      var before := Without(records[..|records| - 1], id);
      if last.orderId == id then before else before + [last]
  }

  lemma HistoryOfAppend(records: seq<RecordRow>, r: RecordRow, id: nat)
    ensures HistoryOf(records + [r], id) ==
            if r.orderId == id then HistoryOf(records, id) + [r.record] else HistoryOf(records, id)
  {
  }

  lemma {:induction false} HistoryOfConcat(a: seq<RecordRow>, b: seq<RecordRow>, id: nat)
    ensures HistoryOf(a + b, id) == HistoryOf(a, id) + HistoryOf(b, id)
  {
    if b == [] {
      assert a + b == a;
    } else {
      var n := |b| - 1;
      assert a + b == (a + b[..n]) + [b[n]];
      HistoryOfConcat(a, b[..n], id);
      HistoryOfAppend(a + b[..n], b[n], id);
    }
  }

  /** The cascade erases exactly the history of the deleted order. */
  lemma {:induction false} HistoryOfWithout(records: seq<RecordRow>, gone: nat, id: nat)
    ensures HistoryOf(Without(records, gone), id) == if id == gone then [] else HistoryOf(records, id)
  {
    if records != [] {
      var n := |records| - 1;
      HistoryOfWithout(records[..n], gone, id);
      HistoryOfAppend(Without(records[..n], gone), records[n], id);
    }
  }
}
