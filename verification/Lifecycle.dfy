/** What a stored order and its history look like, and that every transition keeps it. */
module Lifecycle {
  import opened Domain
  import opened Tables
  import opened Transactions

  /** The text a history record of each status carries. */
  predicate Worded(r: Record) {
    match r.status
    case Received => r.description == ReceivedText
    case Delivered => r.description == DeliveredText
    case Refunded => r.description == RefundedText
    case Expired => r.description == ExpiredText
    case NoStatus => r.description == NoText
    case Returned => r.description == NoText
  }

  function Statuses(h: seq<Record>): seq<Status> {
    seq(|h|, i requires 0 <= i < |h| => h[i].status)
  }

  /** The statuses an order has gone through when its current status is `s`. */
  function Path(s: Status): seq<Status> {
    match s
    case Received => [Received]
    case Delivered => [Received, Delivered]
    case Expired => [Received, Expired]
    case Refunded => [Received, Delivered, Refunded]
    case NoStatus => []
    case Returned => []
  }

  /** `a` is not after `b`; in strict mode clock readings never repeat. */
  predicate Before(strict: bool, a: Time, b: Time) {
    a < b || (!strict && a == b)
  }

  ghost predicate Ascending(h: seq<Record>, strict: bool) {
    forall i, j :: 0 <= i < j < |h| ==> Before(strict, h[i].timestamp, h[j].timestamp)
  }

  ghost predicate DatesOk(row: OrderRow, h: seq<Record>) {
    && (row.deliveredDate.Some? <==> row.status in {Delivered, Refunded})
    && (row.refundedDate.Some? <==> row.status == Refunded)
    && row.returnedDate.None?
    && (row.deliveredDate.Some? ==> |h| >= 2 && h[0].timestamp <= row.deliveredDate.value <= h[1].timestamp)
    && (row.refundedDate.Some? ==>
          |h| == 3 && row.deliveredDate.Some? && row.deliveredDate.value <= row.refundedDate.value <= h[2].timestamp)
    && (row.status == Expired ==> |h| == 2 && row.expirationDate < h[1].timestamp)
  }

  ghost predicate OrderOk(row: OrderRow, h: seq<Record>, now: Time, strict: bool) {
    && h != []
    && Statuses(h) == Path(row.status)
    && DatesOk(row, h)
    && Ascending(h, strict)
    && (forall i :: 0 <= i < |h| ==> h[i] == NewRecord(h[i].status, h[i].timestamp) && h[i].timestamp <= now)
  }

  ghost predicate StoreOk(s: Store, now: Time, strict: bool) {
    && (forall id :: id in s.orders ==> OrderOk(s.orders[id], HistoryOf(s.records, id), now, strict))
    && (forall id :: id !in s.orders ==> HistoryOf(s.records, id) == [])
  }

  /** The readings this transaction uses lie between `from` and `now`, in program order. */
  ghost predicate Timely(op: Op, seen: Option<OrderRow>, x: Inputs, from: Time, now: Time, strict: bool) {
    match op
    case Receive(_, _, _) => Before(strict, from, x.record) && x.record <= x.task <= now
    case Deliver(_, _) =>
      && Before(strict, from, x.check)
      && (if seen.Some? && seen.value.expirationDate < x.check then Before(strict, x.check, x.record)
          else Before(strict, x.check, x.change) && Before(strict, x.change, x.record))
      && x.record <= x.task <= now
    case Refund(_, _) =>
      Before(strict, from, x.change) && Before(strict, x.change, x.record) && x.record <= x.task <= now
    case Return(_) => from <= x.check <= now
  }

  /** A transition appends one record that extends the order's path by one status. */
  lemma TransitionKeepsOrder(op: Op, seen: Option<OrderRow>, h: seq<Record>, x: Inputs,
                              from: Time, now: Time, strict: bool)
    requires seen.Some? ==> OrderOk(seen.value, h, from, strict)
    requires seen.None? ==> h == []
    requires Timely(op, seen, x, from, now, strict)
    requires Decide(op, seen, x).Commit? && Decide(op, seen, x).effect.Put?
    ensures var e := Decide(op, seen, x).effect; OrderOk(e.row, h + [e.entry.record], now, strict)
  {
  }

  /** Descriptive fields fixed at acceptance. */
  predicate SameParcel(a: OrderRow, b: OrderRow) {
    a.recipientId == b.recipientId && a.expirationDate == b.expirationDate && a.weight == b.weight && a.worth == b.worth
  }

  /** CanBeRefunded never dereferences a nil delivered date on a stored order. */
  lemma RefundNeverNil(id: nat, recipientId: int, row: OrderRow, h: seq<Record>, now: Time, strict: bool, x: Inputs)
    requires OrderOk(row, h, now, strict)
    ensures Decide(Refund(id, recipientId), Some(row), x) != Reject(NilDate)
  {
  }
}
