/** The four transactions of the service as pure decisions on the one order row they read, and
    their effect on the tables.  The imperative service, the interleaved model and the one-at-a-time
    model all use these two functions. */
module Transactions {
  import opened Domain
  import opened Tables

  datatype Op =
    | Receive(params: OrderParams, packaging: Packaging, membrana: bool)
    | Deliver(id: nat, recipientId: int)
    | Refund(id: nat, recipientId: int)
    | Return(id: nat)

  datatype Sequence = OrderIds | RecordIds | TaskIds

  datatype Counters = Counters(orders: nat, records: nat, tasks: nat) {
    function At(k: Sequence): nat {
      match k case OrderIds => orders case RecordIds => records case TaskIds => tasks
    }

    function Bump(k: Sequence): Counters {
      match k
      case OrderIds => this.(orders := orders + 1)
      case RecordIds => this.(records := records + 1)
      case TaskIds => this.(tasks := tasks + 1)
    }
  }

  /** What a transaction draws from outside its snapshot: its clock readings in program order
      (expiry check, date written to the row, history record, outbox task) and sequence values. */
  datatype Inputs = Inputs(check: Time, change: Time, record: Time, task: Time,
                           orderId: nat, recordId: nat, taskId: nat)

  datatype Error =
    | NotFound | NotReceived | NotRefundable | NotExpired | BadPackaging | DuplicateKey
    | NilDate                                  // a nil pointer would be dereferenced
    | DatabaseFault | CommitRefused | CommitReplyLost
    | CacheMiss | CacheFault | UnknownAction | BadPagination

  datatype Effect =
    | Put(id: nat, row: OrderRow, entry: RecordRow, taskId: nat, task: TaskRow)
    | Drop(id: nat)

  datatype Decision = Commit(effect: Effect) | Reject(error: Error)

  function Target(op: Op, x: Inputs): nat {
    if op.Receive? then x.orderId else op.id
  }

  function Transition(id: nat, row: OrderRow, x: Inputs): Effect {
    var record := NewRecord(row.status, x.record);
    Put(id, row, RecordRow(x.recordId, id, record),
        x.taskId, TaskRow(Created, x.task, record.status, record.description, record.timestamp))
  }

  function Decide(op: Op, seen: Option<OrderRow>, x: Inputs): Decision {
    match op
    case Receive(p, packaging, membrana) =>
      var charged := Package(packaging, membrana, p.weight, p.worth);
      if charged.None? then Reject(BadPackaging)
      else if seen.Some? then Reject(DuplicateKey)
      else Commit(Transition(x.orderId,
        OrderRow(p.recipientId, p.expirationDate, None, None, None, Received, p.weight, charged.value), x))
    case Deliver(id, recipientId) =>
      if seen.None? || seen.value.recipientId != recipientId then Reject(NotFound)
      else if seen.value.status != Received then Reject(NotReceived)
      else if seen.value.expirationDate < x.check then Commit(Transition(id, seen.value.(status := Expired), x))
      else Commit(Transition(id, seen.value.(status := Delivered, deliveredDate := Some(x.change)), x))
    case Refund(id, recipientId) =>
      if seen.None? || seen.value.recipientId != recipientId then Reject(NotFound)
      else if seen.value.status != Delivered then Reject(NotRefundable)
      else if seen.value.deliveredDate.None? then Reject(NilDate)
      else Commit(Transition(id, seen.value.(status := Refunded, refundedDate := Some(x.change)), x))
    case Return(id) =>
      if seen.None? then Reject(NotFound)
      else if !(seen.value.expirationDate < x.check) then Reject(NotExpired)
      else Commit(Drop(id))
  }

  function Apply(s: Store, e: Effect): Store {
    match e
    case Put(id, row, entry, taskId, task) => Store(s.orders[id := row], s.records + [entry], s.outbox[taskId := task])
    case Drop(id) => Store(s.orders - {id}, Without(s.records, id), s.outbox)
  }

  /** Receive inserts under a fresh key and reads no existing row. */
  function Seen(op: Op, s: Store): Option<OrderRow> {
    if op.Receive? then None else Lookup(s, op.id)
  }

  /** The write to the cache that follows a commit. */
  datatype CacheWrite = SetOrder(data: OrderData) | DeleteOrder(id: nat)

  function WriteFor(e: Effect): CacheWrite {
    if e.Put? then SetOrder(OrderData(e.id, e.row, [])) else DeleteOrder(e.id)
  }

  function Cached(cache: map<nat, OrderData>, w: CacheWrite): map<nat, OrderData> {
    match w
    case SetOrder(d) => cache[d.id := d]
    case DeleteOrder(id) => cache - {id}
  }
}
