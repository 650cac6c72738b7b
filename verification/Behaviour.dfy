/** What each request does, in the values it writes, the error it reports and the answer it gives: a
    reference that does not use the decision, effect and packaging functions of the model. */
module Behaviour {
  import opened Domain
  import opened Tables
  import opened Transactions
  import opened Requests

  // ---- which error is reported ----

  /** What packaging adds to the worth of an order. */
  function Charge(packaging: Packaging, membrana: bool): real {
    match packaging
    case Box => if membrana then 21.0 else 20.0
    case Bag => if membrana then 6.0 else 5.0
    case Membrana => 1.0
    case Other => if membrana then 21.0 else 20.0
  }

  predicate TooHeavy(packaging: Packaging, weight: real) {
    match packaging
    case Box => weight > 20.0
    case Bag => weight > 10.0
    case Membrana => false
    case Other => weight > 20.0
  }

  /** What the request finds wrong with its arguments and the row it reads. */
  function Refusal(s: Store, op: Op, check: Time): Option<Error> {
    match op
    case Receive(p, packaging, _) => if TooHeavy(packaging, p.weight) then Some(BadPackaging) else None
    case Deliver(id, recipientId) =>
      if id !in s.orders then Some(NotFound)
      else if s.orders[id].recipientId != recipientId then Some(NotFound)
      else if s.orders[id].status == Received then None
      else Some(NotReceived)
    case Refund(id, recipientId) =>
      if id !in s.orders then Some(NotFound)
      else if s.orders[id].recipientId != recipientId then Some(NotFound)
      else if s.orders[id].status != Delivered then Some(NotRefundable)
      else if s.orders[id].deliveredDate == None then Some(NilDate)
      else None
    case Return(id) =>
      if id !in s.orders then Some(NotFound)
      else if check <= s.orders[id].expirationDate then Some(NotExpired)
      else None
  }

  /** One of the statements after the decision fails. */
  predicate StatementFails(op: Op, f: Faults) {
    match op
    case Receive(_, _, _) => f.write || f.record || f.reread || f.task
    case Deliver(_, _) => f.write || f.record || f.task
    case Refund(_, _) => f.write || f.record || f.task
    case Return(_) => f.write
  }

  function Reported(s: Store, op: Op, env: Env): Option<Error> {
    if env.faults.begin || (!op.Receive? && env.faults.read) then Some(DatabaseFault)
    else if Refusal(s, op, env.check).Some? then Refusal(s, op, env.check)
    else if StatementFails(op, env.faults) then Some(DatabaseFault)
    else if env.reply.Refused? then Some(CommitRefused)
    else if env.reply.ReplyLost? then Some(CommitReplyLost)
    else if !env.cached.Acknowledged? then Some(CacheFault)
    else None
  }

  /** The error of every request, in the order the source finds it. */
  lemma WhichError(w: World, op: Op, env: Env)
    ensures Serve(w, op, env).1 == Reported(w.store, op, env)
  {
  }

  // ---- what is written ----

  /** The transaction took effect: the request succeeded, or only a reply was lost or the cache failed. */
  predicate Happened(error: Option<Error>) {
    error.None? || error == Some(CommitReplyLost) || error == Some(CacheFault)
  }

  /** `row` is stored as order `id` with record and task of a transition into `status`; nothing else changed. */
  predicate Written(s: Store, c: Counters, id: nat, row: OrderRow, status: Status, text: Text, env: Env, s': Store) {
    && s'.orders == s.orders[id := row]
    && s'.records == s.records + [RecordRow(c.records, id, Record(env.record, status, text))]
    && s'.outbox == s.outbox[c.tasks := TaskRow(Created, env.task, status, text, env.record)]
  }

  function AcceptedRow(p: OrderParams, packaging: Packaging, membrana: bool): OrderRow {
    OrderRow(p.recipientId, p.expirationDate, None, None, None, Received,
             p.weight, p.worth + Charge(packaging, membrana))
  }

  /** An accepted order is stored as it was handed in. */
  predicate Placed(s: Store, c: Counters, p: OrderParams, packaging: Packaging, membrana: bool, env: Env, s': Store) {
    Written(s, c, c.orders, AcceptedRow(p, packaging, membrana), Received, ReceivedText, env, s')
  }

  /** Order `id` was handed out, or its storage time was found to be over. */
  predicate HandedOut(s: Store, c: Counters, id: nat, env: Env, s': Store)
    requires id in s.orders
  {
    var row := s.orders[id];
    var expired := OrderRow(row.recipientId, row.expirationDate, row.deliveredDate, row.refundedDate,
                            row.returnedDate, Expired, row.weight, row.worth);
    var delivered := OrderRow(row.recipientId, row.expirationDate, Some(env.change), row.refundedDate,
                              row.returnedDate, Delivered, row.weight, row.worth);
    if env.check > row.expirationDate then Written(s, c, id, expired, Expired, ExpiredText, env, s')
    else Written(s, c, id, delivered, Delivered, DeliveredText, env, s')
  }

  predicate BroughtBack(s: Store, c: Counters, id: nat, env: Env, s': Store)
    requires id in s.orders
  {
    var row := s.orders[id];
    var refunded := OrderRow(row.recipientId, row.expirationDate, row.deliveredDate, Some(env.change),
                             row.returnedDate, Refunded, row.weight, row.worth);
    Written(s, c, id, refunded, Refunded, RefundedText, env, s')
  }

  /** Order `id` and its records are gone, the other orders have theirs, the outbox is as before. */
  ghost predicate TakenAway(s: Store, id: nat, s': Store) {
    && s'.orders == s.orders - {id}
    && (forall j :: HistoryOf(s'.records, j) == if j == id then [] else HistoryOf(s.records, j))
    && s'.outbox == s.outbox
  }

  /** What the sequences have lost: one order id for an acceptance, one record id and one task id for every
      transition, nothing for a return. */
  function Used(c: Counters, op: Op): Counters {
    match op
    case Receive(_, _, _) => Counters(c.orders + 1, c.records + 1, c.tasks + 1)
    case Deliver(_, _) => Counters(c.orders, c.records + 1, c.tasks + 1)
    case Refund(_, _) => Counters(c.orders, c.records + 1, c.tasks + 1)
    case Return(_) => c
  }

  /** A request that failed may have drawn some of these. */
  predicate Between(c: Counters, c': Counters, top: Counters) {
    c.orders <= c'.orders <= top.orders && c.records <= c'.records <= top.records && c.tasks <= c'.tasks <= top.tasks
  }

  ghost predicate Does(s: Store, c: Counters, op: Op, env: Env, s': Store) {
    match op
    case Receive(p, packaging, membrana) => Placed(s, c, p, packaging, membrana, env, s')
    case Deliver(id, _) => id in s.orders && HandedOut(s, c, id, env, s')
    case Refund(id, _) => id in s.orders && BroughtBack(s, c, id, env, s')
    case Return(id) => id in s.orders && TakenAway(s, id, s')
  }

  lemma RemovalTakes(s: Store, id: nat)
    ensures TakenAway(s, id, Apply(s, Drop(id)))
  {
    forall j: nat ensures HistoryOf(Without(s.records, id), j) == if j == id then [] else HistoryOf(s.records, j) {
      HistoryOfWithout(s.records, id, j);
    }
  }

  lemma TransactionDoes(s: Store, c: Counters, op: Op, env: Env)
    ensures var o := RunTx(s, c, op, env);
            if o.result.Done? || o.result.error == CommitReplyLost then Does(s, c, op, env, o.store) else o.store == s
  {
    if op.Return? { RemovalTakes(s, op.id); }
  }

  /** The same of a callback that succeeded, before its commit. */
  lemma CallbackDoes(s: Store, c: Counters, op: Op, env: Env)
    ensures var o := RunTx(s, c, op, env.(reply := Acknowledged)); o.result.Done? ==> Does(s, c, op, env, o.store)
  {
    TransactionDoes(s, c, op, env.(reply := Acknowledged));
  }

  /** The entry of the cache after the request: the stored row, or none for a return, if the cache was
      told; otherwise the cache is as it was. */
  predicate CacheTold(w: World, op: Op, env: Env, error: Option<Error>, w': World) {
    if (error.None? || error == Some(CacheFault)) && !env.cached.Refused? then
      if op.Return? then w'.cache == w.cache - {op.id}
      else
        var id := if op.Receive? then w.counters.orders else op.id;
        id in w'.store.orders && w'.cache == w.cache[id := OrderData(id, w'.store.orders[id], [])]
    else w'.cache == w.cache
  }

  /** Every request writes exactly these rows, records, tasks and entries if it took effect, and otherwise
      leaves tables and cache alone. */
  lemma EachDoes(w: World, op: Op, env: Env)
    ensures var (w', error) := Serve(w, op, env);
            && (if Happened(error) then Does(w.store, w.counters, op, env, w'.store) else w'.store == w.store)
            && (if Happened(error) then w'.counters == Used(w.counters, op)
                else Between(w.counters, w'.counters, Used(w.counters, op)))
            && CacheTold(w, op, env, error, w')
  {
    TransactionDoes(w.store, w.counters, op, env);
    WhichError(w, op, env);
  }

  // ---- what a query answers ----

  /** On a hit the cached value; otherwise the stored row, if the table can be read and the order is the
      caller's; only then is the cache filled. */
  predicate Answers(w: World, id: nat, recipientId: int, hitFault: bool, readFault: bool, fill: CallReply,
                    answer: Option<OrderData>, w': World) {
    && w'.store == w.store && w'.counters == w.counters
    && (!hitFault && id in w.cache ==> answer == Some(w.cache[id]) && w'.cache == w.cache)
    && (hitFault || id !in w.cache ==>
          && (answer.Some? <==> !readFault && id in w.store.orders && w.store.orders[id].recipientId == recipientId)
          && (answer.Some? ==> answer.value == OrderData(id, w.store.orders[id], []))
          && w'.cache == if answer.Some? && !fill.Refused? then w.cache[id := answer.value] else w.cache)
  }

  lemma QueryAnswers(w: World, id: nat, recipientId: int, hitFault: bool, readFault: bool, fill: CallReply)
    ensures var (w', answer) := Query(w, id, recipientId, hitFault, readFault, fill);
            Answers(w, id, recipientId, hitFault, readFault, fill, answer, w')
  {
  }
}
