/** One request of the service at a time, as a function of the tables, the sequences, the cache and
    an environment that chooses clock readings and which call fails. */
module Requests {
  import opened Domain
  import opened Tables
  import opened Transactions

  /** Which database calls of a transaction fail if they are reached. */
  datatype Faults = Faults(begin: bool, read: bool, write: bool, record: bool, reread: bool, task: bool)

  /** How a commit or a write to the cache ends; `ReplyLost`: it took effect but the client got an error. */
  datatype CallReply = Acknowledged | Refused | ReplyLost

  datatype Env = Env(check: Time, change: Time, record: Time, task: Time,
                     faults: Faults, reply: CallReply, cached: CallReply)

  datatype World = World(store: Store, counters: Counters, cache: map<nat, OrderData>)

  datatype Result = Done(write: CacheWrite) | Failure(error: Error)

  datatype Outcome = Outcome(store: Store, counters: Counters, result: Result)

  function InputsOf(env: Env, c: Counters): Inputs {
    Inputs(env.check, env.change, env.record, env.task, c.orders, c.records, c.tasks)
  }

  /** A statement after the decision fails. */
  predicate Faulty(op: Op, f: Faults) {
    f.write || (!op.Return? && (f.record || f.task)) || (op.Receive? && f.reread)
  }

  /** nextval is not rolled back: every insert that was executed, in the program order of the
      transaction, has used up a value. */
  function Drawn(c: Counters, op: Op, f: Faults): Counters {
    match op
    case Receive(_, _, _) =>
      if f.write then c
      else Counters(c.orders + 1, c.records + (if f.record then 0 else 1),
                    c.tasks + (if f.record || f.reread || f.task then 0 else 1))
    case Deliver(_, _) =>
      Counters(c.orders, c.records + (if f.write || f.record then 0 else 1),
               c.tasks + (if f.write || f.record || f.task then 0 else 1))
    case Refund(_, _) =>
      Counters(c.orders, c.records + (if f.record then 0 else 1),
               c.tasks + (if f.record || f.write || f.task then 0 else 1))
    case Return(_) => c
  }

  function RunTx(store: Store, c: Counters, op: Op, env: Env): Outcome {
    if env.faults.begin || (env.faults.read && !op.Receive?)
    then Outcome(store, c, Failure(DatabaseFault))
    else
      match Decide(op, Seen(op, store), InputsOf(env, c))
      case Reject(error) => Outcome(store, c, Failure(error))
      case Commit(e) =>
        var c' := Drawn(c, op, env.faults);
        if Faulty(op, env.faults) then Outcome(store, c', Failure(DatabaseFault))
        else match env.reply
             case Acknowledged => Outcome(Apply(store, e), c', Done(WriteFor(e)))
             case Refused => Outcome(store, c', Failure(CommitRefused))
             case ReplyLost => Outcome(Apply(store, e), c', Failure(CommitReplyLost))
  }

  /** A transaction followed, if it reported success, by the cache write. */
  function Serve(w: World, op: Op, env: Env): (World, Option<Error>) {
    var o := RunTx(w.store, w.counters, op, env);
    match o.result
    case Failure(error) => (World(o.store, o.counters, w.cache), Some(error))
    case Done(write) =>
      (World(o.store, o.counters, if env.cached.Refused? then w.cache else Cached(w.cache, write)),
       if env.cached.Acknowledged? then None else Some(CacheFault))
  }

  datatype Kind = Delivering | Refunding

  function OpFor(kind: Kind, id: nat, recipientId: int): Op {
    match kind case Delivering => Deliver(id, recipientId) case Refunding => Refund(id, recipientId)
  }

  /** DeliverOrders and RefundOrders: one transaction per id, stopping at the first error. */
  function Batch(w: World, kind: Kind, ids: seq<nat>, recipientId: int, envs: seq<Env>): (World, Option<Error>)
    requires |envs| == |ids|
    decreases |ids|
  {
    if ids == [] then (w, None)
    else
      var (w', error) := Serve(w, OpFor(kind, ids[0], recipientId), envs[0]);
      if error.Some? then (w', error) else Batch(w', kind, ids[1..], recipientId, envs[1..])
  }

  /** GetOrderByID: `hitFault` is a cache error on read, `readFault` a failing table read and
      `fill` how the cache write after it ends. */
  function Query(w: World, id: nat, recipientId: int, hitFault: bool, readFault: bool, fill: CallReply)
    : (World, Option<OrderData>)
  {
    if !hitFault && id in w.cache then (w, Some(w.cache[id]))
    else if readFault || id !in w.store.orders || w.store.orders[id].recipientId != recipientId then (w, None)
    else
      var data := OrderData(id, w.store.orders[id], []);
      ((if fill.Refused? then w else w.(cache := w.cache[id := data])), Some(data))
  }

  /** Every key in the tables was drawn from its sequence, so a fresh value is a fresh key. */
  ghost predicate Ahead(s: Store, c: Counters) {
    && (forall id :: id in s.orders ==> id < c.orders)
    && (forall r :: r in s.records ==> r.id < c.records)
    && (forall id :: id in s.outbox ==> id < c.tasks)
  }

  lemma {:induction false} WithoutSubset(records: seq<RecordRow>, id: nat)
    ensures forall r :: r in Without(records, id) ==> r in records
  {
    if records != [] { WithoutSubset(records[..|records| - 1], id); }
  }

  lemma RunTxAhead(store: Store, c: Counters, op: Op, env: Env)
    requires Ahead(store, c)
    ensures var o := RunTx(store, c, op, env); Ahead(o.store, o.counters)
  {
    if op.Return? { WithoutSubset(store.records, op.id); }
  }

  /** No call that is reached fails and the database accepts the commit. */
  predicate TakesEffect(store: Store, c: Counters, op: Op, env: Env) {
    && Decide(op, Seen(op, store), InputsOf(env, c)).Commit?
    && !env.faults.begin && (env.faults.read ==> op.Receive?) && !Faulty(op, env.faults) && !env.reply.Refused?
  }

  /** A transaction that meets a failing call, a rejected commit or a callback error leaves the
      committed tables alone and reports an error; otherwise all its writes appear together. */
  lemma AllOrNothing(store: Store, c: Counters, op: Op, env: Env)
    requires Ahead(store, c)
    ensures var o := RunTx(store, c, op, env); var d := Decide(op, Seen(op, store), InputsOf(env, c));
            && (TakesEffect(store, c, op, env) ==> o.store == Apply(store, d.effect))
            && (!TakesEffect(store, c, op, env) ==> o.store == store && o.result.Failure?)
            && (!op.Return? ==>
                  && (Lookup(o.store, Target(op, InputsOf(env, c))) != Lookup(store, Target(op, InputsOf(env, c)))
                      <==> |o.store.records| == |store.records| + 1)
                  && (|o.store.records| == |store.records| + 1 <==> c.tasks in o.store.outbox))
            && (op.Return? ==> o.store.outbox == store.outbox)
  {
  }
}
