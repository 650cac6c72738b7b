/** The database connection, the repository, the outbox insert, the cache and the order service,
    in the source's imperative form. */
module Service {
  import opened Domain
  import opened Tables
  import opened Transactions
  import opened Requests
  import opened Behaviour
  import Pipeline
  import Delivery

  /** A context either carries the open transaction or does not. */
  datatype Context = Background | InTx

  /** The connection's state: committed tables, the open transaction's private copy, sequences. */
  datatype Conn = Conn(tables: Store, working: Option<Store>, counters: Counters) {
    predicate Usable(ctx: Context) {
      ctx.InTx? ==> working.Some?
    }

    /** GetQueryEngine: a context with a transaction reaches the transaction's private tables. */
    function View(ctx: Context): Store
      requires Usable(ctx)
    {
      if ctx.InTx? then working.value else tables
    }

    /** A statement under `ctx` changes only the tables `ctx` reaches. */
    function With(ctx: Context, s: Store): Conn {
      if ctx.InTx? then this.(working := Some(s)) else this.(tables := s)
    }

    function Drew(k: Sequence): Conn {
      this.(counters := counters.Bump(k))
    }
  }

  class Database {
    var tables: Store
    var working: Option<Store>
    var counters: Counters

    constructor ()
      ensures tables == EMPTY_STORE && working.None? && counters == Counters(1, 1, 1)
    {
      tables, working, counters := EMPTY_STORE, None, Counters(1, 1, 1);
    }

    function State(): Conn
      reads this
    {
      Conn(tables, working, counters)
    }

    function View(ctx: Context): Store
      requires State().Usable(ctx)
      reads this
    {
      if ctx.InTx? then working.value else tables
    }

    method Write(ctx: Context, s: Store)
      requires State().Usable(ctx)
      modifies this
      ensures State() == old(State()).With(ctx, s)
    {
      if ctx.InTx? { working := Some(s); } else { tables := s; }
    }

    method NextVal(k: Sequence) returns (id: nat)
      modifies this
      ensures id == old(counters).At(k) && State() == old(State()).Drew(k)
    {
      id := counters.At(k);
      counters := counters.Bump(k);
    }

    method BeginTx()
      modifies this`working
      ensures working == Some(tables)
    {
      working := Some(tables);
    }

    method Rollback()
      modifies this`working
      ensures working.None?
    {
      working := None;
    }

    method Commit(reply: CallReply) returns (error: Option<Error>)
      requires working.Some?
      modifies this`working, this`tables
      ensures working.None?
      ensures tables == if reply.Refused? then old(tables) else old(working).value
      ensures error == match reply
                       case Acknowledged => None
                       case Refused => Some(CommitRefused)
                       case ReplyLost => Some(CommitReplyLost)
    {
      if !reply.Refused? { tables := working.value; }
      working := None;
      error := match reply
               case Acknowledged => None
               case Refused => Some(CommitRefused)
               case ReplyLost => Some(CommitReplyLost);
    }
  }

  class OrderRepo {
    const db: Database

    constructor (db: Database)
      ensures this.db == db
    {
      this.db := db;
    }

    method Add(ctx: Context, order: Order, fault: bool) returns (id: nat, error: Option<Error>)
      requires db.State().Usable(ctx)
      modifies db
      ensures fault ==> error == Some(DatabaseFault) && db.State() == old(db.State())
      ensures !fault ==>
                var view := old(db.State()).View(ctx);
                && error.None? && id == old(db.counters).orders
                && db.State() == old(db.State()).Drew(OrderIds).With(ctx, view.(orders := view.orders[id :=
                     order.Row().(deliveredDate := None, refundedDate := None, returnedDate := None)]))
    {
      if fault { return 0, Some(DatabaseFault); }
      id := db.NextVal(OrderIds);
      var row := OrderRow(order.recipientId, order.expirationDate, None, None, None, order.status, order.weight,
                          order.worth);
      var view := db.View(ctx);
      db.Write(ctx, view.(orders := view.orders[id := row]));
      error := None;
    }

    /** The foreign key makes the insert fail for an order that is not there; the sequence value it drew
        by then is not given back. */
    method AddHistoryRecord(ctx: Context, record: Record, orderId: nat, fault: bool) returns (error: Option<Error>)
      requires db.State().Usable(ctx)
      modifies db
      ensures error == if fault || orderId !in old(db.State()).View(ctx).orders then Some(DatabaseFault) else None
      ensures fault ==> db.State() == old(db.State())
      ensures !fault && orderId !in old(db.State()).View(ctx).orders ==> db.State() == old(db.State()).Drew(RecordIds)
      ensures !fault && orderId in old(db.State()).View(ctx).orders ==>
                var view := old(db.State()).View(ctx);
                db.State() == old(db.State()).Drew(RecordIds).With(ctx,
                     view.(records := view.records + [RecordRow(old(db.counters).records, orderId, record)]))
    {
      var view := db.View(ctx);
      if fault { return Some(DatabaseFault); }
      var id := db.NextVal(RecordIds);
      if orderId !in view.orders { return Some(DatabaseFault); }
      db.Write(ctx, view.(records := view.records + [RecordRow(id, orderId, record)]));
      error := None;
    }

    method Delete(ctx: Context, orderId: nat, fault: bool) returns (error: Option<Error>)
      requires db.State().Usable(ctx)
      modifies db
      ensures error == if fault then Some(DatabaseFault)
                       else if orderId in old(db.State()).View(ctx).orders then None else Some(NotFound)
      ensures db.State() == if error.Some? then old(db.State())
                            else old(db.State()).With(ctx, Apply(old(db.State()).View(ctx), Drop(orderId)))
    {
      var view := db.View(ctx);
      if fault { return Some(DatabaseFault); }
      if orderId !in view.orders { return Some(NotFound); }
      db.Write(ctx, Store(view.orders - {orderId}, Without(view.records, orderId), view.outbox));
      error := None;
    }

    method Update(ctx: Context, order: Order, fault: bool) returns (error: Option<Error>)
      requires db.State().Usable(ctx)
      modifies db
      ensures error == if fault then Some(DatabaseFault)
                       else if order.id in old(db.State()).View(ctx).orders then None else Some(NotFound)
      ensures var view := old(db.State()).View(ctx);
              db.State() == if error.Some? then old(db.State())
                            else old(db.State()).With(ctx, view.(orders := view.orders[order.id := order.Row()]))
    {
      var view := db.View(ctx);
      if fault { return Some(DatabaseFault); }
      if order.id !in view.orders { return Some(NotFound); }
      db.Write(ctx, view.(orders := view.orders[order.id := order.Row()]));
      error := None;
    }

    method GetByID(ctx: Context, id: nat, fault: bool) returns (order: Order?, error: Option<Error>)
      requires db.State().Usable(ctx)
      ensures error == if fault then Some(DatabaseFault) else if id in db.View(ctx).orders then None else Some(NotFound)
      ensures error.None? ==>
                order != null && fresh(order) && order.Data() == OrderData(id, db.View(ctx).orders[id], [])
    {
      if fault { return null, Some(DatabaseFault); }
      if id !in db.View(ctx).orders { return null, Some(NotFound); }
      order := new Order.FromRow(id, db.View(ctx).orders[id]);
      error := None;
    }

    method GetRecipientOrderByID(ctx: Context, id: nat, recipientId: int, fault: bool)
      returns (order: Order?, error: Option<Error>)
      requires db.State().Usable(ctx)
      ensures error == if fault then Some(DatabaseFault)
                       else if id in db.View(ctx).orders && db.View(ctx).orders[id].recipientId == recipientId then None
                       else Some(NotFound)
      ensures error.None? ==>
                order != null && fresh(order) && order.Data() == OrderData(id, db.View(ctx).orders[id], [])
    {
      if fault { return null, Some(DatabaseFault); }
      if id !in db.View(ctx).orders || db.View(ctx).orders[id].recipientId != recipientId {
        return null, Some(NotFound);
      }
      order := new Order.FromRow(id, db.View(ctx).orders[id]);
      error := None;
    }
  }

  /** The fields of an outbox task that a picked task and the message made of it carry. */
  datatype Message = Message(id: nat, status: TaskStatus, createdAt: Time)

  function MessagesFor(rows: map<nat, TaskRow>, ids: seq<nat>): (batch: seq<Message>)
    requires forall id :: id in ids ==> id in rows
  {
    seq(|ids|, i requires 0 <= i < |ids| => Message(ids[i], Processing, rows[ids[i]].createdAt))
  }

  /** The statement of LockPending took effect on the rows `ids`. */
  ghost predicate Locked(before: Conn, after: Conn, ctx: Context, ids: seq<nat>)
    requires before.Usable(ctx)
    ensures Locked(before, after, ctx, ids) ==> forall id :: id in ids ==> id in before.View(ctx).outbox
  {
    var view := before.View(ctx);
    && Pipeline.IsPick(view.outbox, ids)
    && after == before.With(ctx, view.(outbox := Pipeline.WithStatus(view.outbox, ids, Processing)))
  }

  lemma {:induction false} OldestExists(rows: map<nat, TaskRow>, ids: set<nat>, id: nat)
    requires id in ids && forall j :: j in ids ==> j in rows
    ensures exists k :: k in ids && forall j :: j in ids ==> rows[k].createdAt <= rows[j].createdAt
    decreases rows[id].createdAt
  {
    if j :| j in ids && rows[j].createdAt < rows[id].createdAt {
      OldestExists(rows, ids, j);
    }
  }

  /** ORDER BY created_at LIMIT 100 over the created rows; ties are broken freely. */
  method PickOldest(rows: map<nat, TaskRow>) returns (ids: seq<nat>)
    ensures Pipeline.IsPick(rows, ids)
  {
    var left := set id | id in rows && rows[id].status == Created;
    ids := [];
    while |ids| < Pipeline.BATCH_LIMIT && left != {}
      invariant |ids| <= Pipeline.BATCH_LIMIT && Pipeline.NoDup(ids)
      invariant forall id :: Pipeline.IsCreated(rows, id) <==> id in ids || id in left
      invariant forall id :: id in ids ==> id !in left
      invariant forall id, j :: id in ids && j in left ==> rows[id].createdAt <= rows[j].createdAt
      decreases left
    {
      var x :| x in left;
      OldestExists(rows, left, x);
      var id :| id in left && forall j :: j in left ==> rows[id].createdAt <= rows[j].createdAt;
      ids := ids + [id];
      left := left - {id};
    }
  }

  /** Each message carries the id and creation time of a row that was created and is now processing. */
  ghost predicate Carries(batch: seq<Message>, was: map<nat, TaskRow>, rows: map<nat, TaskRow>) {
    forall i :: 0 <= i < |batch| ==>
      var m := batch[i];
      && m.id in was && was[m.id].status == Created && m.id in rows && rows[m.id].status == Processing
      && m.status == Processing && m.createdAt == was[m.id].createdAt == rows[m.id].createdAt
  }

  class OrderOutbox {
    const db: Database

    constructor (db: Database)
      ensures this.db == db
    {
      this.db := db;
    }

    method AddTask(ctx: Context, task: TaskRow, fault: bool) returns (error: Option<Error>)
      requires db.State().Usable(ctx)
      modifies db
      ensures fault ==> error == Some(DatabaseFault) && db.State() == old(db.State())
      ensures !fault ==>
                var view := old(db.State()).View(ctx);
                && error.None?
                && db.State() == old(db.State()).Drew(TaskIds).With(ctx,
                     view.(outbox := view.outbox[old(db.counters).tasks := task]))
    {
      if fault { return Some(DatabaseFault); }
      var id := db.NextVal(TaskIds);
      var view := db.View(ctx);
      db.Write(ctx, view.(outbox := view.outbox[id := task]));
      error := None;
    }

    /** One statement picks the oldest created rows and moves them to `processing`.  RETURNING gives
        id, status and created_at only, so a message carries nothing else.  `lost`: the statement
        took effect but its answer did not arrive. */
    method LockPending(ctx: Context, fault: bool, lost: bool) returns (batch: seq<Message>, error: Option<Error>)
      requires db.State().Usable(ctx)
      modifies db
      ensures error.Some? <==> fault || lost
      ensures fault ==> db.State() == old(db.State())
      ensures !fault ==>
                exists ids ::
                  && Locked(old(db.State()), db.State(), ctx, ids)
                  && (error.None? ==> batch == MessagesFor(old(db.State()).View(ctx).outbox, ids))
      ensures error.None? ==>
                var created := Delivery.CreatedRows(old(db.State()).View(ctx).outbox);
                |batch| == if |created| < 100 then |created| else 100
      ensures error.None? ==> Carries(batch, old(db.State()).View(ctx).outbox, db.View(ctx).outbox)
    {
      if fault { return [], Some(DatabaseFault); }
      var view := db.View(ctx);
      var ids := PickOldest(view.outbox);
      Delivery.PickSize(view.outbox, ids);
      db.Write(ctx, view.(outbox := Pipeline.WithStatus(view.outbox, ids, Processing)));
      assert Locked(old(db.State()), db.State(), ctx, ids);
      if lost { return [], Some(DatabaseFault); }
      return MessagesFor(view.outbox, ids), None;
    }

    method MarkTaskAsFailed(ctx: Context, id: nat, fault: bool) returns (error: Option<Error>)
      requires db.State().Usable(ctx)
      modifies db
      ensures error == if fault then Some(DatabaseFault) else None
      ensures var view := old(db.State()).View(ctx);
              db.State() == if fault then old(db.State())
                            else old(db.State()).With(ctx, view.(outbox :=
                                   Pipeline.WithStatus(view.outbox, [id], Failed)))
    {
      if fault { return Some(DatabaseFault); }
      var view := db.View(ctx);
      var outbox := map k | k in view.outbox :: if k == id then view.outbox[k].(status := Failed) else view.outbox[k];
      assert outbox == Pipeline.WithStatus(view.outbox, [id], Failed);
      db.Write(ctx, view.(outbox := outbox));
      error := None;
    }

    method DeleteTask(ctx: Context, id: nat, fault: bool) returns (error: Option<Error>)
      requires db.State().Usable(ctx)
      modifies db
      ensures error == if fault then Some(DatabaseFault) else None
      ensures var view := old(db.State()).View(ctx);
              db.State() == if fault then old(db.State())
                            else old(db.State()).With(ctx, view.(outbox := view.outbox - {id}))
    {
      if fault { return Some(DatabaseFault); }
      var view := db.View(ctx);
      db.Write(ctx, view.(outbox := view.outbox - {id}));
      error := None;
    }
  }

  /** The keyed store behind the cache; every call can fail, a write also after it was applied. */
  class Cache {
    var entries: map<nat, OrderData>

    constructor ()
      ensures entries == map[]
    {
      entries := map[];
    }

    method GetOrder(id: nat, fault: bool) returns (data: Option<OrderData>)
      ensures data == if !fault && id in entries then Some(entries[id]) else None
    {
      data := if !fault && id in entries then Some(entries[id]) else None;
    }

    method SetOrder(data: OrderData, reply: CallReply) returns (ok: bool)
      modifies this
      ensures ok == reply.Acknowledged?
      ensures entries == if reply.Refused? then old(entries) else Cached(old(entries), CacheWrite.SetOrder(data))
    {
      if !reply.Refused? { entries := entries[data.id := data]; }
      ok := reply.Acknowledged?;
    }

    method DeleteOrder(id: nat, reply: CallReply) returns (ok: bool)
      modifies this
      ensures ok == reply.Acknowledged?
      ensures entries == if reply.Refused? then old(entries) else Cached(old(entries), CacheWrite.DeleteOrder(id))
    {
      if !reply.Refused? { entries := entries - {id}; }
      ok := reply.Acknowledged?;
    }
  }

  class PvzService {
    const db: Database
    const storage: OrderRepo
    const outbox: OrderOutbox
    const cache: Cache

    constructor (db: Database, storage: OrderRepo, outbox: OrderOutbox, cache: Cache)
      requires storage.db == db && outbox.db == db
      ensures this.db == db && this.storage == storage && this.outbox == outbox && this.cache == cache && Wired()
    {
      this.db, this.storage, this.outbox, this.cache := db, storage, outbox, cache;
    }

    /** Storage and outbox share the transaction manager's database. */
    predicate Wired() {
      storage.db == db && outbox.db == db
    }

    function World(): World
      reads db, cache
    {
      Requests.World(db.tables, db.counters, cache.entries)
    }

    /** Between requests: no transaction is open. */
    ghost predicate Ready()
      reads db
    {
      Wired() && db.working.None? && Ahead(db.tables, db.counters)
    }

    /** What a callback of operation `op` must have done from connection state `k`: its answer, the
        sequences and, if it succeeded, the tables of the transaction are those of the specification. */
    ghost predicate Carried(k: Conn, op: Op, env: Env, result: Result)
      requires k.Usable(InTx)
      reads db
    {
      var o := RunTx(k.View(InTx), k.counters, op, env.(reply := Acknowledged));
      && result == o.result && db.tables == k.tables && db.counters == o.counters && db.working.Some?
      && (result.Done? ==> db.working.value == o.store)
    }

    /** The transaction's tables are those the operation leaves, and the committed tables are untouched. */
    ghost predicate Performed(k: Conn, op: Op, env: Env)
      requires k.Usable(InTx)
      reads db
    {
      db.working.Some? && Does(k.View(InTx), k.counters, op, env, db.working.value) && db.tables == k.tables
    }

    /** The answer of a callback: its error, or the order the cache will be given. */
    function Answer(order: Order?, error: Option<Error>): Result
      requires error.None? ==> order != null
      reads order
    {
      if error.Some? then Failure(error.value) else Done(CacheWrite.SetOrder(order.Data()))
    }

    method ProcessOrderReceive(params: OrderParams, packaging: Packaging, membrana: bool, env: Env)
      returns (order: Order?, error: Option<Error>)
      requires Wired() && db.State().Usable(InTx) && !env.faults.begin
      requires db.counters.orders !in db.State().View(InTx).orders
      modifies db
      ensures error.None? ==> order != null
      ensures Carried(old(db.State()), Receive(params, packaging, membrana), env, Answer(order, error))
      ensures error.None? ==> Performed(old(db.State()), Receive(params, packaging, membrana), env)
    {
      CallbackDoes(db.View(InTx), db.counters, Receive(params, packaging, membrana), env);
      var newOrder := new Order.New(params);
      var ok := newOrder.ApplyPackaging(packaging, membrana);
      if !ok { return null, Some(BadPackaging); }
      newOrder.Receive();
      var id;
      id, error := storage.Add(InTx, newOrder, env.faults.write);
      if error.Some? { return null, error; }
      var record := NewRecord(Received, env.record);
      error := storage.AddHistoryRecord(InTx, record, id, env.faults.record);
      if error.Some? { return null, error; }
      order, error := storage.GetByID(InTx, id, env.faults.reread);
      if error.Some? { return null, error; }
      error := outbox.AddTask(InTx, TaskRow(Created, env.task, record.status, record.description, record.timestamp),
                              env.faults.task);
      if error.Some? { order := null; }
    }

    method ProcessOrderRefund(id: nat, recipientId: int, env: Env) returns (order: Order?, error: Option<Error>)
      requires Wired() && db.State().Usable(InTx) && !env.faults.begin
      modifies db
      ensures error.None? ==> order != null
      ensures Carried(old(db.State()), Refund(id, recipientId), env, Answer(order, error))
      ensures error.None? ==> Performed(old(db.State()), Refund(id, recipientId), env)
    {
      CallbackDoes(db.View(InTx), db.counters, Refund(id, recipientId), env);
      order, error := storage.GetRecipientOrderByID(InTx, id, recipientId, env.faults.read);
      if error.Some? { return null, error; }
      if order.IsDelivered() && order.deliveredDate.None? { return null, Some(NilDate); }
      if !order.CanBeRefunded() { return null, Some(NotRefundable); }
      order.Refund(env.change);
      var record := NewRecord(Refunded, env.record);
      error := storage.AddHistoryRecord(InTx, record, order.id, env.faults.record);
      if error.Some? { return null, error; }
      error := storage.Update(InTx, order, env.faults.write);
      if error.Some? { return null, error; }
      error := outbox.AddTask(InTx, TaskRow(Created, env.task, record.status, record.description, record.timestamp),
                              env.faults.task);
      if error.Some? { order := null; }
    }

    method ProcessOrderDeliver(id: nat, recipientId: int, env: Env) returns (order: Order?, error: Option<Error>)
      requires Wired() && db.State().Usable(InTx) && !env.faults.begin
      modifies db
      ensures error.None? ==> order != null
      ensures Carried(old(db.State()), Deliver(id, recipientId), env, Answer(order, error))
      ensures error.None? ==> Performed(old(db.State()), Deliver(id, recipientId), env)
    {
      CallbackDoes(db.View(InTx), db.counters, Deliver(id, recipientId), env);
      order, error := storage.GetRecipientOrderByID(InTx, id, recipientId, env.faults.read);
      if error.Some? { return null, error; }
      if !order.IsReceived() { return null, Some(NotReceived); }
      if order.IsExpired(env.check) {
        order.Expire();
        error := storage.Update(InTx, order, env.faults.write);
        if error.Some? { return null, error; }
        var expired := NewRecord(Expired, env.record);
        error := storage.AddHistoryRecord(InTx, expired, order.id, env.faults.record);
        if error.Some? { return null, error; }
        error := outbox.AddTask(InTx,
                                TaskRow(Created, env.task, expired.status, expired.description, expired.timestamp),
                                env.faults.task);
        if error.Some? { order := null; }
        return;
      }
      order.Deliver(env.change);
      error := storage.Update(InTx, order, env.faults.write);
      if error.Some? { return null, error; }
      var record := NewRecord(Delivered, env.record);
      error := storage.AddHistoryRecord(InTx, record, order.id, env.faults.record);
      if error.Some? { return null, error; }
      error := outbox.AddTask(InTx, TaskRow(Created, env.task, record.status, record.description, record.timestamp),
                              env.faults.task);
      if error.Some? { order := null; }
    }

    /** The callback of ReturnToCourier. */
    method ProcessOrderReturn(id: nat, env: Env) returns (error: Option<Error>)
      requires Wired() && db.State().Usable(InTx) && !env.faults.begin
      modifies db
      ensures Carried(old(db.State()), Return(id), env,
                      if error.Some? then Failure(error.value) else Done(CacheWrite.DeleteOrder(id)))
      ensures error.None? ==> Performed(old(db.State()), Return(id), env)
    {
      CallbackDoes(db.View(InTx), db.counters, Return(id), env);
      var order;
      order, error := storage.GetByID(InTx, id, env.faults.read);
      if error.Some? { return; }
      if !order.IsExpired(env.check) { return Some(NotExpired); }
      error := storage.Delete(InTx, id, env.faults.write);
    }

    /** The transaction manager's beginFunc with the callback of `op`: begin, run it, commit if it
        succeeded and roll back if it did not. */
    method BeginFunc(op: Op, env: Env) returns (result: Result)
      requires Wired() && db.working.None? && Ahead(db.tables, db.counters)
      modifies db
      ensures db.working.None? && Ahead(db.tables, db.counters)
      ensures Outcome(db.tables, db.counters, result) == RunTx(old(db.tables), old(db.counters), op, env)
    {
      RunTxAhead(db.tables, db.counters, op, env);
      if env.faults.begin { return Failure(DatabaseFault); }
      db.BeginTx();
      var order, error := null, None;
      match op {
        case Receive(params, packaging, membrana) =>
          order, error := ProcessOrderReceive(params, packaging, membrana, env);
        case Deliver(id, recipientId) => order, error := ProcessOrderDeliver(id, recipientId, env);
        case Refund(id, recipientId) => order, error := ProcessOrderRefund(id, recipientId, env);
        case Return(id) => error := ProcessOrderReturn(id, env);
      }
      if error.Some? {
        db.Rollback();
        return Failure(error.value);
      }
      result := Done(if op.Return? then CacheWrite.DeleteOrder(op.id) else CacheWrite.SetOrder(order.Data()));
      error := db.Commit(env.reply);
      if error.Some? { result := Failure(error.value); }
    }

    method AcceptFromCourier(params: OrderParams, packaging: Packaging, membrana: bool, env: Env)
      returns (orderId: Option<nat>, error: Option<Error>)
      requires Ready()
      modifies db, cache
      ensures Ready() && (World(), error) == Serve(old(World()), Receive(params, packaging, membrana), env)
      ensures error == Reported(old(db.tables), Receive(params, packaging, membrana), env)
      ensures if Happened(error)
              then Placed(old(db.tables), old(db.counters), params, packaging, membrana, env, db.tables)
              else db.tables == old(db.tables)
      ensures CacheTold(old(World()), Receive(params, packaging, membrana), env, error, World())
      ensures orderId == if error.None? then Some(old(db.counters).orders) else None
    {
      EachDoes(World(), Receive(params, packaging, membrana), env);
      WhichError(World(), Receive(params, packaging, membrana), env);
      orderId := None;
      var result := BeginFunc(Receive(params, packaging, membrana), env);
      if result.Failure? { return None, Some(result.error); }
      var ok := cache.SetOrder(result.write.data, env.cached);
      if !ok { return None, Some(CacheFault); }
      return Some(result.write.data.id), None;
    }

    method ReturnToCourier(id: nat, env: Env) returns (error: Option<Error>)
      requires Ready()
      modifies db, cache
      ensures Ready() && (World(), error) == Serve(old(World()), Return(id), env)
      ensures error == Reported(old(db.tables), Return(id), env)
      ensures if Happened(error) then id in old(db.tables).orders && TakenAway(old(db.tables), id, db.tables)
              else db.tables == old(db.tables)
      ensures CacheTold(old(World()), Return(id), env, error, World())
    {
      EachDoes(World(), Return(id), env);
      WhichError(World(), Return(id), env);
      var result := BeginFunc(Return(id), env);
      if result.Failure? { return Some(result.error); }
      var ok := cache.DeleteOrder(id, env.cached);
      error := if ok then None else Some(CacheFault);
    }

    method DeliverOrders(ids: seq<nat>, recipientId: int, envs: seq<Env>) returns (error: Option<Error>)
      requires Ready() && |envs| == |ids|
      modifies db, cache
      ensures Ready() && (World(), error) == Batch(old(World()), Delivering, ids, recipientId, envs)
    {
      var i := 0;
      while i < |ids|
        invariant 0 <= i <= |ids| && Ready()
        invariant Batch(old(World()), Delivering, ids, recipientId, envs)
                  == Batch(World(), Delivering, ids[i..], recipientId, envs[i..])
      {
        assert ids[i..][1..] == ids[i + 1..] && envs[i..][1..] == envs[i + 1..];
        var result := BeginFunc(Deliver(ids[i], recipientId), envs[i]);
        if result.Failure? { return Some(result.error); }
        var ok := cache.SetOrder(result.write.data, envs[i].cached);
        if !ok { return Some(CacheFault); }
        i := i + 1;
      }
      error := None;
    }

    method RefundOrders(ids: seq<nat>, recipientId: int, envs: seq<Env>) returns (error: Option<Error>)
      requires Ready() && |envs| == |ids|
      modifies db, cache
      ensures Ready() && (World(), error) == Batch(old(World()), Refunding, ids, recipientId, envs)
    {
      var i := 0;
      while i < |ids|
        invariant 0 <= i <= |ids| && Ready()
        invariant Batch(old(World()), Refunding, ids, recipientId, envs)
                  == Batch(World(), Refunding, ids[i..], recipientId, envs[i..])
      {
        assert ids[i..][1..] == ids[i + 1..] && envs[i..][1..] == envs[i + 1..];
        var result := BeginFunc(Refund(ids[i], recipientId), envs[i]);
        if result.Failure? { return Some(result.error); }
        var ok := cache.SetOrder(result.write.data, envs[i].cached);
        if !ok { return Some(CacheFault); }
        i := i + 1;
      }
      error := None;
    }

    method ServeRecipient(ids: seq<nat>, recipientId: int, action: string, envs: seq<Env>)
      returns (error: Option<Error>)
      requires Ready() && |envs| == |ids|
      modifies db, cache
      ensures Ready()
      ensures action == "deliver" ==> (World(), error) == Batch(old(World()), Delivering, ids, recipientId, envs)
      ensures action == "refund" ==> (World(), error) == Batch(old(World()), Refunding, ids, recipientId, envs)
      ensures action !in {"deliver", "refund"} ==> World() == old(World()) && error == Some(UnknownAction)
    {
      if action == "deliver" {
        error := DeliverOrders(ids, recipientId, envs);
      } else if action == "refund" {
        error := RefundOrders(ids, recipientId, envs);
      } else {
        error := Some(UnknownAction);
      }
    }

    /** A failing cache read falls through to the table, a failing cache write is only logged. */
    method GetOrderByID(id: nat, recipientId: int, hitFault: bool, readFault: bool, fill: CallReply)
      returns (data: Option<OrderData>)
      requires Ready()
      modifies cache
      ensures Ready() && (World(), data) == Query(old(World()), id, recipientId, hitFault, readFault, fill)
      ensures Answers(old(World()), id, recipientId, hitFault, readFault, fill, data, World())
    {
      QueryAnswers(World(), id, recipientId, hitFault, readFault, fill);
      data := cache.GetOrder(id, hitFault);
      if data.Some? { return; }
      var order, error := storage.GetRecipientOrderByID(Background, id, recipientId, readFault);
      if error.Some? { return None; }
      var _ := cache.SetOrder(order.Data(), fill);
      data := Some(order.Data());
    }
  }
}
