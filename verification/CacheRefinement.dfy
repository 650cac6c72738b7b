/** When requests do not overlap: the cache agrees with the table, and a client that owns its orders
    cannot tell the service from one without a cache. */
module CacheRefinement {
  import opened Domain
  import opened Tables
  import opened Transactions
  import opened Requests

  /** Every cached entry is the current row of its order; no removed order is cached. */
  ghost predicate Coherent(w: World) {
    forall id :: id in w.cache ==> id in w.store.orders && w.cache[id] == OrderData(id, w.store.orders[id], [])
  }

  /** A request breaks the agreement exactly when its transaction takes effect, the cache is not told
      about it (the reply of the commit is lost, or the cache write is not applied) and an entry for
      the order was there. */
  lemma WhenStale(w: World, op: Op, env: Env)
    requires Coherent(w) && Ahead(w.store, w.counters)
    ensures Coherent(Serve(w, op, env).0)
            <==> !(TakesEffect(w.store, w.counters, op, env) && (env.reply.ReplyLost? || env.cached.Refused?)
                   && Target(op, InputsOf(env, w.counters)) in w.cache)
  {
  }

  // ---- whole request sequences ----

  datatype Request =
    | Accept(params: OrderParams, packaging: Packaging, membrana: bool, env: Env)
    | GiveBack(id: nat, env: Env)
    | Hand(kind: Kind, ids: seq<nat>, recipientId: int, envs: seq<Env>)
    | Ask(id: nat, recipientId: int, hitFault: bool, readFault: bool, fill: CallReply)

  datatype Reply = Status(error: Option<Error>) | Answer(data: Option<OrderData>)

  /** The service with its cache. */
  function Handle(w: World, r: Request): (World, Reply)
    requires r.Hand? ==> |r.envs| == |r.ids|
  {
    match r
    case Accept(params, packaging, membrana, env) =>
      var (w', error) := Serve(w, Receive(params, packaging, membrana), env); (w', Status(error))
    case GiveBack(id, env) => var (w', error) := Serve(w, Return(id), env); (w', Status(error))
    case Hand(kind, ids, recipientId, envs) =>
      var (w', error) := Batch(w, kind, ids, recipientId, envs); (w', Status(error))
    case Ask(id, recipientId, hitFault, readFault, fill) =>
      var (w', data) := Query(w, id, recipientId, hitFault, readFault, fill); (w', Answer(data))
  }

  /** The same service without a cache: nothing to write after a commit, queries go to the table. */
  datatype Plain = Plain(store: Store, counters: Counters)

  function ServePlain(p: Plain, op: Op, env: Env): (Plain, Option<Error>) {
    var o := RunTx(p.store, p.counters, op, env);
    (Plain(o.store, o.counters), if o.result.Failure? then Some(o.result.error) else None)
  }

  function BatchPlain(p: Plain, kind: Kind, ids: seq<nat>, recipientId: int, envs: seq<Env>): (Plain, Option<Error>)
    requires |envs| == |ids|
    decreases |ids|
  {
    if ids == [] then (p, None)
    else
      var (p', error) := ServePlain(p, OpFor(kind, ids[0], recipientId), envs[0]);
      if error.Some? then (p', error) else BatchPlain(p', kind, ids[1..], recipientId, envs[1..])
  }

  function HandlePlain(p: Plain, r: Request): (Plain, Reply)
    requires r.Hand? ==> |r.envs| == |r.ids|
  {
    match r
    case Accept(params, packaging, membrana, env) =>
      var (p', error) := ServePlain(p, Receive(params, packaging, membrana), env); (p', Status(error))
    case GiveBack(id, env) => var (p', error) := ServePlain(p, Return(id), env); (p', Status(error))
    case Hand(kind, ids, recipientId, envs) =>
      var (p', error) := BatchPlain(p, kind, ids, recipientId, envs); (p', Status(error))
    case Ask(id, recipientId, _, readFault, _) =>
      (p, Answer(if readFault || id !in p.store.orders || p.store.orders[id].recipientId != recipientId then None
                 else Some(OrderData(id, p.store.orders[id], []))))
  }

  /** After each commit the reply and the cache write arrive. */
  predicate Told(env: Env) {
    !env.reply.ReplyLost? && env.cached.Acknowledged?
  }

  /** The premises on one request: cache writes after commits succeed, and a query is made by the
      recipient of the order, if there is such an order, while the table can be read. */
  ghost predicate Fair(p: Plain, r: Request) {
    match r
    case Accept(_, _, _, env) => Told(env)
    case GiveBack(_, env) => Told(env)
    case Hand(_, ids, _, envs) => |envs| == |ids| && forall i :: 0 <= i < |envs| ==> Told(envs[i])
    case Ask(id, recipientId, _, readFault, _) =>
      !readFault && (id in p.store.orders ==> p.store.orders[id].recipientId == recipientId)
  }

  ghost predicate Matches(w: World, p: Plain) {
    w.store == p.store && w.counters == p.counters && Coherent(w) && Ahead(w.store, w.counters)
  }

  lemma ServeMatches(w: World, p: Plain, op: Op, env: Env)
    requires Matches(w, p) && Told(env)
    ensures var (w', e) := Serve(w, op, env); var (p', e') := ServePlain(p, op, env); Matches(w', p') && e == e'
  {
    WhenStale(w, op, env);
    RunTxAhead(w.store, w.counters, op, env);
  }

  lemma {:induction false} BatchMatches(w: World, p: Plain, kind: Kind, ids: seq<nat>, recipientId: int, envs: seq<Env>)
    requires Matches(w, p) && |envs| == |ids| && forall i :: 0 <= i < |envs| ==> Told(envs[i])
    ensures var (w', e) := Batch(w, kind, ids, recipientId, envs);
            var (p', e') := BatchPlain(p, kind, ids, recipientId, envs);
            Matches(w', p') && e == e'
    decreases |ids|
  {
    if ids != [] {
      var op := OpFor(kind, ids[0], recipientId);
      ServeMatches(w, p, op, envs[0]);
      var (w1, e1) := Serve(w, op, envs[0]);
      if e1.None? {
        BatchMatches(w1, ServePlain(p, op, envs[0]).0, kind, ids[1..], recipientId, envs[1..]);
      }
    }
  }

  lemma HandleMatches(w: World, p: Plain, r: Request)
    requires Matches(w, p) && Fair(p, r)
    ensures var (w', a) := Handle(w, r); var (p', a') := HandlePlain(p, r); Matches(w', p') && a == a'
  {
    match r
    case Accept(params, packaging, membrana, env) => ServeMatches(w, p, Receive(params, packaging, membrana), env);
    case GiveBack(id, env) => ServeMatches(w, p, Return(id), env);
    case Hand(kind, ids, recipientId, envs) => BatchMatches(w, p, kind, ids, recipientId, envs);
    case Ask(_, _, _, _, _) =>
  }

  function RunAll(w: World, rs: seq<Request>): (World, seq<Reply>)
    requires forall i :: 0 <= i < |rs| && rs[i].Hand? ==> |rs[i].envs| == |rs[i].ids|
    decreases |rs|
  {
    if rs == [] then (w, [])
    else
      var (w1, a) := Handle(w, rs[0]);
      var (w2, rest) := RunAll(w1, rs[1..]);
      (w2, [a] + rest)
  }

  function RunPlain(p: Plain, rs: seq<Request>): (Plain, seq<Reply>)
    requires forall i :: 0 <= i < |rs| && rs[i].Hand? ==> |rs[i].envs| == |rs[i].ids|
    decreases |rs|
  {
    if rs == [] then (p, [])
    else
      var (p1, a) := HandlePlain(p, rs[0]);
      var (p2, rest) := RunPlain(p1, rs[1..]);
      (p2, [a] + rest)
  }

  ghost predicate AllFair(p: Plain, rs: seq<Request>)
    decreases |rs|
  {
    rs != [] ==> Fair(p, rs[0]) && AllFair(HandlePlain(p, rs[0]).0, rs[1..])
  }

  /** Over any sequence of requests that do not overlap, the service with its cache gives the same
      answers and the same tables as one without, and its cache stays in agreement with the table. */
  lemma {:induction false} CacheIsInvisible(w: World, p: Plain, rs: seq<Request>)
    requires Matches(w, p) && AllFair(p, rs)
    requires forall i :: 0 <= i < |rs| && rs[i].Hand? ==> |rs[i].envs| == |rs[i].ids|
    ensures var (w', answers) := RunAll(w, rs); var (p', answers') := RunPlain(p, rs);
            answers == answers' && Matches(w', p')
    decreases |rs|
  {
    if rs != [] {
      HandleMatches(w, p, rs[0]);
      CacheIsInvisible(Handle(w, rs[0]).0, HandlePlain(p, rs[0]).0, rs[1..]);
    }
  }

  /** A query that misses the cache answers like the table, whoever asks. */
  lemma MissIsTable(w: World, id: nat, recipientId: int, hitFault: bool, readFault: bool, fill: CallReply)
    requires hitFault || id !in w.cache
    ensures Answer(Query(w, id, recipientId, hitFault, readFault, fill).1)
            == HandlePlain(Plain(w.store, w.counters), Ask(id, recipientId, hitFault, readFault, fill)).1
  {
  }

  /** A hit answers with the stored order whoever asks: the table lookup would also check the recipient. */
  lemma HitIgnoresRecipient(w: World, id: nat, recipientId: int, readFault: bool, fill: CallReply)
    requires Coherent(w) && id in w.cache
    ensures Query(w, id, recipientId, false, readFault, fill) == (w, Some(OrderData(id, w.store.orders[id], [])))
    ensures HandlePlain(Plain(w.store, w.counters), Ask(id, recipientId, false, readFault, fill)).1
              == Answer(Query(w, id, recipientId, false, readFault, fill).1)
            <==> !readFault && w.store.orders[id].recipientId == recipientId
  {
  }
}
