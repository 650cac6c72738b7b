/** Whatever sequence of requests the service code serves, one after the other and with any failures,
    is a run of the interleaved model; so what holds after every run holds of the service code. */
module ServiceRuns {
  import opened Domain
  import opened Tables
  import opened Transactions
  import opened Lifecycle
  import opened Interleaving
  import opened Requests
  import opened Runs
  import opened Sequential
  import C = CacheRefinement
  import G = OrderGuarantees

  // ---- when the clock readings of a request are in order ----

  ghost predicate Punctual(w: World, now: Time, strict: bool, op: Op, env: Env) {
    Advancing(now, Taken(op, Seen(op, w.store), env), strict)
  }

  function Later(w: World, now: Time, op: Op, env: Env): Time {
    Latest(now, Taken(op, Seen(op, w.store), env))
  }

  ghost predicate BatchPunctual(w: World, now: Time, strict: bool, kind: Kind, ids: seq<nat>, recipientId: int,
                                envs: seq<Env>)
    requires |envs| == |ids|
    decreases |ids|
  {
    ids != [] ==>
      var op := OpFor(kind, ids[0], recipientId);
      && Punctual(w, now, strict, op, envs[0])
      && (Serve(w, op, envs[0]).1.None? ==>
            BatchPunctual(Serve(w, op, envs[0]).0, Later(w, now, op, envs[0]), strict, kind, ids[1..], recipientId,
                          envs[1..]))
  }

  function BatchLater(w: World, now: Time, kind: Kind, ids: seq<nat>, recipientId: int, envs: seq<Env>): Time
    requires |envs| == |ids|
    decreases |ids|
  {
    if ids == [] then now
    else
      var op := OpFor(kind, ids[0], recipientId);
      var later := Later(w, now, op, envs[0]);
      var (w', error) := Serve(w, op, envs[0]);
      if error.Some? then later else BatchLater(w', later, kind, ids[1..], recipientId, envs[1..])
  }

  predicate Wellformed(r: C.Request) {
    r.Hand? ==> |r.envs| == |r.ids|
  }

  ghost predicate RequestPunctual(w: World, now: Time, strict: bool, r: C.Request)
    requires Wellformed(r)
  {
    match r
    case Accept(params, packaging, membrana, env) => Punctual(w, now, strict, Receive(params, packaging, membrana), env)
    case GiveBack(id, env) => Punctual(w, now, strict, Return(id), env)
    case Hand(kind, ids, recipientId, envs) => BatchPunctual(w, now, strict, kind, ids, recipientId, envs)
    case Ask(_, _, _, _, _) => true
  }

  function RequestLater(w: World, now: Time, r: C.Request): Time
    requires Wellformed(r)
  {
    match r
    case Accept(params, packaging, membrana, env) => Later(w, now, Receive(params, packaging, membrana), env)
    case GiveBack(id, env) => Later(w, now, Return(id), env)
    case Hand(kind, ids, recipientId, envs) => BatchLater(w, now, kind, ids, recipientId, envs)
    case Ask(_, _, _, _, _) => now
  }

  ghost predicate AllPunctual(w: World, now: Time, strict: bool, rs: seq<C.Request>)
    requires forall i :: 0 <= i < |rs| ==> Wellformed(rs[i])
    decreases |rs|
  {
    rs != [] ==>
      && RequestPunctual(w, now, strict, rs[0])
      && AllPunctual(C.Handle(w, rs[0]).0, RequestLater(w, now, rs[0]), strict, rs[1..])
  }

  // ---- each is a run ----

  lemma Joins(s: State, a: seq<Action>, m: State, b: seq<Action>, w: World, now: Time, mid: World, then': Time)
    requires AfterFrom(s, a) == Some(m) && Became(s, mid, then', m)
    requires AfterFrom(m, b).Some? && Became(m, w, now, AfterFrom(m, b).value)
    ensures AfterFrom(s, a + b).Some? && Became(s, w, now, AfterFrom(s, a + b).value)
  {
    AppendFrom(s, a, b);
  }

  lemma ServeRuns(s: State, t: nat, op: Op, env: Env) returns (run: seq<Action>)
    requires t !in s.threads && Punctual(WorldOf(s), s.now, s.strict, op, env)
    ensures AfterFrom(s, run).Some?
    ensures Became(s, Serve(WorldOf(s), op, env).0, Later(WorldOf(s), s.now, op, env), AfterFrom(s, run).value)
  {
    ServedAlone(s, t, op, env);
    run := Script(t, op, Seen(op, s.store), env, s.counters);
  }

  lemma {:induction false} BatchRuns(s: State, t: nat, kind: Kind, ids: seq<nat>, recipientId: int, envs: seq<Env>)
    returns (run: seq<Action>)
    requires |envs| == |ids| && t !in s.threads
    requires BatchPunctual(WorldOf(s), s.now, s.strict, kind, ids, recipientId, envs)
    ensures AfterFrom(s, run).Some?
    ensures Became(s, Batch(WorldOf(s), kind, ids, recipientId, envs).0,
                   BatchLater(WorldOf(s), s.now, kind, ids, recipientId, envs), AfterFrom(s, run).value)
    decreases |ids|
  {
    run := [];
    if ids != [] {
      var op := OpFor(kind, ids[0], recipientId);
      run := ServeRuns(s, t, op, envs[0]);
      if Serve(WorldOf(s), op, envs[0]).1.None? {
        var m := AfterFrom(s, run).value;
        var rest := BatchRuns(m, t, kind, ids[1..], recipientId, envs[1..]);
        Joins(s, run, m, rest, Batch(WorldOf(s), kind, ids, recipientId, envs).0,
              BatchLater(WorldOf(s), s.now, kind, ids, recipientId, envs), WorldOf(m), m.now);
        run := run + rest;
      }
    }
  }

  lemma QueryEnds(s: State, m: State, t: nat, d: OrderData, fill: CallReply)
    requires t !in s.threads && m == s.(threads := s.threads[t := Fetched(d)])
    ensures var r := Next(m, if fill.Refused? then Abandon(t) else Fill(t));
            r.Some? && Became(s, WorldOf(s).(cache := if fill.Refused? then s.cache else s.cache[d.id := d]),
                              s.now, r.value)
  {
    assert m.threads - {t} == s.threads;
  }

  lemma QueryRuns(s: State, t: nat, id: nat, recipientId: int, hitFault: bool, readFault: bool, fill: CallReply)
    returns (run: seq<Action>)
    requires t !in s.threads
    ensures AfterFrom(s, run).Some?
    ensures Became(s, Query(WorldOf(s), id, recipientId, hitFault, readFault, fill).0, s.now, AfterFrom(s, run).value)
  {
    run := [];
    if (hitFault || id !in s.cache) && !readFault && id in s.store.orders
        && s.store.orders[id].recipientId == recipientId {
      var last := if fill.Refused? then Abandon(t) else Fill(t);
      Looks(s, t, id);
      var m := AfterFrom(s, Looking(t, id, recipientId)).value;
      OneMore(s, Looking(t, id, recipientId), last);
      QueryEnds(s, m, t, OrderData(id, s.store.orders[id], []), fill);
      run := Looking(t, id, recipientId) + [last];
    }
  }

  /** A table look-up of the interleaved model answers what the service's query answers when the cache does
      not: the order of its recipient, to its recipient only. */
  lemma FetchIsQuery(s: State, t: nat, id: nat, recipientId: int, fill: CallReply)
    requires t in s.threads && s.threads[t] == Querying(id, recipientId)
    ensures var answer := Query(WorldOf(s), id, recipientId, true, false, fill).1;
            && (Next(s, Fetch(t)).Some? <==> answer.Some?)
            && (answer.Some? ==> Next(s, Fetch(t)).value.threads[t] == Fetched(answer.value))
  {
  }

  lemma RequestRuns(s: State, t: nat, r: C.Request) returns (run: seq<Action>)
    requires Wellformed(r) && t !in s.threads && RequestPunctual(WorldOf(s), s.now, s.strict, r)
    ensures AfterFrom(s, run).Some?
    ensures Became(s, C.Handle(WorldOf(s), r).0, RequestLater(WorldOf(s), s.now, r), AfterFrom(s, run).value)
  {
    match r
    case Accept(params, packaging, membrana, env) => run := ServeRuns(s, t, Receive(params, packaging, membrana), env);
    case GiveBack(id, env) => run := ServeRuns(s, t, Return(id), env);
    case Hand(kind, ids, recipientId, envs) => run := BatchRuns(s, t, kind, ids, recipientId, envs);
    case Ask(id, recipientId, hitFault, readFault, fill) =>
      run := QueryRuns(s, t, id, recipientId, hitFault, readFault, fill);
  }

  lemma {:induction false} AllRun(s: State, t: nat, rs: seq<C.Request>) returns (run: seq<Action>)
    requires t !in s.threads && forall i :: 0 <= i < |rs| ==> Wellformed(rs[i])
    requires AllPunctual(WorldOf(s), s.now, s.strict, rs)
    ensures AfterFrom(s, run).Some?
    ensures WorldOf(AfterFrom(s, run).value) == C.RunAll(WorldOf(s), rs).0
              && AfterFrom(s, run).value.threads == s.threads
    decreases |rs|
  {
    run := [];
    if rs != [] {
      run := RequestRuns(s, t, rs[0]);
      var m := AfterFrom(s, run).value;
      var rest := AllRun(m, t, rs[1..]);
      AppendFrom(s, run, rest);
      run := run + rest;
    }
  }

  const EMPTY_WORLD := World(EMPTY_STORE, Counters(1, 1, 1), map[])

  /** From empty tables, any sequence of requests to the service code, with any failures, leaves tables,
      sequences and cache that a run of the interleaved model also reaches. */
  lemma ServiceIsRun(strict: bool, rs: seq<C.Request>) returns (run: seq<Action>)
    requires forall i :: 0 <= i < |rs| ==> Wellformed(rs[i])
    requires AllPunctual(EMPTY_WORLD, 0, strict, rs)
    ensures After(strict, run).Some? && WorldOf(After(strict, run).value) == C.RunAll(EMPTY_WORLD, rs).0
  {
    run := AllRun(Init(strict), 0, rs);
    assert After(strict, []) == Some(Init(strict));
    AfterExtends(strict, [], run);
    assert [] + run == run;
  }

  /** For example: whatever the service was asked and whatever failed, each stored order has lived one
      of the four lives, with its dates in order. */
  lemma ServiceKeepsLifecycle(strict: bool, rs: seq<C.Request>, id: nat)
    requires forall i :: 0 <= i < |rs| ==> Wellformed(rs[i])
    requires AllPunctual(EMPTY_WORLD, 0, strict, rs)
    requires id in C.RunAll(EMPTY_WORLD, rs).0.store.orders
    ensures var store := C.RunAll(EMPTY_WORLD, rs).0.store; var lived := Statuses(HistoryOf(store.records, id));
            && lived in {[Received], [Received, Delivered], [Received, Expired], [Received, Delivered, Refunded]}
            && lived[|lived| - 1] == store.orders[id].status
            && G.FieldsOk(store.orders[id], HistoryOf(store.records, id), strict)
  {
    var run := ServiceIsRun(strict, rs);
    var s := After(strict, run).value;
    G.LifecycleSafety(strict, run, s, id);
    G.FieldInvariants(strict, run, s, id);
  }
}
