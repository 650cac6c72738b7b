/** The requests proved of the service code are runs of the interleaved model: a request that runs
    alone and succeeds takes the model to the same tables, sequences and cache. */
module Sequential {
  import opened Domain
  import opened Transactions
  import opened Lifecycle
  import opened Interleaving
  import opened Requests
  import opened Runs

  // ---- what a request reads and draws before it ends ----

  /** The clock readings made, in program order, up to the call that fails if one does. */
  function Taken(op: Op, seen: Option<OrderRow>, env: Env): seq<Time> {
    var f := env.faults;
    match op
    case Receive(p, packaging, membrana) =>
      if f.begin || Package(packaging, membrana, p.weight, p.worth).None? || f.write then []
      else if f.record || f.reread then [env.record]
      else [env.record, env.task]
    case Deliver(_, recipientId) =>
      if f.begin || f.read || seen.None? || seen.value.recipientId != recipientId
         || seen.value.status != Received then []
      else
        [env.check] + (if seen.value.expirationDate < env.check then [] else [env.change])
        + if f.write then [] else if f.record then [env.record] else [env.record, env.task]
    case Refund(_, recipientId) =>
      if f.begin || f.read || seen.None? || seen.value.recipientId != recipientId
         || seen.value.status != Delivered || seen.value.deliveredDate.None? then []
      else if f.record || f.write then [env.change, env.record]
      else [env.change, env.record, env.task]
    case Return(_) => if f.begin || f.read || seen.None? then [] else [env.check]
  }

  /** The sequences a transaction draws from once it has decided to write. */
  function Drew(op: Op, f: Faults): seq<Sequence> {
    match op
    case Receive(_, _, _) =>
      if f.write then [] else if f.record then [OrderIds]
      else if f.reread || f.task then [OrderIds, RecordIds] else [OrderIds, RecordIds, TaskIds]
    case Deliver(_, _) => if f.write || f.record then [] else if f.task then [RecordIds] else [RecordIds, TaskIds]
    case Refund(_, _) => if f.record then [] else if f.write || f.task then [RecordIds] else [RecordIds, TaskIds]
    case Return(_) => []
  }

  /** The transaction begins, reads its row and decides to write. */
  predicate Decides(op: Op, seen: Option<OrderRow>, env: Env, c: Counters) {
    !env.faults.begin && (env.faults.read ==> op.Receive?) && Decide(op, seen, InputsOf(env, c)).Commit?
  }

  function Reads(t: nat, times: seq<Time>): seq<Action> {
    if times == [] then [] else Reads(t, times[..|times| - 1]) + [ReadClock(t, times[|times| - 1])]
  }

  function Allocations(t: nat, ks: seq<Sequence>): seq<Action> {
    if ks == [] then [] else Allocations(t, ks[..|ks| - 1]) + [Allocate(t, ks[|ks| - 1])]
  }

  /** How the request ends: rolled back, committed without a reply, committed without a cache write, or
      committed and cached. */
  function Ending(t: nat, op: Op, seen: Option<OrderRow>, env: Env, c: Counters): seq<Action> {
    if !Decides(op, seen, env, c) || Faulty(op, env.faults) || env.reply.Refused? then [Abandon(t)]
    else if env.reply.ReplyLost? then [Compute(t)] + [CommitTx(t, false)]
    else [Compute(t)] + [CommitTx(t, true)] + [if env.cached.Refused? then Abandon(t) else Publish(t)]
  }

  function Keys(op: Op, seen: Option<OrderRow>, env: Env, c: Counters): seq<Sequence> {
    if Decides(op, seen, env, c) then Drew(op, env.faults) else []
  }

  /** The request of thread `t` from begin to end. */
  function Script(t: nat, op: Op, seen: Option<OrderRow>, env: Env, c: Counters): seq<Action> {
    if env.faults.begin then []
    else
      [Begin(t, op)] + Reads(t, Taken(op, seen, env)) + Allocations(t, Keys(op, seen, env, c))
          + Ending(t, op, seen, env, c)
  }

  function Drawing(c: Counters, ks: seq<Sequence>): Counters {
    if ks == [] then c else Drawing(c, ks[..|ks| - 1]).Bump(ks[|ks| - 1])
  }

  function IdsAfter(c: Counters, ks: seq<Sequence>): map<Sequence, nat> {
    if ks == [] then map[]
    else IdsAfter(c, ks[..|ks| - 1])[ks[|ks| - 1] := Drawing(c, ks[..|ks| - 1]).At(ks[|ks| - 1])]
  }

  ghost predicate Advancing(from: Time, times: seq<Time>, strict: bool) {
    && (times != [] ==> Before(strict, from, times[0]))
    && forall i :: 0 < i < |times| ==> Before(strict, times[i - 1], times[i])
  }

  function Latest(from: Time, times: seq<Time>): Time {
    if times == [] then from else times[|times| - 1]
  }

  /** `s` once thread `t` has taken the readings `times`. */
  function HasRead(s: State, t: nat, op: Op, snap: Snapshot, times: seq<Time>): State {
    s.(now := Latest(s.now, times), threads := s.threads[t := Running(op, snap, times, map[])])
  }

  lemma ReadsOne(s: State, t: nat, op: Op, snap: Snapshot, times: seq<Time>, time: Time)
    requires Before(s.strict, Latest(s.now, times), time)
    ensures Next(HasRead(s, t, op, snap, times), ReadClock(t, time)) == Some(HasRead(s, t, op, snap, times + [time]))
  {
    var a, b := Running(op, snap, times, map[]), Running(op, snap, times + [time], map[]);
    assert s.threads[t := a][t := b] == s.threads[t := b];
  }

  lemma {:induction false} ReadsRun(s: State, t: nat, op: Op, snap: Snapshot, times: seq<Time>)
    requires t in s.threads && s.threads[t] == Running(op, snap, [], map[]) && Advancing(s.now, times, s.strict)
    ensures AfterFrom(s, Reads(t, times)) == Some(HasRead(s, t, op, snap, times))
  {
    if times == [] {
      assert s.threads[t := s.threads[t]] == s.threads;
    } else {
      var n := |times| - 1;
      ReadsRun(s, t, op, snap, times[..n]);
      ReadsOne(s, t, op, snap, times[..n], times[n]);
      OneMore(s, Reads(t, times[..n]), ReadClock(t, times[n]));
      assert times[..n] + [times[n]] == times;
    }
  }

  /** `s` once thread `t` has drawn from the sequences `ks`. */
  function HasDrawn(s: State, t: nat, op: Op, snap: Snapshot, times: seq<Time>, ks: seq<Sequence>): State {
    s.(counters := Drawing(s.counters, ks),
       threads := s.threads[t := Running(op, snap, times, IdsAfter(s.counters, ks))])
  }

  lemma DrawsOne(s: State, t: nat, op: Op, snap: Snapshot, times: seq<Time>, ks: seq<Sequence>, k: Sequence)
    requires k !in IdsAfter(s.counters, ks)
    ensures Next(HasDrawn(s, t, op, snap, times, ks), Allocate(t, k)) == Some(HasDrawn(s, t, op, snap, times, ks + [k]))
  {
    assert (ks + [k])[..|ks|] == ks;
    var a := Running(op, snap, times, IdsAfter(s.counters, ks));
    var b := Running(op, snap, times, IdsAfter(s.counters, ks + [k]));
    assert s.threads[t := a][t := b] == s.threads[t := b];
  }

  lemma {:induction false} IdsAfterKeys(c: Counters, ks: seq<Sequence>)
    ensures forall k :: k in IdsAfter(c, ks) <==> k in ks
  {
    if ks != [] { IdsAfterKeys(c, ks[..|ks| - 1]); }
  }

  ghost predicate Distinct(ks: seq<Sequence>) {
    forall i, j :: 0 <= i < j < |ks| ==> ks[i] != ks[j]
  }

  lemma LastIsNew(c: Counters, ks: seq<Sequence>)
    requires ks != [] && Distinct(ks)
    ensures var n := |ks| - 1; Distinct(ks[..n]) && ks[n] !in IdsAfter(c, ks[..n]) && ks[..n] + [ks[n]] == ks
  {
    IdsAfterKeys(c, ks[..|ks| - 1]);
  }

  lemma {:induction false} AllocationsRun(s: State, t: nat, op: Op, snap: Snapshot, times: seq<Time>, ks: seq<Sequence>)
    requires t in s.threads && s.threads[t] == Running(op, snap, times, map[])
    requires Distinct(ks)
    ensures AfterFrom(s, Allocations(t, ks)) == Some(HasDrawn(s, t, op, snap, times, ks))
  {
    if ks == [] {
      assert s.threads[t := s.threads[t]] == s.threads;
    } else {
      var n := |ks| - 1;
      LastIsNew(s.counters, ks);
      AllocationsRun(s, t, op, snap, times, ks[..n]);
      DrawsOne(s, t, op, snap, times, ks[..n], ks[n]);
      OneMore(s, Allocations(t, ks[..n]), Allocate(t, ks[n]));
    }
  }

  /** What the draws of a transaction yield. */
  lemma DrawsYield(c: Counters, op: Op, f: Faults)
    ensures Drawing(c, Drew(op, f)) == Drawn(c, op, f)
    ensures !Faulty(op, f) ==>
              var ids := IdsAfter(c, Drew(op, f));
              && (op.Receive? ==> OrderIds in ids && ids[OrderIds] == c.orders)
              && (!op.Return? ==>
                  RecordIds in ids && ids[RecordIds] == c.records && TaskIds in ids && ids[TaskIds] == c.tasks)
  {
    DrawOne(c, RecordIds);
    DrawOne(c, OrderIds);
    DrawTwo(c, RecordIds, TaskIds);
    DrawTwo(c, OrderIds, RecordIds);
    DrawThree(c, OrderIds, RecordIds, TaskIds);
  }

  lemma DrawNext(c: Counters, ks: seq<Sequence>, k: Sequence)
    ensures Drawing(c, ks + [k]) == Drawing(c, ks).Bump(k)
    ensures IdsAfter(c, ks + [k]) == IdsAfter(c, ks)[k := Drawing(c, ks).At(k)]
  {
    assert (ks + [k])[..|ks|] == ks;
  }

  lemma DrawOne(c: Counters, k: Sequence)
    ensures Drawing(c, [k]) == c.Bump(k) && IdsAfter(c, [k]) == map[k := c.At(k)]
  {
  }

  lemma DrawTwo(c: Counters, k: Sequence, l: Sequence)
    ensures Drawing(c, [k, l]) == c.Bump(k).Bump(l) && IdsAfter(c, [k, l]) == map[k := c.At(k)][l := c.Bump(k).At(l)]
  {
    assert [k, l] == [k] + [l];
    DrawOne(c, k);
    DrawNext(c, [k], l);
  }

  lemma DrawThree(c: Counters, k: Sequence, l: Sequence, m: Sequence)
    ensures Drawing(c, [k, l, m]) == c.Bump(k).Bump(l).Bump(m)
    ensures IdsAfter(c, [k, l, m]) == map[k := c.At(k)][l := c.Bump(k).At(l)][m := c.Bump(k).Bump(l).At(m)]
  {
    assert [k, l, m] == [k, l] + [m];
    DrawTwo(c, k, l);
    DrawNext(c, [k, l], m);
  }

  /** The readings and draws assemble to inputs that decide and act as those of the request. */
  lemma Assembles(op: Op, seen: Option<OrderRow>, env: Env, c: Counters)
    requires Decides(op, seen, env, c) && !Faulty(op, env.faults) && (op.Receive? ==> seen.None?)
    ensures var x := Interleaving.Assemble(op, seen, Taken(op, seen, env), IdsAfter(c, Drew(op, env.faults)));
            x.Some? && Decide(op, seen, x.value) == Decide(op, seen, InputsOf(env, c))
  {
    DrawsYield(c, op, env.faults);
  }

  /** The state when the request has made its readings and draws. */
  function Gathered(s: State, t: nat, op: Op, times: seq<Time>, ks: seq<Sequence>): State {
    s.(now := Latest(s.now, times), counters := Drawing(s.counters, ks),
       threads := s.threads[t := Running(op, Snapshot(s.store, s.chains, s.now), times, IdsAfter(s.counters, ks))])
  }

  lemma BeginsAndReads(s: State, t: nat, op: Op, times: seq<Time>)
    requires t !in s.threads && Advancing(s.now, times, s.strict)
    ensures AfterFrom(s, [Begin(t, op)] + Reads(t, times))
              == Some(HasRead(s, t, op, Snapshot(s.store, s.chains, s.now), times))
  {
    var snap := Snapshot(s.store, s.chains, s.now);
    var a, b := Running(op, snap, [], map[]), Running(op, snap, times, map[]);
    var s1 := s.(threads := s.threads[t := a]);
    assert [Begin(t, op)][..0] == [];
    assert AfterFrom(s, [Begin(t, op)]) == Some(s1);
    ReadsRun(s1, t, op, snap, times);
    AppendFrom(s, [Begin(t, op)], Reads(t, times));
    assert s.threads[t := a][t := b] == s.threads[t := b];
  }

  lemma DrawsDistinct(op: Op, f: Faults)
    ensures Distinct(Drew(op, f))
  {
  }

  lemma Gathers(s: State, t: nat, op: Op, times: seq<Time>, ks: seq<Sequence>)
    requires t !in s.threads && Advancing(s.now, times, s.strict)
    requires Distinct(ks)
    ensures AfterFrom(s, [Begin(t, op)] + Reads(t, times) + Allocations(t, ks)) == Some(Gathered(s, t, op, times, ks))
  {
    var snap := Snapshot(s.store, s.chains, s.now);
    BeginsAndReads(s, t, op, times);
    AllocationsRun(HasRead(s, t, op, snap, times), t, op, snap, times, ks);
    AppendFrom(s, [Begin(t, op)] + Reads(t, times), Allocations(t, ks));
    var a, b := Running(op, snap, times, map[]), Running(op, snap, times, IdsAfter(s.counters, ks));
    assert s.threads[t := a][t := b] == s.threads[t := b];
  }

  // ---- how it ends ----

  function WorldOf(s: State): World {
    World(s.store, s.counters, s.cache)
  }

  /** `s'` is `s` with world `w` at a later time, and the same requests under way. */
  predicate Became(s: State, w: World, now: Time, s': State) {
    WorldOf(s') == w && s'.threads == s.threads && s'.strict == s.strict && s'.now == now
  }

  lemma Computes(s: State, t: nat, op: Op, env: Env)
    requires t !in s.threads && Decides(op, Seen(op, s.store), env, s.counters) && !Faulty(op, env.faults)
    ensures var seen := Seen(op, s.store);
            var g := Gathered(s, t, op, Taken(op, seen, env), Drew(op, env.faults));
            var e := Decide(op, seen, InputsOf(env, s.counters)).effect;
            exists x, ids ::
              Next(g, Compute(t))
                  == Some(g.(threads := s.threads[t := Computed(op, Snapshot(s.store, s.chains, s.now), x, e, ids)]))
  {
    var seen := Seen(op, s.store);
    var g := Gathered(s, t, op, Taken(op, seen, env), Drew(op, env.faults));
    var e := Decide(op, seen, InputsOf(env, s.counters)).effect;
    var ids := IdsAfter(s.counters, Drew(op, env.faults));
    Assembles(op, seen, env, s.counters);
    var x := Interleaving.Assemble(op, seen, Taken(op, seen, env), ids).value;
    var th := Computed(op, Snapshot(s.store, s.chains, s.now), x, e, ids);
    assert g.threads[t := th] == s.threads[t := th];
    assert Next(g, Compute(t)) == Some(g.(threads := s.threads[t := th]));
  }

  /** A commit that meets no rival, and what follows it. */
  lemma CommitsAlone(s: State, s0: State, t: nat, op: Op, snap: Snapshot, x: Inputs, e: Effect, ids: map<Sequence, nat>)
    requires t !in s0.threads && s.threads == s0.threads[t := Computed(op, snap, x, e, ids)]
    requires snap.store == s.store && snap.chains == s.chains
    ensures var lost := Next(s, CommitTx(t, false)); var told := Next(s, CommitTx(t, true));
            && lost.Some?
                && Became(s0.(strict := s.strict), World(Apply(s.store, e), s.counters, s.cache), s.now, lost.value)
            && Then(told, Abandon(t)).Some?
            && Became(s0.(strict := s.strict), World(Apply(s.store, e), s.counters, s.cache), s.now,
                      Then(told, Abandon(t)).value)
            && Then(told, Publish(t)).Some?
            && Became(s0.(strict := s.strict), World(Apply(s.store, e), s.counters, Cached(s.cache, WriteFor(e))),
                      s.now, Then(told, Publish(t)).value)
  {
    var s1 := Next(s, CommitTx(t, true)).value;
    assert s1.threads[t] == Publishing(WriteFor(e));
    assert s0.threads[t := Computed(op, snap, x, e, ids)] - {t} == s0.threads;
    assert s1.threads - {t} == s0.threads;
  }

  /** What the request leaves behind, and when. */
  function Served(s: State, op: Op, env: Env): (World, Time) {
    (Serve(WorldOf(s), op, env).0, Latest(s.now, Taken(op, Seen(op, s.store), env)))
  }

  lemma EndsWell(s: State, t: nat, op: Op, env: Env)
    requires t !in s.threads && Decides(op, Seen(op, s.store), env, s.counters) && !Faulty(op, env.faults)
    requires !env.reply.Refused?
    ensures var seen := Seen(op, s.store);
            var r := AfterFrom(Gathered(s, t, op, Taken(op, seen, env), Drew(op, env.faults)),
                               Ending(t, op, seen, env, s.counters));
            r.Some? && Became(s, Served(s, op, env).0, Served(s, op, env).1, r.value)
  {
    var seen := Seen(op, s.store);
    var g := Gathered(s, t, op, Taken(op, seen, env), Drew(op, env.faults));
    var e := Decide(op, seen, InputsOf(env, s.counters)).effect;
    var snap := Snapshot(s.store, s.chains, s.now);
    Computes(s, t, op, env);
    var x, ids :| Next(g, Compute(t)) == Some(g.(threads := s.threads[t := Computed(op, snap, x, e, ids)]));
    var c := g.(threads := s.threads[t := Computed(op, snap, x, e, ids)]);
    CommitsAlone(c, s, t, op, snap, x, e, ids);
    DrawsYield(s.counters, op, env.faults);
    OneAction(g, Compute(t));
    if env.reply.ReplyLost? {
      OneMore(g, [Compute(t)], CommitTx(t, false));
    } else {
      OneMore(g, [Compute(t)], CommitTx(t, true));
      OneMore(g, [Compute(t)] + [CommitTx(t, true)], if env.cached.Refused? then Abandon(t) else Publish(t));
    }
  }

  lemma EndsBadly(s: State, t: nat, op: Op, env: Env)
    requires t !in s.threads && !env.faults.begin
    requires !Decides(op, Seen(op, s.store), env, s.counters) || Faulty(op, env.faults) || env.reply.Refused?
    ensures var seen := Seen(op, s.store);
            var r := AfterFrom(Gathered(s, t, op, Taken(op, seen, env), Keys(op, seen, env, s.counters)), [Abandon(t)]);
            r.Some? && Became(s, Served(s, op, env).0, Served(s, op, env).1, r.value)
  {
    var seen := Seen(op, s.store);
    var g := Gathered(s, t, op, Taken(op, seen, env), Keys(op, seen, env, s.counters));
    OneAction(g, Abandon(t));
    DrawsYield(s.counters, op, env.faults);
    assert g.threads - {t} == s.threads;
  }

  /** From any state of the interleaved model, a request served alone, whatever fails in it, does to the
      tables, the sequences and the cache what the specification of the service code says. */
  lemma ServedAlone(s: State, t: nat, op: Op, env: Env)
    requires t !in s.threads && Advancing(s.now, Taken(op, Seen(op, s.store), env), s.strict)
    ensures var r := AfterFrom(s, Script(t, op, Seen(op, s.store), env, s.counters));
            r.Some? && Became(s, Served(s, op, env).0, Served(s, op, env).1, r.value)
  {
    if !env.faults.begin {
      var seen := Seen(op, s.store);
      var times, keys := Taken(op, seen, env), Keys(op, seen, env, s.counters);
      DrawsDistinct(op, env.faults);
      Gathers(s, t, op, times, keys);
      AppendFrom(s, [Begin(t, op)] + Reads(t, times) + Allocations(t, keys), Ending(t, op, seen, env, s.counters));
      if Decides(op, seen, env, s.counters) && !Faulty(op, env.faults) && !env.reply.Refused? {
        EndsWell(s, t, op, env);
      } else {
        EndsBadly(s, t, op, env);
      }
    }
  }
}
