/** The cache while requests overlap: exactly which steps break its agreement with the table, a
    discipline under which it settles, and runs in which it does not. */
module Races {
  import opened Domain
  import opened Transactions
  import opened Interleaving
  import opened Runs
  import S = Serializability

  // ---- exactly when a step breaks the agreement ----

  ghost predicate EntryCurrent(s: State, id: nat)
    requires id in s.cache
  {
    id in s.store.orders && s.cache[id] == OrderData(id, s.store.orders[id], [])
  }

  /** Every cached entry is the current row of its order; no removed order is cached. */
  ghost predicate Agrees(s: State) {
    forall id :: id in s.cache ==> EntryCurrent(s, id)
  }

  predicate Current(s: State, d: OrderData) {
    d.id in s.store.orders && d == OrderData(d.id, s.store.orders[d.id], [])
  }

  /** What is about to be written to the cache is right, and a row is not changed while it is cached. */
  predicate Harmless(s: State, a: Action) {
    match a
    case CommitTx(t, _) => t in s.threads && s.threads[t].Computed? ==> s.threads[t].effect.id !in s.cache
    case Publish(t) =>
      t in s.threads && s.threads[t].Publishing? && s.threads[t].write.SetOrder? ==> Current(s, s.threads[t].write.data)
    case Fill(t) => t in s.threads && s.threads[t].Fetched? ==> Current(s, s.threads[t].data)
    case _ => true
  }

  /** What a commit does to the table: the row of one order changes or goes, the others stay. */
  ghost predicate ChangesOne(s: State, e: Effect, s': State) {
    && (e.Put? ==> e.id in s'.store.orders && s'.store.orders[e.id] == e.row)
    && (e.Drop? ==> e.id !in s'.store.orders)
    && (e.id in s.store.orders && e.id in s'.store.orders ==> s'.store.orders[e.id] != s.store.orders[e.id])
    && (forall id :: id != e.id ==>
          (id in s'.store.orders <==> id in s.store.orders)
          && (id in s.store.orders ==> s'.store.orders[id] == s.store.orders[id]))
  }

  lemma FitsChanges(s: State, e: Effect, c: Committed, s': State)
    requires S.Fits(s, e, c) && S.Follows(s, e, c, s')
    ensures ChangesOne(s, e, s') && s'.cache == s.cache
  {
  }

  lemma CommitChanges(s: State, t: nat, replied: bool, s': State)
    requires Inv(s) && Next(s, CommitTx(t, replied)) == Some(s')
    ensures t in s.threads && s.threads[t].Computed? && ChangesOne(s, s.threads[t].effect, s') && s'.cache == s.cache
    ensures s'.threads == if replied then s.threads[t := Publishing(WriteFor(s.threads[t].effect))] else s.threads - {t}
  {
    S.CommitFits(s, t, replied, s');
    FitsChanges(s, s.threads[t].effect, Committed(s.threads[t].op, s.threads[t].x), s');
  }

  lemma CommitAgrees(s: State, e: Effect, s': State)
    requires Agrees(s) && ChangesOne(s, e, s') && s'.cache == s.cache
    ensures Agrees(s') <==> e.id !in s.cache
  {
    if e.id in s.cache {
      assert EntryCurrent(s, e.id) && !EntryCurrent(s', e.id);
    } else {
      forall id | id in s'.cache ensures EntryCurrent(s', id) { assert EntryCurrent(s, id); }
    }
  }

  lemma WriteAgrees(s: State, w: CacheWrite, s': State)
    requires Agrees(s) && s'.store == s.store && s'.cache == Cached(s.cache, w)
    ensures Agrees(s') <==> (w.SetOrder? ==> Current(s, w.data))
  {
    forall id | id in s.cache && id in s'.cache && s'.cache[id] == s.cache[id] ensures EntryCurrent(s', id) {
      assert EntryCurrent(s, id);
    }
    if w.SetOrder? { assert EntryCurrent(s', w.data.id) <==> Current(s, w.data); }
  }

  lemma OtherAgrees(s: State, a: Action)
    requires Agrees(s) && Next(s, a).Some? && !a.CommitTx? && !a.Publish? && !a.Fill?
    ensures Agrees(Next(s, a).value)
  {
    var s' := Next(s, a).value;
    assert s'.store == s.store && s'.cache == s.cache;
    forall id | id in s'.cache ensures EntryCurrent(s', id) { assert EntryCurrent(s, id); }
  }

  /** Exactly which steps break the agreement, however many requests are under way. */
  lemma AgreesExactly(s: State, a: Action, s': State)
    requires Inv(s) && Agrees(s) && Next(s, a) == Some(s')
    ensures Agrees(s') <==> Harmless(s, a)
  {
    match a
    case CommitTx(t, replied) =>
      CommitChanges(s, t, replied, s');
      CommitAgrees(s, s.threads[t].effect, s');
    case Publish(t) => WriteAgrees(s, s.threads[t].write, s');
    case Fill(t) => WriteAgrees(s, SetOrder(s.threads[t].data), s');
    case _ => OtherAgrees(s, a);
  }

  /** The cache agrees with the table after every part of the run. */
  ghost predicate AlwaysAgrees(strict: bool, run: seq<Action>) {
    && After(strict, run).Some? && Agrees(After(strict, run).value)
    && (run != [] ==> AlwaysAgrees(strict, run[..|run| - 1]))
  }

  ghost predicate AlwaysHarmless(strict: bool, run: seq<Action>)
    requires After(strict, run).Some?
  {
    run != [] ==>
      var before := run[..|run| - 1];
      AlwaysHarmless(strict, before) && Harmless(After(strict, before).value, run[|run| - 1])
  }

  /** Over every run, the cache agrees with the table all along if and only if every step is harmless. */
  lemma {:induction false} AgreesThroughout(strict: bool, run: seq<Action>)
    requires After(strict, run).Some?
    ensures AlwaysAgrees(strict, run) <==> AlwaysHarmless(strict, run)
  {
    if run != [] {
      var before := run[..|run| - 1];
      AgreesThroughout(strict, before);
      S.Reachable(strict, before);
      var s, s' := After(strict, before).value, After(strict, run).value;
      if Agrees(s) { AgreesExactly(s, run[|run| - 1], s'); }
    }
  }

  // ---- a discipline under which the cache settles ----

  function Written(w: CacheWrite): nat {
    if w.SetOrder? then w.data.id else w.id
  }

  /** The request is going to write the cache entry of order `id`. */
  predicate Busy(th: Thread, id: nat) {
    (th.Publishing? && Written(th.write) == id) || (th.Fetched? && th.data.id == id)
  }

  /** No row is changed while another request is going to write its entry, no commit of a cached order
      goes without its reply, and no request stops between its commit and its cache write. */
  ghost predicate Orderly(s: State, a: Action) {
    match a
    case CommitTx(t, replied) =>
      t in s.threads && s.threads[t].Computed? ==>
        && (forall u :: u in s.threads && u != t ==> !Busy(s.threads[u], s.threads[t].effect.id))
        && (replied || s.threads[t].effect.id !in s.cache)
    case Abandon(t) => t in s.threads ==> !s.threads[t].Publishing?
    case _ => true
  }

  predicate UpToDate(s: State, th: Thread) {
    match th
    case Publishing(SetOrder(d)) => Current(s, d)
    case Publishing(DeleteOrder(id)) => id !in s.store.orders
    case Fetched(d) => Current(s, d)
    case _ => true
  }

  ghost predicate Pending(s: State, id: nat) {
    exists t :: t in s.threads && s.threads[t].Publishing? && Written(s.threads[t].write) == id
  }

  /** Every entry is the current row, or its correction is on the way. */
  ghost predicate Settling(s: State) {
    && (forall t :: t in s.threads ==> UpToDate(s, s.threads[t]))
    && (forall id :: id in s.cache ==> EntryCurrent(s, id) || Pending(s, id))
  }

  lemma ChangeSettles(s: State, t: nat, replied: bool, s': State)
    requires Settling(s) && Orderly(s, CommitTx(t, replied)) && t in s.threads && s.threads[t].Computed?
    requires ChangesOne(s, s.threads[t].effect, s') && s'.cache == s.cache
    requires s'.threads ==
             if replied then s.threads[t := Publishing(WriteFor(s.threads[t].effect))] else s.threads - {t}
    ensures Settling(s')
  {
    forall u | u in s'.threads ensures UpToDate(s', s'.threads[u]) {
      if u != t { assert UpToDate(s, s.threads[u]) && !Busy(s.threads[u], s.threads[t].effect.id); }
    }
    forall id | id in s'.cache ensures EntryCurrent(s', id) || Pending(s', id) {
      if id == s.threads[t].effect.id {
        assert s'.threads[t].Publishing? && Written(s'.threads[t].write) == id;
      } else if Pending(s, id) {
        var u :| u in s.threads && s.threads[u].Publishing? && Written(s.threads[u].write) == id;
        assert u in s'.threads && s'.threads[u] == s.threads[u];
      } else {
        assert EntryCurrent(s, id);
      }
    }
  }

  lemma CommitSettles(s: State, t: nat, replied: bool, s': State)
    requires Inv(s) && Settling(s) && Orderly(s, CommitTx(t, replied)) && Next(s, CommitTx(t, replied)) == Some(s')
    ensures Settling(s')
  {
    CommitChanges(s, t, replied, s');
    ChangeSettles(s, t, replied, s');
  }

  lemma LocalSettles(s: State, a: Action, s': State)
    requires Inv(s) && Settling(s) && Orderly(s, a) && Next(s, a) == Some(s') && !a.CommitTx?
    ensures Settling(s')
  {
    S.LocalShape(s, a);
    forall u | u in s'.threads ensures UpToDate(s', s'.threads[u]) {
      if u != a.t { assert UpToDate(s, s.threads[u]); }
    }
    forall id | id in s'.cache ensures EntryCurrent(s', id) || Pending(s', id) {
      EntrySettles(s, a, s', id);
    }
  }

  lemma EntrySettles(s: State, a: Action, s': State, id: nat)
    requires Settling(s) && Orderly(s, a) && Next(s, a) == Some(s') && !a.CommitTx? && id in s'.cache
    ensures EntryCurrent(s', id) || Pending(s', id)
  {
    S.LocalShape(s, a);
    if a.Fill? || a.Publish? { assert UpToDate(s, s.threads[a.t]); }
    if id in s.cache && s'.cache[id] == s.cache[id] && !EntryCurrent(s', id) {
      var u :| u in s.threads && s.threads[u].Publishing? && Written(s.threads[u].write) == id;
      assert u != a.t;
      assert u in s'.threads && s'.threads[u] == s.threads[u];
    }
  }

  ghost predicate OrderlyRun(strict: bool, run: seq<Action>)
    requires After(strict, run).Some?
  {
    run != [] ==>
      var before := run[..|run| - 1];
      OrderlyRun(strict, before) && Orderly(After(strict, before).value, run[|run| - 1])
  }

  lemma {:induction false} SettlesAlong(strict: bool, run: seq<Action>)
    requires After(strict, run).Some? && OrderlyRun(strict, run)
    ensures Settling(After(strict, run).value)
  {
    if run != [] {
      var before, a := run[..|run| - 1], run[|run| - 1];
      SettlesAlong(strict, before);
      S.Reachable(strict, before);
      var s, s' := After(strict, before).value, After(strict, run).value;
      if a.CommitTx? { CommitSettles(s, a.t, a.replied, s'); } else { LocalSettles(s, a, s'); }
    }
  }

  /** However requests overlap, as long as the run is orderly an entry whose write is not still on its
      way is the current row; with no such write on its way the cache agrees with the table. */
  lemma OverlapHarmless(strict: bool, run: seq<Action>, s: State)
    requires After(strict, run) == Some(s) && OrderlyRun(strict, run)
    ensures forall id :: id in s.cache && !Pending(s, id) ==> EntryCurrent(s, id)
    ensures (forall t :: t in s.threads ==> !s.threads[t].Publishing?) ==> Agrees(s)
  {
    SettlesAlong(strict, run);
  }

  /** And the discipline is needed: a row changed while another request is going to write its entry
      leaves that entry wrong as soon as it is written. */
  lemma LateWriteSpoils(s: State, t: nat, replied: bool, s1: State, u: nat, late: Action, s2: State)
    requires Inv(s) && Next(s, CommitTx(t, replied)) == Some(s1) && t in s.threads && s.threads[t].Computed?
    requires t != u && u in s.threads && Busy(s.threads[u], s.threads[t].effect.id) && UpToDate(s, s.threads[u])
    requires late in {Fill(u), Publish(u)} && Next(s1, late) == Some(s2)
    requires s.threads[u].Publishing? ==> s.threads[u].write.SetOrder?
    ensures s.threads[t].effect.id in s2.cache && !EntryCurrent(s2, s.threads[t].effect.id)
  {
    CommitChanges(s, t, replied, s1);
    assert s1.threads[u] == s.threads[u];
  }

  // ---- a run that is not orderly ----

  /** A reader fetches the row, the courier takes the order back, the reader then fills the cache. */
  function GiveBack(u: nat, id: nat, time: Time): seq<Action> {
    [Begin(u, Return(id))] + [ReadClock(u, time)] + [Compute(u)] + [CommitTx(u, true)] + [Publish(u)]
  }

  /** The state when the return of order `id` is ready to commit. */
  function Returning(s: State, u: nat, id: nat, time: Time): State {
    s.(now := time, threads := s.threads[u :=
      Computed(Return(id), Snapshot(s.store, s.chains, s.now), Inputs(time, 0, 0, 0, 0, 0, 0), Drop(id), map[])])
  }

  lemma ReturnPrepares(s: State, u: nat, id: nat, time: Time)
    requires u !in s.threads && id in s.store.orders && s.now < time && s.store.orders[id].expirationDate < time
    ensures Then(Then(Next(s, Begin(u, Return(id))), ReadClock(u, time)), Compute(u)) == Some(Returning(s, u, id, time))
  {
    var snap := Snapshot(s.store, s.chains, s.now);
    var op := Return(id);
    var th1, th2 := Running(op, snap, [], map[]), Running(op, snap, [time], map[]);
    var s1 := s.(threads := s.threads[u := th1]);
    assert Next(s, Begin(u, op)) == Some(s1);
    assert [] + [time] == [time];
    var s2 := s1.(now := time, threads := s1.threads[u := th2]);
    assert Next(s1, ReadClock(u, time)) == Some(s2);
    assert s.threads[u := th1][u := th2] == s.threads[u := th2];
    var x := Inputs(time, 0, 0, 0, 0, 0, 0);
    assert Assemble(op, Some(s.store.orders[id]), [time], map[]) == Some(x);
    var th3 := Computed(op, snap, x, Drop(id), map[]);
    assert s2.threads[u := th3] == s.threads[u := th3];
  }

  lemma ReturnCommits(s: State, u: nat, id: nat, time: Time)
    requires u !in s.threads && id in s.store.orders
    ensures Then(Next(Returning(s, u, id, time), CommitTx(u, true)), Publish(u)).Some?
    ensures var s' := Then(Next(Returning(s, u, id, time), CommitTx(u, true)), Publish(u)).value;
            id !in s'.store.orders && s'.threads == s.threads && s'.cache == s.cache - {id}
  {
  }

  lemma GiveBackRuns(s: State, u: nat, id: nat, time: Time)
    requires u !in s.threads && id in s.store.orders && s.now < time && s.store.orders[id].expirationDate < time
    ensures AfterFrom(s, GiveBack(u, id, time)).Some?
    ensures var s' := AfterFrom(s, GiveBack(u, id, time)).value;
            id !in s'.store.orders && s'.threads == s.threads && s'.cache == s.cache - {id}
  {
    var a1, a2, a3, a4, a5 := Begin(u, Return(id)), ReadClock(u, time), Compute(u), CommitTx(u, true), Publish(u);
    ReturnPrepares(s, u, id, time);
    ReturnCommits(s, u, id, time);
    OneAction(s, a1);
    OneMore(s, [a1], a2);
    OneMore(s, [a1] + [a2], a3);
    OneMore(s, [a1] + [a2] + [a3], a4);
    OneMore(s, [a1] + [a2] + [a3] + [a4], a5);
  }

  lemma FillsIn(s: State, t: nat)
    requires t in s.threads && s.threads[t].Fetched?
    ensures var r := AfterFrom(s, [Fill(t)]);
            r.Some? && r.value.store == s.store && r.value.cache == s.cache[s.threads[t].data.id := s.threads[t].data]
  {
    OneAction(s, Fill(t));
  }

  /** From every reachable state that holds an order, two overlapping requests on it that both succeed
      can leave the removed order in the cache: the return commits while the query is going to write. */
  lemma StaleEntryReachable(strict: bool, run: seq<Action>, id: nat, t: nat, u: nat, time: Time)
    requires After(strict, run).Some?
    requires var s := After(strict, run).value;
             t != u && t !in s.threads && u !in s.threads && id in s.store.orders
             && s.now < time && s.store.orders[id].expirationDate < time
    ensures var s := After(strict, run).value;
            var race := Looking(t, id, s.store.orders[id].recipientId) + GiveBack(u, id, time) + [Fill(t)];
            var r := After(strict, run + race); r.Some? && id !in r.value.store.orders && id in r.value.cache
  {
    var s := After(strict, run).value;
    var q, g := Looking(t, id, s.store.orders[id].recipientId), GiveBack(u, id, time);
    Looks(s, t, id);
    var s1 := AfterFrom(s, q).value;
    AfterExtends(strict, run, q);
    GiveBackRuns(s1, u, id, time);
    AfterExtends(strict, run + q, g);
    var s2 := AfterFrom(s1, g).value;
    AfterExtends(strict, run + q + g, [Fill(t)]);
    FillsIn(s2, t);
    assert run + q + g + [Fill(t)] == run + (q + g + [Fill(t)]);
  }
}
