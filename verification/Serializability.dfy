/** Every run of the interleaved model keeps its invariant; in particular the committed tables are
    those of the same transactions run one at a time in commit order. */
module Serializability {
  import opened Domain
  import opened Tables
  import opened Transactions
  import opened Lifecycle
  import opened Interleaving

  // ---- steps that do not commit ----

  predicate SameTables(s: State, s': State) {
    && s'.strict == s.strict && s'.store == s.store && s'.chains == s.chains && s.now <= s'.now
    && s'.commits == s.commits && s'.entries == s.entries && s'.tasks == s.tasks
  }

  ghost predicate OthersSame(s: State, s': State, t: nat) {
    forall u :: u != t ==> (u in s'.threads <==> u in s.threads) && (u in s.threads ==> s'.threads[u] == s.threads[u])
  }

  lemma LocalShape(s: State, a: Action)
    requires Next(s, a).Some? && !a.CommitTx?
    ensures SameTables(s, Next(s, a).value) && OthersSame(s, Next(s, a).value, a.t)
  {
  }

  lemma ThreadFrame(s: State, s': State, th: Thread)
    requires ThreadOk(s, th) && SameTables(s, s')
    ensures ThreadOk(s', th)
  {
    if th.Running? || th.Computed? {
      forall id ensures VersionOk(s', th.snap, id) {
        assert VersionOk(s, th.snap, id);
      }
    }
  }

  lemma TimelyAssembled(op: Op, seen: Option<OrderRow>, times: seq<Time>, ids: map<Sequence, nat>,
                        from: Time, now: Time, strict: bool)
    requires TimesOk(from, times, now, strict)
    ensures var x := Assemble(op, seen, times, ids); x.Some? ==> Timely(op, seen, x.value, from, now, strict)
  {
  }

  lemma ComputeThread(s: State, t: nat)
    requires ThreadsOk(s) && Next(s, Compute(t)).Some?
    ensures ThreadOk(s, Next(s, Compute(t)).value.threads[t])
  {
    var th := s.threads[t];
    assert ThreadOk(s, th);
    TimelyAssembled(th.op, Seen(th.op, th.snap.store), th.times, th.ids, th.snap.now, s.now, s.strict);
  }

  lemma ReadThread(s: State, t: nat, time: Time)
    requires ThreadsOk(s) && Next(s, ReadClock(t, time)).Some?
    ensures var s' := Next(s, ReadClock(t, time)).value; ThreadOk(s', s'.threads[t])
  {
    var s' := Next(s, ReadClock(t, time)).value;
    assert ThreadOk(s, s.threads[t]);
    ThreadFrame(s, s', s.threads[t]);
  }

  lemma LocalThreads(s: State, a: Action)
    requires StoreOk(s.store, s.now, s.strict) && ThreadsOk(s) && Next(s, a).Some? && !a.CommitTx?
    ensures ThreadsOk(Next(s, a).value)
  {
    var s' := Next(s, a).value;
    LocalShape(s, a);
    forall t | t in s'.threads ensures ThreadOk(s', s'.threads[t]) {
      if t != a.t {
        assert ThreadOk(s, s.threads[t]);
        ThreadFrame(s, s', s.threads[t]);
      } else if a.Compute? {
        ComputeThread(s, t);
        ThreadFrame(s, s', s'.threads[t]);
      } else if a.ReadClock? {
        ReadThread(s, t, a.time);
      } else if a.Begin? {
        assert forall id :: VersionOk(s', s'.threads[t].snap, id);
      } else if a.Allocate? {
        assert ThreadOk(s, s.threads[t]);
        ThreadFrame(s, s', s.threads[t]);
      }
    }
  }

  /** A step keeps the values a thread holds, or draws one fresh value. */
  lemma LocalHeld(s: State, a: Action, t: nat, k: Sequence)
    requires Next(s, a).Some? && !a.CommitTx?
    ensures var s' := Next(s, a).value;
            && s.counters.At(k) <= s'.counters.At(k)
            && (t in s'.threads && Holds(s'.threads[t], k) ==>
                  || (t in s.threads && Holds(s.threads[t], k) && s'.threads[t].ids[k] == s.threads[t].ids[k])
                  || (t == a.t && s'.threads[t].ids[k] == s.counters.At(k)
                      && s'.counters.At(k) == s.counters.At(k) + 1))
  {
  }

  lemma LocalIds(s: State, a: Action)
    requires IdsOk(s) && Next(s, a).Some? && !a.CommitTx?
    ensures IdsOk(Next(s, a).value)
  {
    var s' := Next(s, a).value;
    LocalShape(s, a);
    forall t, k ensures HeldOk(s', t, k) {
      assert HeldOk(s, t, k);
      LocalHeld(s, a, t, k);
      assert s.counters.At(k) !in Used(s, k);
    }
    forall t, u, k ensures ApartOk(s', t, u, k) {
      assert ApartOk(s, t, u, k) && HeldOk(s, t, k) && HeldOk(s, u, k);
      LocalHeld(s, a, t, k);
      LocalHeld(s, a, u, k);
    }
    forall k, v | v in Used(s', k) ensures v < s'.counters.At(k) {
      assert v in Used(s, k);
      LocalHeld(s, a, 0, k);
    }
  }

  lemma LocalCache(s: State, a: Action)
    requires ChainsOk(s) && CacheOk(s) && Next(s, a).Some? && !a.CommitTx?
    ensures CacheOk(Next(s, a).value)
  {
  }

  lemma StoreLater(store: Store, now: Time, later: Time, strict: bool)
    requires StoreOk(store, now, strict) && now <= later
    ensures StoreOk(store, later, strict)
  {
  }

  lemma LocalKeeps(s: State, a: Action)
    requires Inv(s) && Next(s, a).Some? && !a.CommitTx?
    ensures Inv(Next(s, a).value)
  {
    var s' := Next(s, a).value;
    LocalShape(s, a);
    LocalThreads(s, a);
    LocalIds(s, a);
    LocalCache(s, a);
    StoreLater(s.store, s.now, s'.now, s.strict);
    forall id ensures TrailOk(s', id) && RemovedOk(s', id) {
      assert TrailOk(s, id) && RemovedOk(s, id);
    }
  }

  // ---- commits ----

  predicate Commits(s: State, t: nat, replied: bool, s': State) {
    Next(s, CommitTx(t, replied)) == Some(s')
  }

  /** The row the transaction saw is the row that is there, or there is none and the key is new. */
  ghost predicate SeesCurrent(s: State, th: Thread)
    requires th.Computed?
  {
    if th.op.Receive? then th.x.orderId !in s.chains else Unchanged(th.snap, s, th.effect.id)
  }

  /** The effect computed on the snapshot is the effect on the tables as they are now. */
  lemma EffectIsCurrent(s: State, th: Thread)
    requires th.Computed? && ThreadOk(s, th) && SeesCurrent(s, th) && ChainsOk(s)
    ensures var seen := Lookup(s.store, th.effect.id);
            && th.effect.id == Target(th.op, th.x)
            && seen == Seen(th.op, th.snap.store)
            && Decide(th.op, seen, th.x) == Commit(th.effect)
            && Timely(th.op, seen, th.x, th.snap.now, s.now, s.strict)
            && (seen.Some? ==> OrderOk(seen.value, HistoryOf(s.store.records, th.effect.id), th.snap.now, s.strict))
  {
    assert VersionOk(s, th.snap, th.effect.id);
  }

  /** Histories of the other orders do not move; the target's grows by one record or is erased. */
  lemma HistoryAfter(store: Store, e: Effect, id: nat)
    requires e.Put? ==> e.entry.orderId == e.id
    ensures HistoryOf(Apply(store, e).records, id) ==
            if id != e.id then HistoryOf(store.records, id)
            else if e.Put? then HistoryOf(store.records, id) + [e.entry.record] else []
  {
    if e.Put? {
      HistoryOfAppend(store.records, e.entry, id);
    } else {
      HistoryOfWithout(store.records, e.id, id);
    }
  }

  /** What committing effect `e` for transaction `c` means for the state, without the threads. */
  ghost predicate Fits(s: State, e: Effect, c: Committed) {
    && Decide(c.op, Lookup(s.store, Target(c.op, c.x)), c.x) == Commit(e)
    && (e.Put? ==>
          && e.entry.orderId == e.id && e.entry.record.status == e.row.status && Worded(e.entry.record)
          && Mirrors(e.task, e.entry) && e.task.status == Created
          && e.taskId !in Used(s, TaskIds) && e.entry.id !in Used(s, RecordIds)
          && OrderOk(e.row, HistoryOf(s.store.records, e.id) + [e.entry.record], s.now, s.strict))
    && (e.Put? && e.id in s.store.orders ==>
          && SameParcel(e.row, s.store.orders[e.id])
          && Path(e.row.status) == Path(s.store.orders[e.id].status) + [e.row.status])
    && (e.Put? && e.id !in s.store.orders ==> e.id !in s.chains && Path(e.row.status) == [e.row.status])
    && (e.Drop? ==> e.id in s.store.orders && c.op == Return(e.id) && s.store.orders[e.id].expirationDate < c.x.check)
  }

  /** `s'` is `s` after the commit, whatever became of the threads. */
  ghost predicate Follows(s: State, e: Effect, c: Committed, s': State) {
    s' == AfterCommit(s, c.op, c.x, e).(threads := s'.threads)
  }

  lemma DecisionShape(op: Op, seen: Option<OrderRow>, x: Inputs)
    requires Decide(op, seen, x).Commit?
    ensures var e := Decide(op, seen, x).effect;
            && e.id == Target(op, x) && (op.Receive? <==> seen.None?)
            && (e.Put? ==>
                  && e.entry.orderId == e.id && e.entry.record.status == e.row.status && Worded(e.entry.record)
                  && Mirrors(e.task, e.entry) && e.task.status == Created
                  && e.entry.id == x.recordId && e.taskId == x.taskId)
            && (e.Put? && seen.Some? ==>
                SameParcel(e.row, seen.value) && Path(e.row.status) == Path(seen.value.status) + [e.row.status])
            && (e.Put? && seen.None? ==> Path(e.row.status) == [e.row.status])
            && (e.Drop? ==> seen.Some? && op == Return(e.id) && seen.value.expirationDate < x.check)
  {
  }

  lemma CommitSeesCurrent(s: State, t: nat, replied: bool, s': State)
    requires ThreadsOk(s) && IdsOk(s) && Commits(s, t, replied, s')
    ensures t in s.threads && s.threads[t].Computed? && ThreadOk(s, s.threads[t]) && SeesCurrent(s, s.threads[t])
    ensures s.threads[t].effect.Put? ==>
              s.threads[t].x.taskId !in Used(s, TaskIds) && s.threads[t].x.recordId !in Used(s, RecordIds)
    ensures Follows(s, s.threads[t].effect, Committed(s.threads[t].op, s.threads[t].x), s')
    ensures s'.threads == if replied then s.threads[t := Publishing(WriteFor(s.threads[t].effect))] else s.threads - {t}
  {
    assert ThreadOk(s, s.threads[t]);
    assert HeldOk(s, t, OrderIds) && HeldOk(s, t, RecordIds) && HeldOk(s, t, TaskIds);
    if s.threads[t].op.Receive? { assert s.threads[t].x.orderId !in Used(s, OrderIds); }
  }

  lemma CurrentFits(s: State, th: Thread)
    requires th.Computed? && ThreadOk(s, th) && SeesCurrent(s, th) && ChainsOk(s)
    requires HistoryOf(s.store.records, th.effect.id) == [] || th.effect.id in s.store.orders
    requires th.effect.Put? ==> th.x.taskId !in Used(s, TaskIds) && th.x.recordId !in Used(s, RecordIds)
    ensures Fits(s, th.effect, Committed(th.op, th.x))
  {
    EffectIsCurrent(s, th);
    var seen := Lookup(s.store, th.effect.id);
    DecisionShape(th.op, seen, th.x);
    if th.effect.Put? {
      TransitionKeepsOrder(th.op, seen, HistoryOf(s.store.records, th.effect.id), th.x, th.snap.now, s.now, s.strict);
    }
  }

  lemma CommitFits(s: State, t: nat, replied: bool, s': State)
    requires Inv(s) && Commits(s, t, replied, s')
    ensures t in s.threads && s.threads[t].Computed?
    ensures Fits(s, s.threads[t].effect, Committed(s.threads[t].op, s.threads[t].x))
    ensures Follows(s, s.threads[t].effect, Committed(s.threads[t].op, s.threads[t].x), s')
    ensures s'.threads == if replied then s.threads[t := Publishing(WriteFor(s.threads[t].effect))] else s.threads - {t}
  {
    CommitSeesCurrent(s, t, replied, s');
    CurrentFits(s, s.threads[t]);
  }

  lemma OrderCommit(s: State, e: Effect, c: Committed, s': State, id: nat)
    requires Fits(s, e, c) && Follows(s, e, c, s')
    requires id in s.store.orders ==> OrderOk(s.store.orders[id], HistoryOf(s.store.records, id), s.now, s.strict)
    requires id !in s.store.orders ==> HistoryOf(s.store.records, id) == []
    ensures id in s'.store.orders ==> OrderOk(s'.store.orders[id], HistoryOf(s'.store.records, id), s'.now, s'.strict)
    ensures id !in s'.store.orders ==> HistoryOf(s'.store.records, id) == []
  {
    HistoryAfter(s.store, e, id);
  }

  lemma StoreCommit(s: State, e: Effect, c: Committed, s': State)
    requires StoreOk(s.store, s.now, s.strict) && Fits(s, e, c) && Follows(s, e, c, s')
    ensures StoreOk(s'.store, s'.now, s'.strict)
  {
    forall id: nat
      ensures id in s'.store.orders ==> OrderOk(s'.store.orders[id], HistoryOf(s'.store.records, id), s'.now, s'.strict)
      ensures id !in s'.store.orders ==> HistoryOf(s'.store.records, id) == []
    {
      OrderCommit(s, e, c, s', id);
    }
  }

  lemma VersionCommit(s: State, e: Effect, c: Committed, s': State, snap: Snapshot, id: nat)
    requires Fits(s, e, c) && Follows(s, e, c, s') && VersionOk(s, snap, id) && StoreOk(snap.store, snap.now, s.strict)
    ensures VersionOk(s', snap, id)
  {
    HistoryAfter(s.store, e, id);
  }

  lemma ThreadCommit(s: State, e: Effect, c: Committed, s': State, th: Thread)
    requires Fits(s, e, c) && Follows(s, e, c, s') && ThreadOk(s, th)
    ensures ThreadOk(s', th)
  {
    if th.Running? || th.Computed? {
      forall id ensures VersionOk(s', th.snap, id) {
        assert VersionOk(s, th.snap, id);
        VersionCommit(s, e, c, s', th.snap, id);
      }
    }
  }

  /** Committing uses only values the committing transaction held. */
  lemma UsedCommit(s: State, e: Effect, c: Committed, s': State, k: Sequence, v: nat)
    requires ChainsOk(s) && Fits(s, e, c) && Follows(s, e, c, s') && v in Used(s', k) && v !in Used(s, k)
    ensures e.Put? && v == (match k case OrderIds => e.id case RecordIds => e.entry.id case TaskIds => e.taskId)
    ensures k == OrderIds ==> c.op.Receive?
  {
  }

  lemma UsedWasHeld(s: State, th: Thread, s': State, k: Sequence, v: nat)
    requires th.Computed? && ThreadOk(s, th) && ChainsOk(s)
    requires Fits(s, th.effect, Committed(th.op, th.x)) && Follows(s, th.effect, Committed(th.op, th.x), s')
    requires v in Used(s', k) && v !in Used(s, k)
    ensures Holds(th, k) && th.ids[k] == v
  {
    UsedCommit(s, th.effect, Committed(th.op, th.x), s', k, v);
    DecisionShape(th.op, Seen(th.op, th.snap.store), th.x);
  }

  /** What the commit of thread `t` does to the values held and used. */
  ghost predicate Releases(s: State, t: nat, s': State) {
    && s'.counters == s.counters
    && OthersSame(s, s', t)
    && t in s.threads
    && (t in s'.threads ==> s'.threads[t].Publishing?)
    && (forall k, v :: v in Used(s', k) && v !in Used(s, k) ==> Holds(s.threads[t], k) && s.threads[t].ids[k] == v)
  }

  lemma CommitReleases(s: State, t: nat, s': State)
    requires t in s.threads && s.threads[t].Computed? && ThreadOk(s, s.threads[t]) && ChainsOk(s)
    requires var th := s.threads[t];
             Fits(s, th.effect, Committed(th.op, th.x)) && Follows(s, th.effect, Committed(th.op, th.x), s')
    requires OthersSame(s, s', t) && (t in s'.threads ==> s'.threads[t].Publishing?)
    ensures Releases(s, t, s')
  {
    forall k, v | v in Used(s', k) && v !in Used(s, k) ensures Holds(s.threads[t], k) && s.threads[t].ids[k] == v {
      UsedWasHeld(s, s.threads[t], s', k, v);
    }
  }

  lemma IdsCommit(s: State, t: nat, s': State)
    requires IdsOk(s) && Releases(s, t, s')
    ensures IdsOk(s')
  {
    forall u, k ensures HeldOk(s', u, k) {
      assert HeldOk(s, u, k) && ApartOk(s, t, u, k);
    }
    forall u, w, k ensures ApartOk(s', u, w, k) {
      assert ApartOk(s, u, w, k);
    }
    forall k, v | v in Used(s', k) ensures v < s'.counters.At(k) {
      assert HeldOk(s, t, k);
    }
  }

  lemma ChainsCommit(s: State, e: Effect, c: Committed, s': State)
    requires ChainsOk(s) && Fits(s, e, c) && Follows(s, e, c, s')
    ensures ChainsOk(s')
  {
    assert s'.chains == if e.Put? then s.chains[e.id := Chain(s.chains, e.id) + [e.row]] else s.chains;
    assert s'.store.orders == if e.Put? then s.store.orders[e.id := e.row] else s.store.orders - {e.id};
  }

  lemma TrailGrows(s: State, e: Effect, c: Committed, s': State)
    requires e.Put? && ChainsOk(s) && TrailOk(s, e.id) && Fits(s, e, c) && Follows(s, e, c, s')
    requires e.id !in s.store.orders ==> HistoryOf(s.store.records, e.id) == []
    ensures TrailOk(s', e.id)
  {
    var trail, chain := HistoryOf(s.entries, e.id), Chain(s.chains, e.id);
    HistoryAfter(s.store, e, e.id);
    HistoryOfAppend(s.entries, e.entry, e.id);
    assert HistoryOf(s'.entries, e.id) == trail + [e.entry.record] && Chain(s'.chains, e.id) == chain + [e.row];
    assert Statuses(trail + [e.entry.record]) == Statuses(trail) + [e.row.status];
  }

  lemma TrailStays(s: State, e: Effect, c: Committed, s': State, id: nat)
    requires TrailOk(s, id) && Fits(s, e, c) && Follows(s, e, c, s') && (id != e.id || e.Drop?)
    ensures TrailOk(s', id)
  {
    HistoryAfter(s.store, e, id);
    if e.Put? { HistoryOfAppend(s.entries, e.entry, id); }
  }

  lemma TrailCommit(s: State, e: Effect, c: Committed, s': State, id: nat)
    requires ChainsOk(s) && TrailOk(s, id) && Fits(s, e, c) && Follows(s, e, c, s')
    requires id !in s.store.orders ==> HistoryOf(s.store.records, id) == []
    ensures TrailOk(s', id)
  {
    if id == e.id && e.Put? {
      TrailGrows(s, e, c, s');
    } else {
      TrailStays(s, e, c, s', id);
    }
  }

  lemma LogGrows(s: State, e: Effect, c: Committed, s': State)
    requires LogOk(s) && e.Put? && Fits(s, e, c) && Follows(s, e, c, s')
    ensures LogOk(s')
  {
  }

  lemma LogCommit(s: State, e: Effect, c: Committed, s': State)
    requires LogOk(s) && Fits(s, e, c) && Follows(s, e, c, s')
    ensures LogOk(s')
  {
    if e.Put? { LogGrows(s, e, c, s'); }
  }

  lemma RemovedCommit(s: State, e: Effect, c: Committed, s': State, id: nat)
    requires ChainsOk(s) && TrailOk(s, id) && RemovedOk(s, id) && Fits(s, e, c) && Follows(s, e, c, s')
    ensures RemovedOk(s', id)
  {
    if id in s'.chains && id !in s'.store.orders {
      if id in s.store.orders {
        assert s'.commits[|s.commits|] == c;
        assert s.store.orders[id] == s.chains[id][|s.chains[id]| - 1];
      } else {
        var j :| 0 <= j < |s.commits| && s.commits[j].op == Return(id) && s.chains[id] != []
                 && s.chains[id][0].expirationDate < s.commits[j].x.check;
        assert s'.commits[j] == s.commits[j];
      }
    }
  }

  lemma CacheCommit(s: State, e: Effect, c: Committed, s': State, t: nat, replied: bool)
    requires CacheOk(s) && Follows(s, e, c, s')
    requires s'.threads == if replied then s.threads[t := Publishing(WriteFor(e))] else s.threads - {t}
    ensures CacheOk(s')
  {
  }

  lemma WordsCommit(s: State, e: Effect, c: Committed, s': State)
    requires WordsOk(s) && Fits(s, e, c) && Follows(s, e, c, s')
    ensures WordsOk(s')
  {
  }

  lemma ReplayCommit(s: State, e: Effect, c: Committed, s': State)
    requires Replay(s.commits) == Some(s.store) && Fits(s, e, c) && Follows(s, e, c, s')
    ensures Replay(s'.commits) == Some(s'.store)
  {
  }

  lemma TablesCommit(s: State, e: Effect, c: Committed, s': State)
    requires TablesOk(s) && Fits(s, e, c) && Follows(s, e, c, s')
    ensures TablesOk(s')
  {
    StoreCommit(s, e, c, s');
    ChainsCommit(s, e, c, s');
    LogCommit(s, e, c, s');
    WordsCommit(s, e, c, s');
    ReplayCommit(s, e, c, s');
    forall id ensures TrailOk(s', id) && RemovedOk(s', id) {
      assert TrailOk(s, id) && RemovedOk(s, id);
      TrailCommit(s, e, c, s', id);
      RemovedCommit(s, e, c, s', id);
    }
  }

  lemma ThreadsCommit(s: State, e: Effect, c: Committed, s': State, t: nat)
    requires ThreadsOk(s) && Fits(s, e, c) && Follows(s, e, c, s')
    requires OthersSame(s, s', t) && (t in s'.threads ==> s'.threads[t].Publishing?)
    ensures ThreadsOk(s')
  {
    forall u | u in s'.threads ensures ThreadOk(s', s'.threads[u]) {
      if u != t { ThreadCommit(s, e, c, s', s.threads[u]); }
    }
  }

  lemma ThreadLeaves(s: State, e: Effect, c: Committed, s': State, t: nat, replied: bool)
    requires ThreadsOk(s) && IdsOk(s) && CacheOk(s) && ChainsOk(s) && Fits(s, e, c) && Follows(s, e, c, s')
    requires t in s.threads && s.threads[t].Computed? && s.threads[t].effect == e
              && c == Committed(s.threads[t].op, s.threads[t].x)
    requires s'.threads == if replied then s.threads[t := Publishing(WriteFor(e))] else s.threads - {t}
    ensures ThreadsOk(s') && IdsOk(s') && CacheOk(s')
  {
    ThreadsCommit(s, e, c, s', t);
    CacheCommit(s, e, c, s', t, replied);
    CommitReleases(s, t, s');
    IdsCommit(s, t, s');
  }

  lemma CommitKeeps(s: State, t: nat, replied: bool, s': State)
    requires Inv(s) && Commits(s, t, replied, s')
    ensures Inv(s')
  {
    CommitFits(s, t, replied, s');
    var e, c := s.threads[t].effect, Committed(s.threads[t].op, s.threads[t].x);
    TablesCommit(s, e, c, s');
    ThreadLeaves(s, e, c, s', t, replied);
  }

  lemma {:induction false} Reachable(strict: bool, run: seq<Action>)
    ensures After(strict, run).Some? ==> Inv(After(strict, run).value)
  {
    if run == [] {
      assert forall id :: TrailOk(Init(strict), id);
    } else if After(strict, run).Some? {
      var n := |run| - 1;
      Reachable(strict, run[..n]);
      var s, a := After(strict, run[..n]).value, run[n];
      if a.CommitTx? {
        CommitKeeps(s, a.t, a.replied, Next(s, a).value);
      } else {
        LocalKeeps(s, a);
      }
    }
  }
}
