/** DeliverOrders and RefundOrders when no other request overlaps: exactly what success and failure
    say about the tables. */
module Batches {
  import opened Domain
  import opened Tables
  import opened Transactions
  import opened Requests

  function From(kind: Kind): Status {
    match kind case Delivering => Received case Refunding => Delivered
  }

  /** The row a transition leaves behind. */
  function Moved(kind: Kind, row: OrderRow, env: Env): OrderRow {
    match kind
    case Delivering =>
      if row.expirationDate < env.check then row.(status := Expired)
      else row.(status := Delivered, deliveredDate := Some(env.change))
    case Refunding => row.(status := Refunded, refundedDate := Some(env.change))
  }

  predicate Eligible(s: Store, kind: Kind, id: nat, recipientId: int) {
    && id in s.orders && s.orders[id].recipientId == recipientId && s.orders[id].status == From(kind)
    && (kind.Refunding? ==> s.orders[id].deliveredDate.Some?)
  }

  /** A single request changes the tables exactly when the order is eligible, no call fails and the
      commit takes effect; it reports success when the reply and the cache write arrive as well. */
  lemma OneRequest(w: World, kind: Kind, id: nat, recipientId: int, env: Env)
    ensures var op := OpFor(kind, id, recipientId); var (w', error) := Serve(w, op, env);
            var commits := Eligible(w.store, kind, id, recipientId) && !env.faults.begin && !env.faults.read
                           && !Faulty(op, env.faults) && !env.reply.Refused?;
            && (commits ==>
                w'.store == Apply(w.store,
                                  Transition(id, Moved(kind, w.store.orders[id], env), InputsOf(env, w.counters))))
            && (!commits ==> w'.store == w.store)
            && (error.None? <==> commits && env.reply.Acknowledged? && env.cached.Acknowledged?)
            && (error == Some(CacheFault) <==> commits && env.reply.Acknowledged? && !env.cached.Acknowledged?)
            && (error == Some(CommitReplyLost) <==> commits && env.reply.ReplyLost?)
  {
  }

  ghost predicate Distinct(ids: seq<nat>) {
    forall i, j :: 0 <= i < j < |ids| ==> ids[i] != ids[j]
  }

  /** What DeliverOrders or RefundOrders did to the orders when it returned nil. */
  ghost predicate AllMoved(before: Store, kind: Kind, ids: seq<nat>, recipientId: int, envs: seq<Env>, after: Store)
    requires |envs| == |ids|
  {
    && Distinct(ids)
    && (forall i :: 0 <= i < |ids| ==> Eligible(before, kind, ids[i], recipientId))
    && (forall i :: 0 <= i < |ids| ==>
        ids[i] in after.orders && after.orders[ids[i]] == Moved(kind, before.orders[ids[i]], envs[i]))
    && (forall id :: id !in ids ==> Lookup(after, id) == Lookup(before, id))
    && |after.records| == |before.records| + |ids|
  }

  lemma {:induction false} BatchSuccess(w: World, kind: Kind, ids: seq<nat>, recipientId: int, envs: seq<Env>)
    requires |envs| == |ids| && Batch(w, kind, ids, recipientId, envs).1.None?
    ensures AllMoved(w.store, kind, ids, recipientId, envs, Batch(w, kind, ids, recipientId, envs).0.store)
    decreases |ids|
  {
    if ids != [] {
      var id, env := ids[0], envs[0];
      OneRequest(w, kind, id, recipientId, env);
      var w1 := Serve(w, OpFor(kind, id, recipientId), env).0;
      BatchSuccess(w1, kind, ids[1..], recipientId, envs[1..]);
      AllMovedCons(w.store, kind, ids, recipientId, envs, w1.store, Batch(w, kind, ids, recipientId, envs).0.store);
    }
  }

  lemma AllMovedCons(before: Store, kind: Kind, ids: seq<nat>, recipientId: int, envs: seq<Env>, mid: Store,
                     after: Store)
    requires |envs| == |ids| && ids != [] && Eligible(before, kind, ids[0], recipientId)
    requires mid.orders == before.orders[ids[0] := Moved(kind, before.orders[ids[0]], envs[0])]
    requires |mid.records| == |before.records| + 1
    requires AllMoved(mid, kind, ids[1..], recipientId, envs[1..], after)
    ensures AllMoved(before, kind, ids, recipientId, envs, after)
  {
    var rest := ids[1..];
    assert forall i :: 0 <= i < |rest| ==> rest[i] == ids[i + 1] && envs[1..][i] == envs[i + 1];
    forall i | 1 <= i < |ids| ensures ids[i] != ids[0] && Eligible(before, kind, ids[i], recipientId)
      && ids[i] in after.orders && after.orders[ids[i]] == Moved(kind, before.orders[ids[i]], envs[i])
    {
      assert Eligible(mid, kind, rest[i - 1], recipientId);
    }
    forall i, j | 0 <= i < j < |ids| ensures ids[i] != ids[j] {
      if i > 0 { assert rest[i - 1] != rest[j - 1]; }
    }
    assert ids[0] !in rest;
    assert Lookup(after, ids[0]) == Lookup(mid, ids[0]);
    forall id | id !in ids ensures Lookup(after, id) == Lookup(before, id) {
      assert id !in rest && id != ids[0];
    }
  }

  /** No call of the request fails and both replies arrive. */
  predicate Clean(kind: Kind, env: Env) {
    && !env.faults.begin && !env.faults.read && !Faulty(OpFor(kind, 0, 0), env.faults)
    && env.reply.Acknowledged? && env.cached.Acknowledged?
  }

  ghost predicate AllReady(s: Store, kind: Kind, ids: seq<nat>, recipientId: int, envs: seq<Env>)
    requires |envs| == |ids|
  {
    forall i :: 0 <= i < |ids| ==> Eligible(s, kind, ids[i], recipientId) && Clean(kind, envs[i])
  }

  /** Moving one order takes it off the eligible ones and leaves the others as they were. */
  lemma ReadyNext(w: World, kind: Kind, ids: seq<nat>, recipientId: int, envs: seq<Env>)
    requires |envs| == |ids| && ids != [] && Serve(w, OpFor(kind, ids[0], recipientId), envs[0]).1.None?
    ensures var w1 := Serve(w, OpFor(kind, ids[0], recipientId), envs[0]).0;
            Distinct(ids) && AllReady(w.store, kind, ids, recipientId, envs)
            <==> Distinct(ids[1..]) && AllReady(w1.store, kind, ids[1..], recipientId, envs[1..])
  {
  }

  /** Exactly when a batch returns nil: the ids are distinct, every order was eligible at the start, and
      nothing failed. */
  lemma {:induction false} BatchSucceedsWhen(w: World, kind: Kind, ids: seq<nat>, recipientId: int, envs: seq<Env>)
    requires |envs| == |ids|
    ensures Batch(w, kind, ids, recipientId, envs).1.None?
            <==> Distinct(ids) && AllReady(w.store, kind, ids, recipientId, envs)
    decreases |ids|
  {
    if ids != [] {
      OneRequest(w, kind, ids[0], recipientId, envs[0]);
      var (w1, error) := Serve(w, OpFor(kind, ids[0], recipientId), envs[0]);
      if error.None? {
        ReadyNext(w, kind, ids, recipientId, envs);
        BatchSucceedsWhen(w1, kind, ids[1..], recipientId, envs[1..]);
      }
    }
  }

  function Entry(kind: Kind, row: OrderRow, env: Env): Record {
    NewRecord(Moved(kind, row, env).status, env.record)
  }

  function TaskFor(entry: Record, time: Time): TaskRow {
    TaskRow(Created, time, entry.status, entry.description, entry.timestamp)
  }

  /** One history record per id, and none for any other order. */
  ghost predicate HistoriesLogged(before: Store, kind: Kind, ids: seq<nat>, envs: seq<Env>, after: Store)
    requires |envs| == |ids|
  {
    && (forall i :: 0 <= i < |ids| ==>
          ids[i] in before.orders
          && HistoryOf(after.records, ids[i])
              == HistoryOf(before.records, ids[i]) + [Entry(kind, before.orders[ids[i]], envs[i])])
    && (forall id :: id !in ids ==> HistoryOf(after.records, id) == HistoryOf(before.records, id))
  }

  /** The move of order `id` was announced by the task with key `k`. */
  predicate Announced(before: Store, kind: Kind, id: nat, env: Env, after: Store, k: nat) {
    && id in before.orders
    && k in after.outbox && after.outbox[k] == TaskFor(Entry(kind, before.orders[id], env), env.task)
  }

  /** One outbox task per id under consecutive keys from `first` on, and no other task touched. */
  ghost predicate TasksLogged(before: Store, first: nat, kind: Kind, ids: seq<nat>, envs: seq<Env>, after: Store)
    requires |envs| == |ids|
  {
    && (forall i :: 0 <= i < |ids| ==> Announced(before, kind, ids[i], envs[i], after, first + i))
    && (forall k: nat :: k < first || k >= first + |ids| ==>
          (k in after.outbox <==> k in before.outbox) && (k in after.outbox ==> after.outbox[k] == before.outbox[k]))
  }

  /** What a successful request leaves behind. */
  lemma SuccessShape(w: World, kind: Kind, id: nat, recipientId: int, env: Env)
    requires Serve(w, OpFor(kind, id, recipientId), env).1.None?
    ensures id in w.store.orders
    ensures var w' := Serve(w, OpFor(kind, id, recipientId), env).0;
            var entry := Entry(kind, w.store.orders[id], env);
            && w'.store == Store(w.store.orders[id := Moved(kind, w.store.orders[id], env)],
                                 w.store.records + [RecordRow(w.counters.records, id, entry)],
                                 w.store.outbox[w.counters.tasks := TaskFor(entry, env.task)])
            && w'.counters.tasks == w.counters.tasks + 1
            && (forall j :: HistoryOf(w'.store.records, j) ==
                            if j == id then HistoryOf(w.store.records, j) + [entry] else HistoryOf(w.store.records, j))
  {
  }

  lemma {:induction false} OthersUnlogged(w: World, kind: Kind, ids: seq<nat>, recipientId: int, envs: seq<Env>,
                                          id: nat, k: nat)
    requires |envs| == |ids| && Batch(w, kind, ids, recipientId, envs).1.None?
    ensures var after := Batch(w, kind, ids, recipientId, envs).0.store;
            && (id !in ids ==> HistoryOf(after.records, id) == HistoryOf(w.store.records, id))
            && (k < w.counters.tasks || k >= w.counters.tasks + |ids| ==>
                  (k in after.outbox <==> k in w.store.outbox)
                      && (k in after.outbox ==> after.outbox[k] == w.store.outbox[k]))
    decreases |ids|
  {
    if ids != [] {
      SuccessShape(w, kind, ids[0], recipientId, envs[0]);
      var w1 := Serve(w, OpFor(kind, ids[0], recipientId), envs[0]).0;
      OthersUnlogged(w1, kind, ids[1..], recipientId, envs[1..], id, k);
      assert id !in ids ==> id != ids[0] && id !in ids[1..];
    }
  }

  lemma {:induction false} LoggedAt(w: World, kind: Kind, ids: seq<nat>, recipientId: int, envs: seq<Env>, i: nat)
    requires |envs| == |ids| && Batch(w, kind, ids, recipientId, envs).1.None? && i < |ids| && Distinct(ids)
    ensures ids[i] in w.store.orders
    ensures var after := Batch(w, kind, ids, recipientId, envs).0.store; var k := w.counters.tasks + i;
            var entry := Entry(kind, w.store.orders[ids[i]], envs[i]);
            && HistoryOf(after.records, ids[i]) == HistoryOf(w.store.records, ids[i]) + [entry]
            && k in after.outbox && after.outbox[k] == TaskFor(entry, envs[i].task)
    decreases |ids|
  {
    SuccessShape(w, kind, ids[0], recipientId, envs[0]);
    var w1 := Serve(w, OpFor(kind, ids[0], recipientId), envs[0]).0;
    if i == 0 {
      OthersUnlogged(w1, kind, ids[1..], recipientId, envs[1..], ids[0], w.counters.tasks);
    } else {
      LoggedAt(w1, kind, ids[1..], recipientId, envs[1..], i - 1);
      assert ids[0] != ids[i];
    }
  }

  lemma BatchHistories(w: World, kind: Kind, ids: seq<nat>, recipientId: int, envs: seq<Env>)
    requires |envs| == |ids| && Batch(w, kind, ids, recipientId, envs).1.None? && Distinct(ids)
    ensures HistoriesLogged(w.store, kind, ids, envs, Batch(w, kind, ids, recipientId, envs).0.store)
  {
    var after := Batch(w, kind, ids, recipientId, envs).0.store;
    forall id: nat | id !in ids ensures HistoryOf(after.records, id) == HistoryOf(w.store.records, id) {
      OthersUnlogged(w, kind, ids, recipientId, envs, id, 0);
    }
    forall i | 0 <= i < |ids|
      ensures ids[i] in w.store.orders
      ensures HistoryOf(after.records, ids[i])
                == HistoryOf(w.store.records, ids[i]) + [Entry(kind, w.store.orders[ids[i]], envs[i])]
    {
      LoggedAt(w, kind, ids, recipientId, envs, i);
    }
  }

  lemma BatchTasks(w: World, kind: Kind, ids: seq<nat>, recipientId: int, envs: seq<Env>)
    requires |envs| == |ids| && Batch(w, kind, ids, recipientId, envs).1.None? && Distinct(ids)
    ensures TasksLogged(w.store, w.counters.tasks, kind, ids, envs, Batch(w, kind, ids, recipientId, envs).0.store)
  {
    var after, first := Batch(w, kind, ids, recipientId, envs).0.store, w.counters.tasks;
    forall i | 0 <= i < |ids| ensures Announced(w.store, kind, ids[i], envs[i], after, first + i) {
      LoggedAt(w, kind, ids, recipientId, envs, i);
    }
    forall k: nat | k < first || k >= first + |ids|
      ensures (k in after.outbox <==> k in w.store.outbox)
                && (k in after.outbox ==> after.outbox[k] == w.store.outbox[k])
    {
      OthersUnlogged(w, kind, ids, recipientId, envs, 0, k);
    }
  }

  /** A batch that returned nil wrote exactly one record and one task for each of its ids. */
  lemma BatchLogs(w: World, kind: Kind, ids: seq<nat>, recipientId: int, envs: seq<Env>)
    requires |envs| == |ids| && Batch(w, kind, ids, recipientId, envs).1.None?
    ensures var after := Batch(w, kind, ids, recipientId, envs).0.store;
            HistoriesLogged(w.store, kind, ids, envs, after)
                && TasksLogged(w.store, w.counters.tasks, kind, ids, envs, after)
  {
    BatchSuccess(w, kind, ids, recipientId, envs);
    BatchHistories(w, kind, ids, recipientId, envs);
    BatchTasks(w, kind, ids, recipientId, envs);
  }

  /** The single-order transitions of a list of ids one after the other, none of them failing to reply. */
  function FoldAll(s: Store, c: Counters, kind: Kind, ids: seq<nat>, recipientId: int, envs: seq<Env>)
    : (Store, Counters)
    requires |envs| == |ids|
    decreases |ids|
  {
    if ids == [] then (s, c)
    else
      var o := RunTx(s, c, OpFor(kind, ids[0], recipientId), envs[0].(reply := Acknowledged));
      FoldAll(o.store, o.counters, kind, ids[1..], recipientId, envs[1..])
  }

  /** How many transactions of the batch had committed when it stopped at index `n`: the ids before
      it, and `n` itself exactly when its commit took effect but its reply or cache write did not. */
  function Kept(n: nat, error: Error): nat {
    if error == CacheFault || error == CommitReplyLost then n + 1 else n
  }

  /** The index at which the batch stops with an error. */
  function StopsAt(w: World, kind: Kind, ids: seq<nat>, recipientId: int, envs: seq<Env>): nat
    requires |envs| == |ids|
    decreases |ids|
  {
    if ids == [] then 0
    else
      var (w', error) := Serve(w, OpFor(kind, ids[0], recipientId), envs[0]);
      if error.Some? then 0 else 1 + StopsAt(w', kind, ids[1..], recipientId, envs[1..])
  }

  /** The ids before the stopping index all succeeded, and the request at the index is the one that
      returned the error. */
  lemma {:induction false} BatchStops(w: World, kind: Kind, ids: seq<nat>, recipientId: int, envs: seq<Env>)
    requires |envs| == |ids| && Batch(w, kind, ids, recipientId, envs).1.Some?
    ensures StopsAt(w, kind, ids, recipientId, envs) < |ids|
    ensures var n := StopsAt(w, kind, ids, recipientId, envs);
            var sofar := Batch(w, kind, ids[..n], recipientId, envs[..n]);
            && sofar.1.None?
            && Serve(sofar.0, OpFor(kind, ids[n], recipientId), envs[n]) == Batch(w, kind, ids, recipientId, envs)
    decreases |ids|
  {
    var (w1, e1) := Serve(w, OpFor(kind, ids[0], recipientId), envs[0]);
    if e1.None? {
      BatchStops(w1, kind, ids[1..], recipientId, envs[1..]);
      var n := StopsAt(w, kind, ids, recipientId, envs);
      assert ids[..n][1..] == ids[1..][..n - 1] && envs[..n][1..] == envs[1..][..n - 1];
    }
  }

  /** A batch without error is the fold of its transitions. */
  lemma {:induction false} BatchFolds(w: World, kind: Kind, ids: seq<nat>, recipientId: int, envs: seq<Env>)
    requires |envs| == |ids| && Batch(w, kind, ids, recipientId, envs).1.None?
    ensures var w' := Batch(w, kind, ids, recipientId, envs).0;
            FoldAll(w.store, w.counters, kind, ids, recipientId, envs) == (w'.store, w'.counters)
    decreases |ids|
  {
    if ids != [] {
      OneRequest(w, kind, ids[0], recipientId, envs[0]);
      BatchFolds(Serve(w, OpFor(kind, ids[0], recipientId), envs[0]).0, kind, ids[1..], recipientId, envs[1..]);
    }
  }

  lemma {:induction false} FoldAppend(s: Store, c: Counters, kind: Kind, ids: seq<nat>, recipientId: int,
                                      envs: seq<Env>, id: nat, env: Env)
    requires |envs| == |ids|
    ensures var (s1, c1) := FoldAll(s, c, kind, ids, recipientId, envs);
            var o := RunTx(s1, c1, OpFor(kind, id, recipientId), env.(reply := Acknowledged));
            FoldAll(s, c, kind, ids + [id], recipientId, envs + [env]) == (o.store, o.counters)
    decreases |ids|
  {
    if ids != [] {
      var o := RunTx(s, c, OpFor(kind, ids[0], recipientId), envs[0].(reply := Acknowledged));
      FoldAppend(o.store, o.counters, kind, ids[1..], recipientId, envs[1..], id, env);
      assert (ids + [id])[1..] == ids[1..] + [id] && (envs + [env])[1..] == envs[1..] + [env];
    } else {
      assert ([id])[1..] == [] && ([env])[1..] == [];
      assert ids + [id] == [id] && envs + [env] == [env];
    }
  }

  /** A failed batch leaves the tables as the fold of the single transitions over a prefix of its ids:
      those before the failing one, and the failing one itself exactly when the error came after its
      commit. */
  lemma BatchFailure(w: World, kind: Kind, ids: seq<nat>, recipientId: int, envs: seq<Env>)
    requires |envs| == |ids| && Batch(w, kind, ids, recipientId, envs).1.Some?
    ensures StopsAt(w, kind, ids, recipientId, envs) < |ids|
    ensures var (w', error) := Batch(w, kind, ids, recipientId, envs);
            var k := Kept(StopsAt(w, kind, ids, recipientId, envs), error.value);
            w'.store == FoldAll(w.store, w.counters, kind, ids[..k], recipientId, envs[..k]).0
  {
    BatchStops(w, kind, ids, recipientId, envs);
    var n := StopsAt(w, kind, ids, recipientId, envs);
    var w1 := Batch(w, kind, ids[..n], recipientId, envs[..n]).0;
    BatchFolds(w, kind, ids[..n], recipientId, envs[..n]);
    OneRequest(w1, kind, ids[n], recipientId, envs[n]);
    FoldAppend(w.store, w.counters, kind, ids[..n], recipientId, envs[..n], ids[n], envs[n]);
    assert ids[..n] + [ids[n]] == ids[..n + 1] && envs[..n] + [envs[n]] == envs[..n + 1];
  }
}
