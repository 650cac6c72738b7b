/** The order service and the outbox pipeline together: a commit that logs a transition inserts its
    task into the pipeline's table in the same step; all other steps interleave freely. */
module EndToEnd {
  import opened Domain
  import opened Tables
  import O = Interleaving
  import OS = Serializability
  import G = OrderGuarantees
  import P = Pipeline
  import D = Delivery
  import OR = Runs
  import R = Producer

  datatype State = State(orders: O.State, pipe: P.State)

  datatype Action = Request(a: O.Action) | Transport(b: P.Action)

  /** The outbox row that step `a` commits, if any. */
  function Inserted(s: O.State, a: O.Action): Option<(nat, TaskRow)> {
    if a.CommitTx? && a.t in s.threads && s.threads[a.t].Computed? && s.threads[a.t].effect.Put?
    then Some((s.threads[a.t].effect.taskId, s.threads[a.t].effect.task))
    else None
  }

  ghost function Next(s: State, a: Action): Option<State> {
    match a
    case Request(r) =>
      var o := O.Next(s.orders, r);
      if o.None? then None
      else (match Inserted(s.orders, r)
            case None => Some(State(o.value, s.pipe))
            case Some((id, task)) =>
              var p := P.Next(s.pipe, P.Insert(id, task));
              if p.None? then None else Some(State(o.value, p.value)))
    case Transport(b) =>
      if b.Insert? then None
      else
        var p := P.Next(s.pipe, b);
        if p.None? then None else Some(State(s.orders, p.value))
  }

  function Start(strict: bool, config: P.Config): State {
    State(O.Init(strict), P.Init(config))
  }

  ghost function After(s: State, run: seq<Action>): Option<State> {
    if run == [] then Some(s)
    else
      var before := After(s, run[..|run| - 1]);
      if before.None? then None else Next(before.value, run[|run| - 1])
  }

  /** The pipeline's rows are the committed tasks, up to their delivery status. */
  ghost predicate Linked(s: State) {
    && s.pipe.committed == s.orders.store.outbox.Keys
    && (forall id :: id in s.pipe.rows ==>
          id in s.orders.store.outbox && s.pipe.rows[id].(status := Created) == s.orders.store.outbox[id])
  }

  ghost predicate Inv(s: State) {
    O.Inv(s.orders) && P.Inv(s.pipe) && Linked(s)
  }

  ghost predicate OutboxFollows(s: O.State, a: O.Action, s': O.State) {
    match Inserted(s, a)
    case None => s'.store.outbox == s.store.outbox
    case Some((id, task)) =>
      id !in s.store.outbox && task.status == Created && s'.store.outbox == s.store.outbox[id := task]
  }

  lemma CommitOutbox(s: O.State, t: nat, replied: bool, s': O.State)
    requires OS.Commits(s, t, replied, s')
    requires var th := s.threads[t];
             OS.Fits(s, th.effect, O.Committed(th.op, th.x)) && OS.Follows(s, th.effect, O.Committed(th.op, th.x), s')
    ensures OutboxFollows(s, O.CommitTx(t, replied), s')
  {
  }

  lemma OrdersKeep(s: O.State, a: O.Action)
    requires O.Inv(s) && O.Next(s, a).Some?
    ensures O.Inv(O.Next(s, a).value) && OutboxFollows(s, a, O.Next(s, a).value)
  {
    var s' := O.Next(s, a).value;
    if a.CommitTx? {
      assert OS.Commits(s, a.t, a.replied, s');
      assert OutboxFollows(s, a, s') by {
        OS.CommitFits(s, a.t, a.replied, s');
        CommitOutbox(s, a.t, a.replied, s');
      }
      OS.CommitKeeps(s, a.t, a.replied, s');
    } else {
      OS.LocalShape(s, a);
      OS.LocalKeeps(s, a);
    }
  }

  lemma TransportLinked(p: P.State, b: P.Action, outbox: map<nat, TaskRow>)
    requires !b.Insert? && P.Next(p, b).Some?
    requires forall id :: id in p.rows ==> id in outbox && p.rows[id].(status := Created) == outbox[id]
    ensures var p' := P.Next(p, b).value;
            && p'.committed == p.committed
            && forall id :: id in p'.rows ==> id in outbox && p'.rows[id].(status := Created) == outbox[id]
  {
  }

  lemma InsertLinks(s: State, id: nat, task: TaskRow, o: O.State)
    requires Linked(s) && id !in s.orders.store.outbox && task.status == Created
    requires o.store.outbox == s.orders.store.outbox[id := task]
    ensures P.Next(s.pipe, P.Insert(id, task)).Some?
    ensures Linked(State(o, P.Next(s.pipe, P.Insert(id, task)).value))
  {
  }

  lemma RequestKeeps(s: State, r: O.Action)
    requires Inv(s) && O.Next(s.orders, r).Some?
    ensures Next(s, Request(r)).Some? && Inv(Next(s, Request(r)).value)
  {
    OrdersKeep(s.orders, r);
    if Inserted(s.orders, r).Some? {
      var (id, task) := Inserted(s.orders, r).value;
      InsertLinks(s, id, task, O.Next(s.orders, r).value);
      P.InvStep(s.pipe, P.Insert(id, task));
    }
  }

  lemma InvStep(s: State, a: Action)
    requires Inv(s) && Next(s, a).Some?
    ensures Inv(Next(s, a).value)
  {
    match a
    case Request(r) => RequestKeeps(s, r);
    case Transport(b) =>
      P.InvStep(s.pipe, b);
      TransportLinked(s.pipe, b, s.orders.store.outbox);
  }

  lemma {:induction false} InvAlong(s: State, run: seq<Action>)
    requires Inv(s) && After(s, run).Some?
    ensures Inv(After(s, run).value)
  {
    if run != [] {
      InvAlong(s, run[..|run| - 1]);
      InvStep(After(s, run[..|run| - 1]).value, run[|run| - 1]);
    }
  }

  lemma Reachable(strict: bool, config: P.Config, run: seq<Action>)
    requires After(Start(strict, config), run).Some?
    ensures Inv(After(Start(strict, config), run).value)
  {
    OS.Reachable(strict, []);
    P.Reachable(config, []);
    assert O.After(strict, []) == Some(O.Init(strict)) && P.After(P.Init(config), []) == Some(P.Init(config));
    InvAlong(Start(strict, config), run);
  }

  /** The pipeline never stands in the way of a commit: its task id is always new there. */
  lemma CommitNeverBlocked(strict: bool, config: P.Config, run: seq<Action>, s: State, r: O.Action)
    requires After(Start(strict, config), run) == Some(s) && O.Next(s.orders, r).Some?
    ensures Next(s, Request(r)).Some?
  {
    Reachable(strict, config, run);
    RequestKeeps(s, r);
  }

  // ---- each part of a run of the whole system is a run of its own machine ----

  function OrdersPart(run: seq<Action>): seq<O.Action> {
    if run == [] then []
    else
      var n := |run| - 1;
      OrdersPart(run[..n]) + match run[n] case Request(r) => [r] case Transport(_) => []
  }

  function PipeStep(s: State, a: Action): seq<P.Action> {
    match a
    case Transport(b) => [b]
    case Request(r) =>
      match Inserted(s.orders, r)
      case None => []
      case Some((id, task)) => [P.Insert(id, task)]
  }

  ghost function PipePart(s: State, run: seq<Action>): seq<P.Action>
    requires After(s, run).Some?
  {
    if run == [] then []
    else
      var n := |run| - 1;
      PipePart(s, run[..n]) + PipeStep(After(s, run[..n]).value, run[n])
  }

  lemma OrdersStep(run: seq<Action>, n: nat)
    requires |run| == n + 1
    ensures OrdersPart(run) == if run[n].Request? then OrdersPart(run[..n]) + [run[n].a] else OrdersPart(run[..n])
  {
  }

  lemma {:induction false} OrdersProject(strict: bool, config: P.Config, run: seq<Action>)
    requires After(Start(strict, config), run).Some?
    ensures O.After(strict, OrdersPart(run)) == Some(After(Start(strict, config), run).value.orders)
  {
    if run != [] {
      var n := |run| - 1;
      OrdersProject(strict, config, run[..n]);
      OrdersStep(run, n);
      if run[n].Request? { OR.OneMoreAfter(strict, OrdersPart(run[..n]), run[n].a); }
    }
  }

  lemma PipeStepRuns(s: State, a: Action)
    requires Next(s, a).Some?
    ensures P.After(s.pipe, PipeStep(s, a)) == Some(Next(s, a).value.pipe)
  {
    var acts := PipeStep(s, a);
    if acts != [] { assert acts[..0] == []; }
  }

  lemma {:induction false} PipeProjects(s: State, run: seq<Action>)
    requires After(s, run).Some?
    ensures P.After(s.pipe, PipePart(s, run)) == Some(After(s, run).value.pipe)
  {
    if run != [] {
      var n := |run| - 1;
      PipeProjects(s, run[..n]);
      var m := After(s, run[..n]).value;
      PipeStepRuns(m, run[n]);
      R.AfterConcat(s.pipe, PipePart(s, run[..n]), PipeStep(m, run[n]));
    }
  }

  /** So every guarantee of either machine is one of the whole system: serializability, the lives of the
      orders and the bound on memory among them. */
  lemma WholeSystem(strict: bool, config: P.Config, run: seq<Action>, s: State)
    requires After(Start(strict, config), run) == Some(s)
    ensures O.Replay(s.orders.commits) == Some(s.orders.store)
    ensures forall id :: G.LivesOneLife(s.orders, id)
    ensures D.Bounded(s.pipe) && s.pipe.config == config && (config == D.MAIN ==> D.TasksInMemory(s.pipe) <= 700)
  {
    OrdersProject(strict, config, run);
    PipeProjects(Start(strict, config), run);
    G.Serializable(strict, OrdersPart(run), s.orders);
    forall id: nat ensures G.LivesOneLife(s.orders, id) {
      G.LifecycleSafety(strict, OrdersPart(run), s.orders, id);
    }
    D.MemoryBound(config, PipePart(Start(strict, config), run));
  }

  /** The bounded wait while requests go on committing: a created task with r created tasks at or before
      its time is picked by the (r / 100 + 1)-th pick at the latest if the tasks committed meanwhile
      carry later times. */
  lemma WaitWhileServing(strict: bool, config: P.Config, run: seq<Action>, s: State, more: seq<Action>, id: nat)
    requires After(Start(strict, config), run) == Some(s) && After(s, more).Some?
    requires P.IsCreated(s.pipe.rows, id) && D.LaterInserts(PipePart(s, more), s.pipe.rows[id].createdAt)
    requires D.PicksIn(PipePart(s, more)) >= |D.Ahead(s.pipe.rows, id)| / P.BATCH_LIMIT + 1
    ensures !P.IsCreated(After(s, more).value.pipe.rows, id)
  {
    Reachable(strict, config, run);
    PipeProjects(s, more);
    D.BoundedWait(s.pipe, PipePart(s, more), id);
  }

  /** The fate of the i-th transition ever committed, over every run of the whole system: its task is
      still a row that mirrors the history record, or was acknowledged by the broker; a failed row was
      refused and not acknowledged. */
  ghost predicate Accounted(s: State, i: nat)
    requires i < |s.orders.entries| == |s.orders.tasks|
  {
    var id, entry := s.orders.tasks[i], s.orders.entries[i];
    && id in s.pipe.committed
    && (id in s.pipe.rows ==> O.Mirrors(s.pipe.rows[id], entry))
    && (id !in s.pipe.rows ==> id in s.pipe.acked)
    && (id in s.pipe.rows && s.pipe.rows[id].status == Failed ==> id in s.pipe.errored && id !in s.pipe.acked)
    && (id in s.pipe.rows && s.pipe.rows[id].status == Created ==> id !in s.pipe.attempted)
    && (id !in s.pipe.attempted ==> id in s.pipe.rows)
    && (id in s.pipe.attempted && id !in s.pipe.acked && id !in s.pipe.errored ==>
          id in s.pipe.rows && s.pipe.rows[id].status == Processing)
  }

  lemma AccountedAt(s: State, i: nat)
    requires Inv(s) && i < |s.orders.entries| == |s.orders.tasks|
    ensures Accounted(s, i)
  {
  }

  /** Every committed transition of every order is accounted for and its message is sent at most once;
      and every message sent belongs to exactly one committed transition, never to an aborted one. */
  lemma EveryTransitionAccounted(strict: bool, config: P.Config, run: seq<Action>, s: State)
    requires After(Start(strict, config), run) == Some(s)
    ensures |s.orders.entries| == |s.orders.tasks|
    ensures forall i :: 0 <= i < |s.orders.entries| ==> Accounted(s, i)
    ensures P.NoDup(s.orders.tasks) && P.NoDup(s.pipe.attempted)
    ensures forall id :: id in s.pipe.attempted ==> id in s.orders.tasks
  {
    Reachable(strict, config, run);
    forall i | 0 <= i < |s.orders.entries| ensures Accounted(s, i) {
      AccountedAt(s, i);
    }
    forall id | id in s.pipe.attempted ensures id in s.orders.tasks {
      assert id in s.pipe.committed;
    }
  }
}
