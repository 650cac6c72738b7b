/** What the outbox pipeline guarantees over every run, with any number of pollers and producers,
    failures and crashes. */
module Delivery {
  import opened Domain
  import opened Tables
  import opened Pipeline

  /** No task is handed out twice and no task is passed to SendMessage twice. */
  lemma AtMostOneSend(config: Config, run: seq<Action>)
    requires After(Init(config), run).Some?
    ensures var s := After(Init(config), run).value;
            && (forall k, m, id :: 0 <= k < m < |s.picks| && id in s.picks[k] ==> id !in s.picks[m])
            && (forall k :: 0 <= k < |s.picks| ==> NoDup(s.picks[k]))
            && (forall i, j :: 0 <= i < j < |s.attempted| ==> s.attempted[i] != s.attempted[j])
  {
    Reachable(config, run);
  }

  /** Every committed task is a row in one of three states or was removed after an acknowledged
      send; a failed row had a send error and no acknowledgement; a task passed to SendMessage without
      an answer is a processing row, and so is what is unsent in memory. */
  lemma NoSilentLoss(config: Config, run: seq<Action>, s: State, id: nat)
    requires After(Init(config), run) == Some(s)
    ensures id in s.rows ==> id in s.committed
    ensures id in s.committed && id !in s.rows ==> id in s.acked && id !in s.errored
    ensures id in s.rows && s.rows[id].status == Failed ==> id in s.errored && id !in s.acked
    ensures id in s.rows && s.rows[id].status == Created ==> id !in s.attempted
    ensures id in s.committed && id !in s.attempted ==> id in s.rows && s.rows[id].status != Failed
    ensures id in s.acked || id in s.errored ==> id in s.attempted
    ensures id in s.attempted ==> id in s.committed
    ensures id in s.attempted && id !in s.acked && id !in s.errored ==> id in s.rows && s.rows[id].status == Processing
    ensures forall slot :: slot in s.mem && id in s.mem[slot] ==>
              id in s.rows && s.rows[id].status == Processing && id !in s.attempted
  {
    Reachable(config, run);
    forall slot | slot in s.mem && id in s.mem[slot]
      ensures id in s.rows && s.rows[id].status == Processing && id !in s.attempted
    {
      assert SlotOk(s, slot);
    }
  }

  // ---- nothing is retried ----

  /** A processing row that no poller, channel place or producer holds any more. */
  ghost predicate Stranded(s: State, id: nat) {
    && id in s.rows && s.rows[id].status == Processing
    && (forall slot :: slot in s.mem ==> id !in s.mem[slot])
    && (forall q: nat :: StageOf(s, q) == Ready || StageOf(s, q).id != id)
  }

  function RowAt(rows: map<nat, TaskRow>, id: nat): Option<TaskRow> {
    if id in rows then Some(rows[id]) else None
  }

  /** A committed task that is past `created` and that nobody holds. */
  ghost predicate Released(s: State, id: nat) {
    && id in s.committed && !IsCreated(s.rows, id)
    && (forall slot :: slot in s.mem ==> id !in s.mem[slot])
    && (forall q: nat :: StageOf(s, q) == Ready || StageOf(s, q).id != id)
  }

  lemma ReleasedStep(s: State, a: Action, id: nat)
    requires Released(s, id) && Next(s, a).Some?
    ensures var s' := Next(s, a).value;
            Released(s', id) && RowAt(s'.rows, id) == RowAt(s.rows, id) && (id in s'.attempted <==> id in s.attempted)
  {
    var s' := Next(s, a).value;
    if a.Delete? || a.Mark? { assert StageOf(s, a.q).id != id; }
    forall slot | slot in s'.mem ensures id !in s'.mem[slot] {
      ContentStep(s, a, slot);
    }
    forall q: nat ensures StageOf(s', q) == Ready || StageOf(s', q).id != id {
      assert StageOf(s, q) == Ready || StageOf(s, q).id != id;
      StageStep(s, a, q);
    }
  }

  /** What nobody holds is final: no step returns its row to `created`, changes it or sends it. */
  lemma {:induction false} ReleasedAlong(s: State, run: seq<Action>, id: nat)
    requires Released(s, id) && After(s, run).Some?
    ensures var s' := After(s, run).value;
            Released(s', id) && RowAt(s'.rows, id) == RowAt(s.rows, id) && (id in s'.attempted <==> id in s.attempted)
  {
    if run != [] {
      ReleasedAlong(s, run[..|run| - 1], id);
      ReleasedStep(After(s, run[..|run| - 1]).value, run[|run| - 1], id);
    }
  }

  /** A stranded task stays stranded, and if it was not sent before it is never sent. */
  lemma StrandedForever(s: State, run: seq<Action>, id: nat)
    requires Stranded(s, id) && id in s.committed && After(s, run).Some?
    ensures var s' := After(s, run).value;
            Stranded(s', id) && id in s'.committed && (id in s'.attempted <==> id in s.attempted)
  {
    ReleasedAlong(s, run, id);
  }

  /** The four ways to lose hold of task `id`: the answer of a pick is lost, the process crashes, the
      task cannot be marshalled, the change of its row after the send fails. */
  predicate Strands(s: State, a: Action, id: nat) {
    match a
    case Pick(_, batch, delivered) => id in batch && !delivered
    case Crash => id in s.rows && s.rows[id].status == Processing
    case SkipUnmarshalled(q) => Facing(s, q) && s.mem[ProducerSlot(q)][0] == id
    case Delete(q, done) => !done && StageOf(s, q) != Ready && StageOf(s, q).id == id
    case Mark(q, done) => !done && StageOf(s, q) != Ready && StageOf(s, q).id == id
    case _ => false
  }

  /** A step that does not strand a task keeps it where it was held, or its row is not processing. */
  lemma HeldOn(s: State, a: Action, id: nat)
    requires Inv(s) && Next(s, a).Some? && !Stranded(s, id) && !Strands(s, a, id)
    ensures !Stranded(Next(s, a).value, id)
  {
    var s' := Next(s, a).value;
    if slot :| slot in s.mem && id in s.mem[slot] {
      assert SlotOk(s, slot);
      KeepsHold(s, a, slot, id);
    } else if q: nat :| StageOf(s, q) != Ready && StageOf(s, q).id == id {
      StageHeldOn(s, a, q);
    } else if a.Pick? && id in a.batch {
      assert id in s'.mem[PollerSlot(a.p)];
    }
  }

  lemma StageHeldOn(s: State, a: Action, q: nat)
    requires Inv(s) && Next(s, a).Some? && StageOf(s, q) != Ready && !Strands(s, a, StageOf(s, q).id)
    ensures !Stranded(Next(s, a).value, StageOf(s, q).id)
  {
    var s', id := Next(s, a).value, StageOf(s, q).id;
    assert StageOk(s, q);
    if (a.Delete? || a.Mark?) && a.q == q {
      assert a.done;
    } else {
      assert StageOf(s', q) != Ready && StageOf(s', q).id == id;
    }
  }

  lemma KeepsHold(s: State, a: Action, slot: Slot, id: nat)
    requires Inv(s) && Next(s, a).Some? && slot in s.mem && id in s.mem[slot] && !Strands(s, a, id)
    ensures !Stranded(Next(s, a).value, id)
  {
    var s' := Next(s, a).value;
    assert SlotOk(s, slot);
    match a
    case Enqueue(p) =>
      if slot == PollerSlot(p) { assert id in s'.mem[QueueSlot(s.tail)]; } else { assert id in s'.mem[slot]; }
    case Dequeue(q) =>
      if slot == QueueSlot(s.head) { assert id in s'.mem[ProducerSlot(q)]; } else { assert id in s'.mem[slot]; }
    case Send(q) =>
      if slot == ProducerSlot(q) && s.mem[slot][0] == id {
        assert StageOf(s', q) == Sending(id);
      } else {
        assert id in s'.mem[slot];
      }
    case Crash =>
    case _ => assert id in s'.mem[slot];
  }

  lemma LosesHold(s: State, a: Action, id: nat)
    requires Inv(s) && Next(s, a).Some? && Strands(s, a, id)
    ensures Stranded(Next(s, a).value, id)
  {
    var s' := Next(s, a).value;
    match a
    case Pick(p, batch, _) =>
      forall slot | slot in s'.mem ensures id !in s'.mem[slot] { assert SlotOk(s, slot); }
      forall q: nat ensures StageOf(s', q) == Ready || StageOf(s', q).id != id { assert StageOk(s, q); }
    case Crash =>
    case SkipUnmarshalled(q) =>
      assert SlotOk(s, ProducerSlot(q));
      assert id in s.mem[ProducerSlot(q)];
      forall slot | slot in s'.mem ensures id !in s'.mem[slot] { assert SlotsApart(s, ProducerSlot(q), slot); }
      forall r: nat ensures StageOf(s', r) == Ready || StageOf(s', r).id != id { assert StageOk(s, r); }
    case Delete(q, _) => ReleasesHand(s, a, q);
    case Mark(q, _) => ReleasesHand(s, a, q);
  }

  lemma ReleasesHand(s: State, a: Action, q: nat)
    requires Inv(s) && a in {Delete(q, false), Mark(q, false)} && Next(s, a).Some?
    ensures Stranded(Next(s, a).value, StageOf(s, q).id)
  {
    var s', id := Next(s, a).value, StageOf(s, q).id;
    assert StageOk(s, q);
    forall slot | slot in s'.mem ensures id !in s'.mem[slot] { assert SlotOk(s, slot); }
    forall r: nat ensures StageOf(s', r) == Ready || StageOf(s', r).id != id { assert StagesApart(s, q, r); }
  }

  /** Exactly which steps strand a task. */
  lemma StrandsExactly(s: State, a: Action, id: nat)
    requires Inv(s) && Next(s, a).Some? && !Stranded(s, id)
    ensures Stranded(Next(s, a).value, id) <==> Strands(s, a, id)
  {
    if Strands(s, a, id) { LosesHold(s, a, id); } else { HeldOn(s, a, id); }
  }

  ghost predicate StrandsAt(s: State, run: seq<Action>, i: nat, id: nat)
    requires i < |run|
  {
    After(s, run[..i]).Some? && Strands(After(s, run[..i]).value, run[i], id)
  }

  /** After any run a task is stranded if and only if one of the steps of the run stranded it. */
  lemma {:induction false} StrandedWhen(config: Config, run: seq<Action>, id: nat)
    requires After(Init(config), run).Some?
    ensures Stranded(After(Init(config), run).value, id)
            <==> exists i :: 0 <= i < |run| && StrandsAt(Init(config), run, i, id)
  {
    if run != [] {
      var n := |run| - 1;
      var before := After(Init(config), run[..n]).value;
      StrandedWhen(config, run[..n], id);
      Reachable(config, run[..n]);
      assert forall i :: 0 <= i < n ==> run[..n][..i] == run[..i];
      assert forall i :: 0 <= i < n ==>
          (StrandsAt(Init(config), run, i, id) <==> StrandsAt(Init(config), run[..n], i, id));
      assert StrandsAt(Init(config), run, n, id) <==> Strands(before, run[n], id);
      if Stranded(before, id) {
        ReleasedStep(before, run[n], id);
      } else {
        StrandsExactly(before, run[n], id);
      }
    }
  }

  /** It does happen: one lost answer of LockPending leaves a task that was never sent. */
  lemma StrandedReachable(config: Config, id: nat, task: TaskRow)
    requires config.pollers > 0 && task.status == Created
    ensures var r := After(Init(config), [Insert(id, task), Pick(0, [id], false)]);
            r.Some? && Stranded(r.value, id) && id !in r.value.attempted
  {
    var insert, pick := Insert(id, task), Pick(0, [id], false);
    var s := Next(Init(config), insert).value;
    assert [insert][..0] == [] && [insert, pick][..1] == [insert];
    assert After(Init(config), [insert]) == Some(s);
    assert IsPick(s.rows, [id]);
  }

  /** A send without an answer is under way, or its task is stranded: it is not sent again. */
  lemma UnansweredWhere(config: Config, run: seq<Action>, s: State, id: nat)
    requires After(Init(config), run) == Some(s)
    ensures id in s.attempted && id !in s.acked && id !in s.errored ==>
              (exists q: nat :: StageOf(s, q) == Sending(id)) || Stranded(s, id)
    ensures (exists q: nat :: StageOf(s, q) == Sending(id)) ==> id in s.attempted && id !in s.acked && id !in s.errored
  {
    Reachable(config, run);
    if id in s.attempted && id !in s.acked && id !in s.errored && !Stranded(s, id) {
      forall slot | slot in s.mem ensures id !in s.mem[slot] { assert SlotOk(s, slot); }
      var q: nat :| StageOf(s, q) != Ready && StageOf(s, q).id == id;
      assert StageOk(s, q);
    }
    if q: nat :| StageOf(s, q) == Sending(id) {
      assert StageOk(s, q);
    }
  }

  // ---- memory ----

  function PollerLoad(s: State, n: nat): nat {
    if n == 0 then 0 else PollerLoad(s, n - 1) + Load(s, PollerSlot(n - 1))
  }

  function ProducerLoad(s: State, n: nat): nat {
    if n == 0 then 0 else ProducerLoad(s, n - 1) + Load(s, ProducerSlot(n - 1)) + InFlight(s, n - 1)
  }

  function QueueLoad(s: State, from: nat, n: nat): nat {
    if n == 0 then 0 else QueueLoad(s, from, n - 1) + Load(s, QueueSlot(from + n - 1))
  }

  function TasksInMemory(s: State): nat
    requires s.head <= s.tail
  {
    PollerLoad(s, s.config.pollers) + QueueLoad(s, s.head, s.tail - s.head) + ProducerLoad(s, s.config.producers)
  }

  lemma {:induction false} PollerBound(s: State, n: nat)
    requires RoomOk(s)
    ensures PollerLoad(s, n) <= BATCH_LIMIT * n
  {
    if n > 0 {
      PollerBound(s, n - 1);
      assert Load(s, PollerSlot(n - 1)) <= BATCH_LIMIT;
    }
  }

  lemma {:induction false} ProducerBound(s: State, n: nat)
    requires RoomOk(s)
    ensures ProducerLoad(s, n) <= BATCH_LIMIT * n
  {
    if n > 0 {
      ProducerBound(s, n - 1);
      assert Load(s, ProducerSlot(n - 1)) + InFlight(s, n - 1) <= BATCH_LIMIT;
    }
  }

  lemma {:induction false} QueueBound(s: State, from: nat, n: nat)
    requires RoomOk(s)
    ensures QueueLoad(s, from, n) <= BATCH_LIMIT * n
  {
    if n > 0 {
      QueueBound(s, from, n - 1);
      assert Load(s, QueueSlot(from + n - 1)) <= BATCH_LIMIT;
    }
  }

  /** The wiring of main: one poller, one producer, a channel of five batches. */
  const MAIN := Config(1, 1, 5)

  ghost predicate Bounded(s: State) {
    && s.head <= s.tail
    && TasksInMemory(s) <= BATCH_LIMIT * (s.config.pollers + s.config.capacity + s.config.producers)
    && (forall slot :: slot in s.mem ==> match slot
          case PollerSlot(p) => p < s.config.pollers
          case QueueSlot(n) => s.head <= n < s.tail
          case ProducerSlot(q) => q < s.config.producers)
  }

  lemma RoomBounds(s: State)
    requires RoomOk(s)
    ensures Bounded(s)
  {
    PollerBound(s, s.config.pollers);
    ProducerBound(s, s.config.producers);
    QueueBound(s, s.head, s.tail - s.head);
  }

  /** Every held task is counted, and the count is bounded by the number of places. */
  lemma MemoryBound(config: Config, run: seq<Action>)
    requires After(Init(config), run).Some?
    ensures var s := After(Init(config), run).value;
            Bounded(s) && s.config == config && (config == MAIN ==> TasksInMemory(s) <= 700)
  {
    Reachable(config, run);
    ConfigFixed(Init(config), run);
    RoomBounds(After(Init(config), run).value);
  }

  lemma {:induction false} ConfigFixed(s: State, run: seq<Action>)
    requires After(s, run).Some?
    ensures After(s, run).value.config == s.config
  {
    if run != [] { ConfigFixed(s, run[..|run| - 1]); }
  }

  // ---- waiting ----

  /** The created tasks LockPending may prefer to `id`. */
  ghost function Ahead(rows: map<nat, TaskRow>, id: nat): set<nat>
    requires id in rows
  {
    set j | j in rows && j != id && rows[j].status == Created && rows[j].createdAt <= rows[id].createdAt
  }

  function PicksIn(run: seq<Action>): nat {
    if run == [] then 0 else PicksIn(run[..|run| - 1]) + if run[|run| - 1].Pick? then 1 else 0
  }

  ghost function Elements(ids: seq<nat>): set<nat> {
    set id | id in ids
  }

  lemma {:induction false} ElementsCount(ids: seq<nat>)
    requires NoDup(ids)
    ensures |Elements(ids)| == |ids|
  {
    if ids != [] {
      var n := |ids| - 1;
      ElementsCount(ids[..n]);
      assert Elements(ids) == Elements(ids[..n]) + {ids[n]};
    }
  }

  /** A pick that passes over a created task takes a hundred of those ahead of it. */
  lemma PickShortensQueue(rows: map<nat, TaskRow>, batch: seq<nat>, id: nat)
    requires IsPick(rows, batch) && IsCreated(rows, id) && id !in batch
    ensures |Ahead(WithStatus(rows, batch, Processing), id)| + BATCH_LIMIT == |Ahead(rows, id)|
  {
    var rows' := WithStatus(rows, batch, Processing);
    ElementsCount(batch);
    assert Elements(batch) <= Ahead(rows, id);
    assert Ahead(rows', id) == Ahead(rows, id) - Elements(batch);
  }

  lemma WaitStep(s: State, a: Action, id: nat)
    requires IsCreated(s.rows, id) && RowsOk(s) && SendsOk(s) && StagesOk(s) && Next(s, a).Some?
    requires a.Insert? ==> s.rows[id].createdAt < a.task.createdAt
    ensures var s' := Next(s, a).value;
            IsCreated(s'.rows, id) ==>
              && s'.rows[id].createdAt == s.rows[id].createdAt
              && |Ahead(s'.rows, id)| + (if a.Pick? then BATCH_LIMIT else 0) <= |Ahead(s.rows, id)|
  {
    var s' := Next(s, a).value;
    if IsCreated(s'.rows, id) {
      match a
      case Pick(_, batch, _) =>
        PickShortensQueue(s.rows, batch, id);
      case Insert(j, task) =>
        assert Ahead(s'.rows, id) == Ahead(s.rows, id);
      case Delete(q, _) =>
        assert Ahead(s'.rows, id) <= Ahead(s.rows, id);
        Shrinks(Ahead(s'.rows, id), Ahead(s.rows, id));
      case Mark(q, _) =>
        assert Ahead(s'.rows, id) <= Ahead(s.rows, id);
        Shrinks(Ahead(s'.rows, id), Ahead(s.rows, id));
      case _ =>
    }
  }

  lemma {:induction false} Shrinks<T>(a: set<T>, b: set<T>)
    requires a <= b
    ensures |a| <= |b|
  {
    assert b == a + (b - a);
  }

  ghost predicate LaterInserts(run: seq<Action>, time: Time) {
    forall i :: 0 <= i < |run| && run[i].Insert? ==> time < run[i].task.createdAt
  }

  lemma {:induction false} InvKept(s: State, run: seq<Action>)
    requires Inv(s) && After(s, run).Some?
    ensures Inv(After(s, run).value)
  {
    if run != [] {
      InvKept(s, run[..|run| - 1]);
      var m, a := After(s, run[..|run| - 1]).value, run[|run| - 1];
      InvStep(m, a);
    }
  }

  lemma {:induction false} WaitAlong(s: State, run: seq<Action>, id: nat)
    requires Inv(s) && IsCreated(s.rows, id) && LaterInserts(run, s.rows[id].createdAt)
    requires After(s, run).Some?
    ensures var s' := After(s, run).value;
            IsCreated(s'.rows, id) ==>
              && s'.rows[id].createdAt == s.rows[id].createdAt
              && |Ahead(s'.rows, id)| + BATCH_LIMIT * PicksIn(run) <= |Ahead(s.rows, id)|
  {
    if run != [] {
      var r, a := run[..|run| - 1], run[|run| - 1];
      WaitAlong(s, r, id);
      InvKept(s, r);
      var m := After(s, r).value;
      if IsCreated(Next(m, a).value.rows, id) {
        CreatedBefore(s, r, a, id);
        WaitStep(m, a, id);
      }
    }
  }

  /** Only an insert under a new key makes a row `created`. */
  lemma CreatedBefore(s: State, r: seq<Action>, a: Action, id: nat)
    requires Inv(s) && id in s.committed && After(s, r).Some? && Next(After(s, r).value, a).Some?
    requires IsCreated(Next(After(s, r).value, a).value.rows, id)
    ensures IsCreated(After(s, r).value.rows, id)
  {
    CommittedStays(s, r, id);
  }

  lemma {:induction false} CommittedStays(s: State, run: seq<Action>, id: nat)
    requires id in s.committed && After(s, run).Some?
    ensures id in After(s, run).value.committed
  {
    if run != [] { CommittedStays(s, run[..|run| - 1], id); }
  }

  /** With r created tasks at or before its time ahead of it, a created task is taken by the
      (r / 100 + 1)-th successful LockPending at the latest, whatever later tasks are added. */
  lemma BoundedWait(s: State, run: seq<Action>, id: nat)
    requires Inv(s) && IsCreated(s.rows, id) && LaterInserts(run, s.rows[id].createdAt)
    requires After(s, run).Some? && PicksIn(run) >= |Ahead(s.rows, id)| / BATCH_LIMIT + 1
    ensures !IsCreated(After(s, run).value.rows, id)
  {
    WaitAlong(s, run, id);
  }

  ghost function CreatedRows(rows: map<nat, TaskRow>): set<nat> {
    set j | j in rows && rows[j].status == Created
  }

  lemma PickDrains(rows: map<nat, TaskRow>, batch: seq<nat>)
    requires IsPick(rows, batch)
    ensures |CreatedRows(WithStatus(rows, batch, Processing))| ==
            if |CreatedRows(rows)| <= BATCH_LIMIT then 0 else |CreatedRows(rows)| - BATCH_LIMIT
  {
    ElementsCount(batch);
    assert Elements(batch) <= CreatedRows(rows);
    assert CreatedRows(WithStatus(rows, batch, Processing)) == CreatedRows(rows) - Elements(batch);
    if |batch| < BATCH_LIMIT {
      assert CreatedRows(rows) == Elements(batch);
    }
  }

  /** Only a pick takes a row out of `created`, and only an insert puts one in. */
  lemma CreatedSame(s: State, a: Action, id: nat)
    requires RowsOk(s) && StagesOk(s) && Next(s, a).Some? && !a.Pick? && !a.Insert?
    ensures IsCreated(Next(s, a).value.rows, id) <==> IsCreated(s.rows, id)
  {
    if a.Delete? || a.Mark? { assert StageOk(s, a.q); }
  }

  /** A pick takes a hundred created rows, or all of them if there are fewer. */
  lemma PickSize(rows: map<nat, TaskRow>, batch: seq<nat>)
    requires IsPick(rows, batch)
    ensures |batch| == if |CreatedRows(rows)| < 100 then |CreatedRows(rows)| else 100
  {
    ElementsCount(batch);
    assert Elements(batch) <= CreatedRows(rows);
    Shrinks(Elements(batch), CreatedRows(rows));
    if |batch| < BATCH_LIMIT {
      assert CreatedRows(rows) == Elements(batch);
    }
  }

  lemma DrainStep(s: State, a: Action)
    requires RowsOk(s) && SendsOk(s) && StagesOk(s) && Next(s, a).Some? && !a.Insert?
    ensures var s' := Next(s, a).value;
            |CreatedRows(s'.rows)| == if !a.Pick? then |CreatedRows(s.rows)|
                                      else if |CreatedRows(s.rows)| <= BATCH_LIMIT then 0
                                      else |CreatedRows(s.rows)| - BATCH_LIMIT
  {
    var s' := Next(s, a).value;
    if a.Pick? {
      PickDrains(s.rows, a.batch);
    } else {
      forall j: nat ensures j in CreatedRows(s'.rows) <==> j in CreatedRows(s.rows) {
        CreatedSame(s, a, j);
      }
      assert CreatedRows(s'.rows) == CreatedRows(s.rows);
    }
  }

  lemma {:induction false} DrainAlong(s: State, run: seq<Action>)
    requires Inv(s) && After(s, run).Some? && forall i :: 0 <= i < |run| ==> !run[i].Insert?
    ensures |CreatedRows(After(s, run).value.rows)| ==
            if |CreatedRows(s.rows)| <= BATCH_LIMIT * PicksIn(run) then 0
            else |CreatedRows(s.rows)| - BATCH_LIMIT * PicksIn(run)
  {
    if run != [] {
      var r := run[..|run| - 1];
      DrainAlong(s, r);
      InvKept(s, r);
      DrainStep(After(s, r).value, run[|run| - 1]);
    }
  }

  /** With nothing added, n created tasks are all taken exactly when 100 * picks reaches n. */
  lemma Drain(s: State, run: seq<Action>, s': State)
    requires Inv(s) && After(s, run) == Some(s') && forall i :: 0 <= i < |run| ==> !run[i].Insert?
    ensures CreatedRows(s'.rows) == {} <==> |CreatedRows(s.rows)| <= BATCH_LIMIT * PicksIn(run)
  {
    DrainAlong(s, run);
  }

  lemma NoPick(m: State, a: Action, id: nat)
    requires RowsOk(m) && StagesOk(m) && Next(m, a).Some? && !a.Insert? && !a.Crash?
    requires (forall p: nat :: p < m.config.pollers ==> p in m.stopped) && IsCreated(m.rows, id)
    ensures !a.Pick? && IsCreated(Next(m, a).value.rows, id) && m.stopped <= Next(m, a).value.stopped
  {
    if !a.Pick? { CreatedSame(m, a, id); }
  }

  /** Run returns on the first error of LockPending: once every poller has stopped, nothing is picked
      until the process restarts, and every created task stays created. */
  lemma {:induction false} ErrorsStopDelivery(s: State, run: seq<Action>, id: nat)
    requires Inv(s) && After(s, run).Some? && (forall p: nat :: p < s.config.pollers ==> p in s.stopped)
    requires forall i :: 0 <= i < |run| ==> !run[i].Crash?
    requires IsCreated(s.rows, id)
    ensures PicksIn(run) == 0 && IsCreated(After(s, run).value.rows, id)
    ensures s.stopped <= After(s, run).value.stopped
  {
    if run != [] {
      var r, a := run[..|run| - 1], run[|run| - 1];
      ErrorsStopDelivery(s, r, id);
      InvKept(s, r);
      ConfigFixed(s, r);
      if a.Insert? { CommittedStays(s, r, id); } else { NoPick(After(s, r).value, a, id); }
    }
  }
}
