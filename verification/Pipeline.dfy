/** The outbox pipeline as a protocol: tasks are inserted by commits, pollers pick the oldest
    created rows in one statement, batches wait in a bounded channel, producers send each task and
    then delete its row or mark it failed.  Every call can fail, and the process can crash. */
module Pipeline {
  import opened Domain
  import opened Tables

  const BATCH_LIMIT: nat := 100

  /** How many pollers, producers and channel places main wires up. */
  datatype Config = Config(pollers: nat, producers: nat, capacity: nat)

  /** The places a picked batch can be in: held by a poller, in the channel (numbered by arrival),
      or being worked off by a producer. */
  datatype Slot = PollerSlot(p: nat) | QueueSlot(n: nat) | ProducerSlot(q: nat)

  /** Where a producer stands with the task it last took: before marshalling the next one, inside
      SendMessage, or between its answer and the change of the row. */
  datatype Stage = Ready | Sending(id: nat) | Acknowledged(id: nat) | SendFailed(id: nat)

  /** `committed`, `picks`, `attempted`, `acked` and `errored` are logs; the rest is the table and
      the memory of the process. */
  datatype State = State(
    config: Config, rows: map<nat, TaskRow>, mem: map<Slot, seq<nat>>, head: nat, tail: nat,
    stopped: set<nat>, stages: map<nat, Stage>,
    committed: set<nat>, picks: seq<seq<nat>>, attempted: seq<nat>, acked: set<nat>, errored: set<nat>)

  datatype Action =
    | Insert(id: nat, task: TaskRow)
    | Pick(p: nat, batch: seq<nat>, delivered: bool)
    | StopPoller(p: nat)
    | Enqueue(p: nat)
    | Dequeue(q: nat)
    | SkipUnmarshalled(q: nat)
    | Send(q: nat)
    | Answer(q: nat, ok: bool)
    | Delete(q: nat, done: bool)
    | Mark(q: nat, done: bool)
    | Finish(q: nat)
    | Crash

  function Init(config: Config): State {
    State(config, map[], map[], 0, 0, {}, map[], {}, [], [], {}, {})
  }

  predicate IsCreated(rows: map<nat, TaskRow>, id: nat) {
    id in rows && rows[id].status == Created
  }

  ghost predicate NoDup(ids: seq<nat>) {
    forall i, j :: 0 <= i < j < |ids| ==> ids[i] != ids[j]
  }

  /** The rows LockPending may take: at most 100 created rows, no created row left out being older,
      and every created row if there are fewer than 100.  The order within the batch is free. */
  ghost predicate IsPick(rows: map<nat, TaskRow>, batch: seq<nat>) {
    && |batch| <= BATCH_LIMIT
    && NoDup(batch)
    && (forall id :: id in batch ==> IsCreated(rows, id))
    && (forall id, j :: id in batch && IsCreated(rows, j) && j !in batch ==> rows[id].createdAt <= rows[j].createdAt)
    && (|batch| < BATCH_LIMIT ==> forall j :: IsCreated(rows, j) ==> j in batch)
  }

  function WithStatus(rows: map<nat, TaskRow>, ids: seq<nat>, status: TaskStatus): map<nat, TaskRow> {
    map id | id in rows :: if id in ids then rows[id].(status := status) else rows[id]
  }

  function StageOf(s: State, q: nat): Stage {
    if q in s.stages then s.stages[q] else Ready
  }

  /** Producer `q` is about to handle the next task of a batch. */
  predicate Facing(s: State, q: nat) {
    ProducerSlot(q) in s.mem && s.mem[ProducerSlot(q)] != [] && StageOf(s, q) == Ready
  }

  ghost function Next(s: State, a: Action): Option<State> {
    match a
    case Insert(id, task) =>
      if id in s.committed || task.status != Created then None
      else Some(s.(rows := s.rows[id := task], committed := s.committed + {id}))
    case Pick(p, batch, delivered) =>
      if p >= s.config.pollers || p in s.stopped || PollerSlot(p) in s.mem || !IsPick(s.rows, batch) then None
      else
        var s1 := s.(rows := WithStatus(s.rows, batch, Processing), picks := s.picks + [batch]);
        Some(if delivered then s1.(mem := s.mem[PollerSlot(p) := batch]) else s1.(stopped := s.stopped + {p}))
    case StopPoller(p) =>
      if PollerSlot(p) in s.mem then None else Some(s.(stopped := s.stopped + {p}))
    case Enqueue(p) =>
      if PollerSlot(p) !in s.mem || s.tail - s.head >= s.config.capacity then None
      else Some(s.(mem := (s.mem - {PollerSlot(p)})[QueueSlot(s.tail) := s.mem[PollerSlot(p)]], tail := s.tail + 1))
    case Dequeue(q) =>
      if q >= s.config.producers || ProducerSlot(q) in s.mem || QueueSlot(s.head) !in s.mem then None
      else Some(s.(mem := (s.mem - {QueueSlot(s.head)})[ProducerSlot(q) := s.mem[QueueSlot(s.head)]],
                   head := s.head + 1))
    case SkipUnmarshalled(q) =>
      if !Facing(s, q) then None
      else Some(s.(mem := s.mem[ProducerSlot(q) := s.mem[ProducerSlot(q)][1..]]))
    case Send(q) =>
      if !Facing(s, q) then None
      else
        var id := s.mem[ProducerSlot(q)][0];
        Some(s.(mem := s.mem[ProducerSlot(q) := s.mem[ProducerSlot(q)][1..]], attempted := s.attempted + [id],
                stages := s.stages[q := Sending(id)]))
    case Answer(q, ok) =>
      if !StageOf(s, q).Sending? then None
      else
        var id := StageOf(s, q).id;
        Some(if ok then s.(acked := s.acked + {id}, stages := s.stages[q := Acknowledged(id)])
             else s.(errored := s.errored + {id}, stages := s.stages[q := SendFailed(id)]))
    case Delete(q, done) =>
      if !StageOf(s, q).Acknowledged? then None
      else Some(s.(stages := s.stages[q := Ready], rows := if done then s.rows - {StageOf(s, q).id} else s.rows))
    case Mark(q, done) =>
      if !StageOf(s, q).SendFailed? then None
      else Some(s.(stages := s.stages[q := Ready],
                   rows := if done then WithStatus(s.rows, [StageOf(s, q).id], Failed) else s.rows))
    case Finish(q) =>
      if ProducerSlot(q) !in s.mem || s.mem[ProducerSlot(q)] != [] || StageOf(s, q) != Ready then None
      else Some(s.(mem := s.mem - {ProducerSlot(q)}))
    case Crash => Some(s.(mem := map[], head := s.tail, stopped := {}, stages := map[]))
  }

  ghost function After(s: State, run: seq<Action>): Option<State> {
    if run == [] then Some(s)
    else
      var before := After(s, run[..|run| - 1]);
      if before.None? then None else Next(before.value, run[|run| - 1])
  }

  // ---- invariant ----

  ghost predicate SlotOk(s: State, slot: Slot) {
    slot in s.mem ==>
      && NoDup(s.mem[slot])
      && forall id :: id in s.mem[slot] ==> id in s.rows && s.rows[id].status == Processing && id !in s.attempted
  }

  ghost predicate SlotsApart(s: State, a: Slot, b: Slot) {
    a != b && a in s.mem && b in s.mem ==> forall id :: id in s.mem[a] ==> id !in s.mem[b]
  }

  ghost predicate MemoryOk(s: State) {
    && (forall slot :: SlotOk(s, slot))
    && (forall a, b :: SlotsApart(s, a, b))
  }

  ghost predicate Picked(s: State, id: nat) {
    exists k :: 0 <= k < |s.picks| && id in s.picks[k]
  }

  ghost predicate RowsOk(s: State) {
    && s.rows.Keys <= s.committed
    && (forall id :: id in s.committed && id !in s.rows ==> id in s.acked)
    && (forall id :: id in s.rows && s.rows[id].status == Failed ==> id in s.errored)
    && (forall id :: IsCreated(s.rows, id) ==> id !in s.attempted && !Picked(s, id))
  }

  ghost predicate PicksOk(s: State) {
    && (forall k :: 0 <= k < |s.picks| ==> NoDup(s.picks[k]) && |s.picks[k]| <= BATCH_LIMIT)
    && (forall k, m, id :: 0 <= k < m < |s.picks| && id in s.picks[k] ==> id !in s.picks[m])
    && (forall k, id :: 0 <= k < |s.picks| && id in s.picks[k] ==> id in s.committed)
  }

  ghost predicate SendsOk(s: State) {
    && NoDup(s.attempted)
    && (forall id :: id in s.acked || id in s.errored ==> id in s.attempted)
    && s.acked !! s.errored
    && (forall id :: id in s.attempted ==> id in s.committed)
  }

  /** The task a producer has passed to SendMessage is a processing row, and the logs know its answer. */
  ghost predicate StageOk(s: State, q: nat) {
    match StageOf(s, q)
    case Ready => true
    case Sending(id) => InHand(s, id) && id !in s.acked && id !in s.errored
    case Acknowledged(id) => InHand(s, id) && id in s.acked
    case SendFailed(id) => InHand(s, id) && id in s.errored
  }

  predicate InHand(s: State, id: nat) {
    id in s.rows && s.rows[id].status == Processing && id in s.attempted
  }

  ghost predicate StagesApart(s: State, q: nat, r: nat) {
    q != r && StageOf(s, q) != Ready && StageOf(s, r) != Ready ==> StageOf(s, q).id != StageOf(s, r).id
  }

  ghost predicate StagesOk(s: State) {
    && (forall q: nat :: StageOk(s, q))
    && (forall q: nat, r: nat :: StagesApart(s, q, r))
  }

  function Load(s: State, slot: Slot): nat {
    if slot in s.mem then |s.mem[slot]| else 0
  }

  /** The task from SendMessage to the change of its row is still held. */
  function InFlight(s: State, q: nat): nat {
    if StageOf(s, q) == Ready then 0 else 1
  }

  ghost predicate RoomOk(s: State) {
    && (forall slot :: Load(s, slot) <= BATCH_LIMIT)
    && (forall q :: Load(s, ProducerSlot(q)) + InFlight(s, q) <= BATCH_LIMIT)
    && (forall q :: StageOf(s, q) != Ready ==> ProducerSlot(q) in s.mem)
    && s.head <= s.tail <= s.head + s.config.capacity
    && (forall n: nat :: QueueSlot(n) in s.mem <==> s.head <= n < s.tail)
    && (forall p: nat :: PollerSlot(p) in s.mem ==> p < s.config.pollers)
    && (forall q: nat :: ProducerSlot(q) in s.mem ==> q < s.config.producers)
  }

  ghost predicate Inv(s: State) {
    MemoryOk(s) && RowsOk(s) && PicksOk(s) && SendsOk(s) && StagesOk(s) && RoomOk(s)
  }

  // ---- every step keeps it ----

  lemma MemoryStep(s: State, a: Action)
    requires MemoryOk(s) && RowsOk(s) && SendsOk(s) && StagesOk(s) && Next(s, a).Some?
    ensures MemoryOk(Next(s, a).value)
  {
    var s' := Next(s, a).value;
    forall slot ensures SlotOk(s', slot) {
      SlotStep(s, a, slot);
    }
    forall x, y ensures SlotsApart(s', x, y) {
      ApartStep(s, a, x, y);
    }
  }

  /** Where the contents of a slot come from: the same slot, the slot a batch moved from, or a pick. */
  function Source(s: State, a: Action, slot: Slot): Slot {
    match a
    case Enqueue(p) => if slot == QueueSlot(s.tail) then PollerSlot(p) else slot
    case Dequeue(q) => if slot == ProducerSlot(q) then QueueSlot(s.head) else slot
    case _ => slot
  }

  lemma ContentStep(s: State, a: Action, slot: Slot)
    requires Next(s, a).Some? && slot in Next(s, a).value.mem
    ensures var s' := Next(s, a).value; var from := Source(s, a, slot);
            || (a.Pick? && slot == PollerSlot(a.p) && s'.mem[slot] == a.batch && slot !in s.mem)
            || (from in s.mem && (s'.mem[slot] == s.mem[from]
                                  || (s.mem[from] != [] && s'.mem[slot] == s.mem[from][1..] && slot == from)))
  {
  }

  /** A row in memory keeps its status, unless its task is the one being sent. */
  lemma RowStep(s: State, a: Action, id: nat)
    requires RowsOk(s) && SendsOk(s) && StagesOk(s) && Next(s, a).Some?
    requires id in s.rows && s.rows[id].status == Processing && id !in s.attempted
    ensures var s' := Next(s, a).value; id in s'.rows && s'.rows[id].status == Processing
    ensures id in Next(s, a).value.attempted ==> a.Send? && id == s.mem[ProducerSlot(a.q)][0]
  {
    if a.Delete? || a.Mark? { assert StageOk(s, a.q); }
  }

  lemma SlotStep(s: State, a: Action, slot: Slot)
    requires MemoryOk(s) && RowsOk(s) && SendsOk(s) && StagesOk(s) && Next(s, a).Some?
    ensures SlotOk(Next(s, a).value, slot)
  {
    var s' := Next(s, a).value;
    if slot in s'.mem {
      ContentStep(s, a, slot);
      var from := Source(s, a, slot);
      assert SlotOk(s, from);
      if !(a.Pick? && slot == PollerSlot(a.p)) {
        forall id | id in s'.mem[slot]
          ensures id in s'.rows && s'.rows[id].status == Processing && id !in s'.attempted
        {
          assert id in s.mem[from];
          RowStep(s, a, id);
          if a.Send? {
            assert SlotsApart(s, ProducerSlot(a.q), from);
          }
        }
      }
    }
  }

  lemma ApartStep(s: State, a: Action, x: Slot, y: Slot)
    requires MemoryOk(s) && Next(s, a).Some?
    ensures SlotsApart(Next(s, a).value, x, y)
  {
    var s' := Next(s, a).value;
    if x != y && x in s'.mem && y in s'.mem {
      ContentStep(s, a, x);
      ContentStep(s, a, y);
      var fx, fy := Source(s, a, x), Source(s, a, y);
      assert SlotOk(s, fx) && SlotOk(s, fy) && SlotsApart(s, fx, fy);
    }
  }

  /** A created row is new or was created before, and was neither picked nor sent. */
  lemma CreatedStep(s: State, a: Action, id: nat)
    requires RowsOk(s) && SendsOk(s) && PicksOk(s) && MemoryOk(s) && Next(s, a).Some?
              && IsCreated(Next(s, a).value.rows, id)
    ensures id !in Next(s, a).value.attempted && !Picked(Next(s, a).value, id)
  {
    var s' := Next(s, a).value;
    assert a.Insert? || IsCreated(s.rows, id);
    if a.Pick? {
      assert id !in a.batch;
      assert s'.picks == s.picks + [a.batch];
    }
    if a.Send? {
      assert SlotOk(s, ProducerSlot(a.q));
    }
  }

  /** A row leaves the table or becomes failed only after the answer to its send. */
  lemma AnsweredStep(s: State, a: Action, id: nat)
    requires RowsOk(s) && StagesOk(s) && Next(s, a).Some?
    ensures var s' := Next(s, a).value;
            && (id in s'.rows ==> id in s'.committed)
            && (id in s'.committed && id !in s'.rows ==> id in s'.acked)
            && (id in s'.rows && s'.rows[id].status == Failed ==> id in s'.errored)
  {
    if a.Delete? || a.Mark? { assert StageOk(s, a.q); }
  }

  lemma RowsStep(s: State, a: Action)
    requires RowsOk(s) && SendsOk(s) && StagesOk(s) && PicksOk(s) && MemoryOk(s) && Next(s, a).Some?
    ensures RowsOk(Next(s, a).value)
  {
    var s' := Next(s, a).value;
    forall id: nat
      ensures id in s'.rows ==> id in s'.committed
      ensures id in s'.committed && id !in s'.rows ==> id in s'.acked
      ensures id in s'.rows && s'.rows[id].status == Failed ==> id in s'.errored
      ensures IsCreated(s'.rows, id) ==> id !in s'.attempted && !Picked(s', id)
    {
      AnsweredStep(s, a, id);
      if IsCreated(s'.rows, id) { CreatedStep(s, a, id); }
    }
  }

  lemma PicksStep(s: State, a: Action)
    requires RowsOk(s) && PicksOk(s) && Next(s, a).Some?
    ensures PicksOk(Next(s, a).value)
  {
    if a.Pick? {
      forall k, id | 0 <= k < |s.picks| && id in s.picks[k] ensures id !in a.batch {
        assert Picked(s, id);
      }
      forall id | id in a.batch ensures id in s.committed {
        assert IsCreated(s.rows, id);
      }
    } else {
      var s' := Next(s, a).value;
      assert s'.picks == s.picks && s.committed <= s'.committed;
    }
  }

  lemma SendsStep(s: State, a: Action)
    requires SendsOk(s) && StagesOk(s) && RowsOk(s) && MemoryOk(s) && Next(s, a).Some?
    ensures SendsOk(Next(s, a).value)
  {
    if a.Send? {
      assert SlotOk(s, ProducerSlot(a.q));
      assert s.mem[ProducerSlot(a.q)][0] in s.mem[ProducerSlot(a.q)];
    }
    if a.Answer? { assert StageOk(s, a.q); }
  }

  /** The stage of a producer is as before, over, or one further. */
  lemma StageStep(s: State, a: Action, q: nat)
    requires Next(s, a).Some?
    ensures var s' := Next(s, a).value;
            || StageOf(s', q) == Ready
            || (StageOf(s', q) == StageOf(s, q) && (ProducerSlot(q) in s.mem ==>
                      ProducerSlot(q) in s'.mem && Load(s', ProducerSlot(q)) <= Load(s, ProducerSlot(q))))
            || (a == Send(q) && Facing(s, q) && StageOf(s', q) == Sending(s.mem[ProducerSlot(q)][0])
                && ProducerSlot(q) in s'.mem && Load(s', ProducerSlot(q)) + 1 == Load(s, ProducerSlot(q)))
            || (a.Answer? && a.q == q && StageOf(s, q).Sending? && StageOf(s', q) != Ready
                && StageOf(s', q).id == StageOf(s, q).id && s'.mem == s.mem)
  {
  }

  /** A task in hand stays so until its own row is deleted or marked. */
  lemma InHandStep(s: State, a: Action, id: nat)
    requires SendsOk(s) && Next(s, a).Some? && InHand(s, id) && id in s.committed
    requires (a.Delete? || a.Mark?) && a.done ==> StageOf(s, a.q).id != id
    ensures InHand(Next(s, a).value, id)
  {
  }

  lemma StageOkStep(s: State, a: Action, q: nat)
    requires SendsOk(s) && StagesOk(s) && MemoryOk(s) && Next(s, a).Some?
    ensures StageOk(Next(s, a).value, q)
  {
    var s' := Next(s, a).value;
    assert StageOk(s, q);
    if a == Send(q) {
      assert SlotOk(s, ProducerSlot(q));
      assert s.mem[ProducerSlot(q)][0] in s.mem[ProducerSlot(q)];
    } else if StageOf(s', q) != Ready {
      StageStep(s, a, q);
      if (a.Delete? || a.Mark?) && a.done { assert StagesApart(s, a.q, q); }
      if a.Answer? { assert StagesApart(s, a.q, q); }
      InHandStep(s, a, StageOf(s, q).id);
    }
  }

  lemma StagesApartStep(s: State, a: Action, q: nat, r: nat)
    requires StagesOk(s) && MemoryOk(s) && Next(s, a).Some?
    ensures StagesApart(Next(s, a).value, q, r)
  {
    assert StagesApart(s, q, r) && StageOk(s, q) && StageOk(s, r);
    StageStep(s, a, q);
    StageStep(s, a, r);
    if a.Send? {
      assert SlotOk(s, ProducerSlot(a.q));
      assert s.mem[ProducerSlot(a.q)][0] in s.mem[ProducerSlot(a.q)];
    }
  }

  lemma StagesStep(s: State, a: Action)
    requires SendsOk(s) && StagesOk(s) && MemoryOk(s) && Next(s, a).Some?
    ensures StagesOk(Next(s, a).value)
  {
    forall q: nat ensures StageOk(Next(s, a).value, q) { StageOkStep(s, a, q); }
    forall q: nat, r: nat ensures StagesApart(Next(s, a).value, q, r) { StagesApartStep(s, a, q, r); }
  }

  lemma LoadStep(s: State, a: Action, slot: Slot)
    requires RoomOk(s) && Next(s, a).Some?
    ensures Load(Next(s, a).value, slot) <= BATCH_LIMIT
  {
    if slot in Next(s, a).value.mem {
      ContentStep(s, a, slot);
      assert Load(s, Source(s, a, slot)) <= BATCH_LIMIT;
    }
  }

  lemma QueueStep(s: State, a: Action)
    requires RoomOk(s) && Next(s, a).Some?
    ensures var s' := Next(s, a).value;
            && s'.config == s.config
            && s'.head <= s'.tail <= s'.head + s'.config.capacity
            && (forall n: nat :: QueueSlot(n) in s'.mem <==> s'.head <= n < s'.tail)
            && (forall p: nat :: PollerSlot(p) in s'.mem ==> p < s'.config.pollers)
            && (forall q: nat :: ProducerSlot(q) in s'.mem ==> q < s'.config.producers)
  {
  }

  lemma RoomStep(s: State, a: Action)
    requires RoomOk(s) && Next(s, a).Some?
    ensures RoomOk(Next(s, a).value)
  {
    var s' := Next(s, a).value;
    QueueStep(s, a);
    forall slot ensures Load(s', slot) <= BATCH_LIMIT {
      LoadStep(s, a, slot);
    }
    forall q: nat
      ensures Load(s', ProducerSlot(q)) + InFlight(s', q) <= BATCH_LIMIT
      ensures StageOf(s', q) != Ready ==> ProducerSlot(q) in s'.mem
    {
      StageStep(s, a, q);
      LoadStep(s, a, ProducerSlot(q));
      assert Load(s, ProducerSlot(q)) + InFlight(s, q) <= BATCH_LIMIT;
    }
  }

  lemma InvStep(s: State, a: Action)
    requires Inv(s) && Next(s, a).Some?
    ensures Inv(Next(s, a).value)
  {
    MemoryStep(s, a);
    RowsStep(s, a);
    PicksStep(s, a);
    SendsStep(s, a);
    StagesStep(s, a);
    RoomStep(s, a);
  }

  lemma {:induction false} Reachable(config: Config, run: seq<Action>)
    ensures var s := After(Init(config), run); s.Some? ==> Inv(s.value)
  {
    if run != [] && After(Init(config), run).Some? {
      Reachable(config, run[..|run| - 1]);
      InvStep(After(Init(config), run[..|run| - 1]).value, run[|run| - 1]);
    }
  }
}
