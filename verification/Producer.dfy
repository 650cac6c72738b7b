/** The producer of the audit log and its loops: every task of a batch is marshalled, sent, and then
    deleted or marked failed; an error ends neither the batch nor the loop.  Requests, pollers and other
    producers act between its turns; the loops are proved runs of the pipeline protocol. */
module Producer {
  import opened Domain
  import opened Tables
  import opened Service
  import P = Pipeline

  /** What happens to one task: marshalling fails; SendMessage fails and marking the row succeeds or
      not; SendMessage succeeds and deleting the row succeeds or not. */
  datatype Fate = Unmarshalled | Unsent(marked: bool) | Sent(deleted: bool)

  /** The steps of producer `q` in the pipeline protocol for one task. */
  function Steps(q: nat, fate: Fate): seq<P.Action> {
    match fate
    case Unmarshalled => [P.SkipUnmarshalled(q)]
    case Unsent(marked) => [P.Send(q), P.Answer(q, false), P.Mark(q, marked)]
    case Sent(deleted) => [P.Send(q), P.Answer(q, true), P.Delete(q, deleted)]
  }

  function Ids(batch: seq<Message>): seq<nat> {
    seq(|batch|, i requires 0 <= i < |batch| => batch[i].id)
  }

  /** The buffered channel of batches. */
  class Channel {
    const capacity: nat
    var batches: seq<seq<Message>>

    constructor (capacity: nat)
      ensures this.capacity == capacity && batches == []
    {
      this.capacity, batches := capacity, [];
    }

    method Send(batch: seq<Message>)
      requires |batches| < capacity
      modifies this
      ensures batches == old(batches) + [batch]
    {
      batches := batches + [batch];
    }

    method Receive() returns (batch: seq<Message>)
      requires batches != []
      modifies this
      ensures [batch] + batches == old(batches)
    {
      batch := batches[0];
      batches := batches[1..];
    }
  }

  /** A channel with these batches holds what protocol state `p` has in its queue slots. */
  ghost predicate QueueIs(p: P.State, capacity: nat, batches: seq<seq<Message>>) {
    && p.config.capacity == capacity && p.tail == p.head + |batches| && |batches| <= capacity
    && forall k: nat :: p.head <= k < p.tail ==>
         P.QueueSlot(k) in p.mem && p.mem[P.QueueSlot(k)] == Ids(batches[k - p.head])
  }

  /** What the workers share: the outbox table, what was passed to SendMessage and how it was answered,
      and the channel. */
  datatype Scene = Scene(rows: map<nat, TaskRow>, attempted: seq<nat>, acked: set<nat>, errored: set<nat>,
                         batches: seq<seq<Message>>)

  ghost predicate Sees(p: P.State, capacity: nat, scene: Scene) {
    && p.rows == scene.rows && p.attempted == scene.attempted && p.acked == scene.acked && p.errored == scene.errored
    && QueueIs(p, capacity, scene.batches)
  }

  /** Producer `q` is between two tasks and has `left` to work off. */
  ghost predicate Holding(p: P.State, q: nat, left: seq<nat>) {
    P.ProducerSlot(q) in p.mem && p.mem[P.ProducerSlot(q)] == left && P.StageOf(p, q) == P.Ready
  }

  /** Producer `q` is between two batches. */
  ghost predicate Idle(p: P.State, q: nat) {
    P.ProducerSlot(q) !in p.mem && P.StageOf(p, q) == P.Ready && q < p.config.producers
  }

  // ---- what others do between two turns ----

  /** A step that is not taken by producer `q`, nor the end of its process. */
  predicate ByOthers(a: P.Action, q: nat) {
    match a
    case Crash => false
    case Dequeue(r) => r != q
    case SkipUnmarshalled(r) => r != q
    case Send(r) => r != q
    case Answer(r, _) => r != q
    case Delete(r, _) => r != q
    case Mark(r, _) => r != q
    case Finish(r) => r != q
    case _ => true
  }

  predicate OthersOnly(acts: seq<P.Action>, q: nat) {
    forall i :: 0 <= i < |acts| ==> ByOthers(acts[i], q)
  }

  /** The steps `acts` of others lead to what the producer finds in `scene`. */
  ghost predicate Between(p: P.State, q: nat, capacity: nat, acts: seq<P.Action>, scene: Scene) {
    && P.After(p, acts).Some? && Sees(P.After(p, acts).value, capacity, scene)
    && OthersOnly(acts, q)
  }

  ghost predicate SameProducer(p: P.State, p': P.State, q: nat) {
    && p'.config == p.config && P.StageOf(p', q) == P.StageOf(p, q)
    && (P.ProducerSlot(q) in p'.mem <==> P.ProducerSlot(q) in p.mem)
    && (P.ProducerSlot(q) in p.mem ==> p'.mem[P.ProducerSlot(q)] == p.mem[P.ProducerSlot(q)])
  }

  lemma OtherLeaves(p: P.State, a: P.Action, q: nat)
    requires ByOthers(a, q) && P.Next(p, a).Some?
    ensures SameProducer(p, P.Next(p, a).value, q)
  {
  }

  lemma {:induction false} OthersLeave(p: P.State, acts: seq<P.Action>, q: nat)
    requires P.After(p, acts).Some? && OthersOnly(acts, q)
    ensures SameProducer(p, P.After(p, acts).value, q)
  {
    if acts != [] {
      var n := |acts| - 1;
      OthersLeave(p, acts[..n], q);
      OtherLeaves(P.After(p, acts[..n]).value, acts[n], q);
    }
  }

  // ---- one task ----

  /** The scene once task `id` has met its fate. */
  function SceneAfter(scene: Scene, id: nat, fate: Fate): Scene {
    match fate
    case Unmarshalled => scene
    case Unsent(marked) =>
      scene.(attempted := scene.attempted + [id], errored := scene.errored + {id},
             rows := if marked then P.WithStatus(scene.rows, [id], Failed) else scene.rows)
    case Sent(deleted) =>
      scene.(attempted := scene.attempted + [id], acked := scene.acked + {id},
             rows := if deleted then scene.rows - {id} else scene.rows)
  }

  /** The state when the next task has been sent and answered. */
  function Answered(p: P.State, q: nat, id: nat, rest: seq<nat>, ok: bool): P.State {
    var p1 := p.(mem := p.mem[P.ProducerSlot(q) := rest], attempted := p.attempted + [id]);
    if ok then p1.(acked := p.acked + {id}, stages := p.stages[q := P.Acknowledged(id)])
    else p1.(errored := p.errored + {id}, stages := p.stages[q := P.SendFailed(id)])
  }

  lemma AnswerComes(p: P.State, q: nat, id: nat, rest: seq<nat>, ok: bool)
    requires Holding(p, q, [id] + rest)
    ensures Then(P.Next(p, P.Send(q)), P.Answer(q, ok)) == Some(Answered(p, q, id, rest, ok))
  {
    assert ([id] + rest)[1..] == rest;
    var stage := if ok then P.Acknowledged(id) else P.SendFailed(id);
    assert p.stages[q := P.Sending(id)][q := stage] == p.stages[q := stage];
  }

  /** The state when the task has met its fate. */
  function Handled(p: P.State, q: nat, id: nat, rest: seq<nat>, fate: Fate): P.State {
    match fate
    case Unmarshalled => p.(mem := p.mem[P.ProducerSlot(q) := rest])
    case Unsent(marked) =>
      var p2 := Answered(p, q, id, rest, false);
      p2.(stages := p.stages[q := P.Ready], rows := if marked then P.WithStatus(p.rows, [id], Failed) else p.rows)
    case Sent(deleted) =>
      var p2 := Answered(p, q, id, rest, true);
      p2.(stages := p.stages[q := P.Ready], rows := if deleted then p.rows - {id} else p.rows)
  }

  lemma RowChanges(p: P.State, q: nat, id: nat, rest: seq<nat>, fate: Fate)
    requires !fate.Unmarshalled?
    ensures P.Next(Answered(p, q, id, rest, fate.Sent?),
                   if fate.Sent? then P.Delete(q, fate.deleted) else P.Mark(q, fate.marked))
              == Some(Handled(p, q, id, rest, fate))
  {
    var stage := if fate.Sent? then P.Acknowledged(id) else P.SendFailed(id);
    assert p.stages[q := stage][q := P.Ready] == p.stages[q := P.Ready];
  }

  /** The steps for one task are enabled, and this is where they lead. */
  lemma FateRuns(p: P.State, q: nat, id: nat, rest: seq<nat>, fate: Fate)
    requires Holding(p, q, [id] + rest)
    ensures P.After(p, Steps(q, fate)) == Some(Handled(p, q, id, rest, fate))
  {
    assert ([id] + rest)[1..] == rest;
    match fate
    case Unmarshalled => AfterOne(p, P.SkipUnmarshalled(q));
    case Unsent(marked) =>
      AfterThree(p, P.Send(q), P.Answer(q, false), P.Mark(q, marked));
      AnswerComes(p, q, id, rest, false);
      RowChanges(p, q, id, rest, fate);
    case Sent(deleted) =>
      AfterThree(p, P.Send(q), P.Answer(q, true), P.Delete(q, deleted));
      AnswerComes(p, q, id, rest, true);
      RowChanges(p, q, id, rest, fate);
  }

  lemma FateScene(p: P.State, q: nat, capacity: nat, scene: Scene, id: nat, rest: seq<nat>, fate: Fate)
    requires Sees(p, capacity, scene) && Holding(p, q, [id] + rest)
    ensures Sees(Handled(p, q, id, rest, fate), capacity, SceneAfter(scene, id, fate))
    ensures Holding(Handled(p, q, id, rest, fate), q, rest)
  {
  }

  // ---- runs of the loops ----

  /** The steps of a batch, those of others before each task included. */
  function Woven(q: nat, fates: seq<Fate>, acts: seq<seq<P.Action>>): seq<P.Action>
    requires |acts| == |fates|
  {
    if fates == [] then []
    else
      var n := |fates| - 1;
      Woven(q, fates[..n], acts[..n]) + (acts[n] + Steps(q, fates[n]))
  }

  /** `scenes` is what the producer finds before each task when others take the steps `acts` in between. */
  ghost predicate Meets(p: P.State, q: nat, capacity: nat, fates: seq<Fate>, acts: seq<seq<P.Action>>,
                        scenes: seq<Scene>)
    requires |acts| == |scenes| == |fates|
    decreases |fates|
  {
    fates != [] ==>
      && Between(p, q, capacity, acts[0], scenes[0])
      && var next := P.After(P.After(p, acts[0]).value, Steps(q, fates[0]));
         next.Some? ==> Meets(next.value, q, capacity, fates[1..], acts[1..], scenes[1..])
  }

  /** One turn of Run: what the producer finds, the fates of the batch it takes, and what it finds before
      each of its tasks. */
  datatype Turn = Turn(scene: Scene, fates: seq<Fate>, scenes: seq<Scene>)

  /** The steps of others before a turn and before each of its tasks. */
  datatype Shadow = Shadow(before: seq<P.Action>, within: seq<seq<P.Action>>)

  predicate Shaped(turn: Turn, shadow: Shadow) {
    && turn.scene.batches != []
    && |turn.fates| == |turn.scenes| == |shadow.within| == |turn.scene.batches[0]|
  }

  function TurnSteps(q: nat, turn: Turn, shadow: Shadow): seq<P.Action>
    requires Shaped(turn, shadow)
  {
    shadow.before + ([P.Dequeue(q)] + Woven(q, turn.fates, shadow.within) + [P.Finish(q)])
  }

  function Turns(q: nat, turns: seq<Turn>, shadows: seq<Shadow>): seq<P.Action>
    requires |turns| == |shadows| && forall i :: 0 <= i < |turns| ==> Shaped(turns[i], shadows[i])
  {
    if turns == [] then []
    else
      var n := |turns| - 1;
      Turns(q, turns[..n], shadows[..n]) + TurnSteps(q, turns[n], shadows[n])
  }

  ghost predicate MeetsTurn(p: P.State, q: nat, capacity: nat, turn: Turn, shadow: Shadow)
    requires Shaped(turn, shadow)
  {
    && Between(p, q, capacity, shadow.before, turn.scene)
    && var next := P.Next(P.After(p, shadow.before).value, P.Dequeue(q));
       next.Some? ==> Meets(next.value, q, capacity, turn.fates, shadow.within, turn.scenes)
  }

  ghost predicate MeetsAll(p: P.State, q: nat, capacity: nat, turns: seq<Turn>, shadows: seq<Shadow>)
    requires |turns| == |shadows| && forall i :: 0 <= i < |turns| ==> Shaped(turns[i], shadows[i])
    decreases |turns|
  {
    turns != [] ==>
      && MeetsTurn(p, q, capacity, turns[0], shadows[0])
      && var next := P.After(p, TurnSteps(q, turns[0], shadows[0]));
         next.Some? ==> MeetsAll(next.value, q, capacity, turns[1..], shadows[1..])
  }

  class AuditProducer {
    const outbox: OrderOutbox
    const channel: Channel
    /** What was passed to SendMessage by any producer, and which sends were answered how. */
    var attempted: seq<nat>
    var acked: set<nat>
    var errored: set<nat>

    constructor (outbox: OrderOutbox, channel: Channel)
      ensures this.outbox == outbox && this.channel == channel && attempted == [] && acked == errored == {}
    {
      this.outbox, this.channel, attempted, acked, errored := outbox, channel, [], {}, {};
    }

    function View(): Scene
      reads this, outbox.db, channel
    {
      Scene(outbox.db.tables.outbox, attempted, acked, errored, channel.batches)
    }

    /** Others have acted. */
    method Meanwhile(scene: Scene)
      modifies this, outbox.db, channel
      ensures View() == scene
    {
      outbox.db.tables := outbox.db.tables.(outbox := scene.rows);
      attempted, acked, errored, channel.batches := scene.attempted, scene.acked, scene.errored, scene.batches;
    }

    method SendMessage(id: nat, ok: bool)
      modifies this
      ensures attempted == old(attempted) + [id]
      ensures acked == old(acked) + (if ok then {id} else {}) && errored == old(errored) + (if ok then {} else {id})
    {
      attempted := attempted + [id];
      if ok { acked := acked + {id}; } else { errored := errored + {id}; }
    }

    /** The body of the loop of `work`. */
    method Handle(task: Message, fate: Fate)
      modifies this, outbox.db
      ensures View() == SceneAfter(old(View()), task.id, fate)
    {
      if fate.Unmarshalled? { return; }
      SendMessage(task.id, fate.Sent?);
      if fate.Unsent? {
        var _ := outbox.MarkTaskAsFailed(Background, task.id, !fate.marked);
        return;
      }
      var _ := outbox.DeleteTask(Background, task.id, !fate.deleted);
    }

    /** A batch, with others acting before each task, is a run of the protocol. */
    method Work(batch: seq<Message>, fates: seq<Fate>, scenes: seq<Scene>,
                ghost acts: seq<seq<P.Action>>, ghost p: P.State, ghost q: nat) returns (ghost p': P.State)
      requires |fates| == |scenes| == |acts| == |batch|
      requires Sees(p, channel.capacity, View()) && Holding(p, q, Ids(batch))
      requires Meets(p, q, channel.capacity, fates, acts, scenes)
      modifies this, outbox.db, channel
      ensures Sees(p', channel.capacity, View()) && Holding(p', q, []) && p'.config == p.config
      ensures P.After(p, Woven(q, fates, acts)) == Some(p')
    {
      p' := p;
      for i := 0 to |batch|
        invariant Sees(p', channel.capacity, View()) && Holding(p', q, Ids(batch[i..])) && p'.config == p.config
        invariant Meets(p', q, channel.capacity, fates[i..], acts[i..], scenes[i..])
        invariant P.After(p, Woven(q, fates[..i], acts[..i])) == Some(p')
      {
        ghost var before := p';
        Meanwhile(scenes[i]);
        Handle(batch[i], fates[i]);
        p' := TaskTurn(p, before, q, channel.capacity, batch, fates, acts, scenes, i);
      }
      assert fates[..|batch|] == fates && acts[..|batch|] == acts;
      assert Ids(batch[|batch|..]) == [];
    }

    /** The body of the loop of Run: takes a batch off the channel and works it off. */
    method Take(turn: Turn, ghost shadow: Shadow, ghost p: P.State, ghost q: nat) returns (ghost p': P.State)
      requires Shaped(turn, shadow) && Idle(p, q) && MeetsTurn(p, q, channel.capacity, turn, shadow)
      modifies this, outbox.db, channel
      ensures Sees(p', channel.capacity, View()) && Idle(p', q)
      ensures P.After(p, TurnSteps(q, turn, shadow)) == Some(p')
    {
      Meanwhile(turn.scene);
      ghost var p1 := P.After(p, shadow.before).value;
      OthersLeave(p, shadow.before, q);
      var batch := channel.Receive();
      DequeueStep(p1, channel.capacity, turn.scene, batch, channel.batches, q);
      ghost var p2 := P.Next(p1, P.Dequeue(q)).value;
      ghost var p3 := Work(batch, turn.fates, turn.scenes, shadow.within, p2, q);
      FinishStep(p3, channel.capacity, View(), q);
      p' := P.Next(p3, P.Finish(q)).value;
      TurnRuns(p, p1, p2, p3, q, turn, shadow);
    }

    /** Any number of turns of the loop, with others acting in between, are a run of the protocol. */
    method Run(turns: seq<Turn>, ghost shadows: seq<Shadow>, ghost p: P.State, ghost q: nat) returns (ghost p': P.State)
      requires |turns| == |shadows| && forall i :: 0 <= i < |turns| ==> Shaped(turns[i], shadows[i])
      requires Sees(p, channel.capacity, View()) && Idle(p, q) && MeetsAll(p, q, channel.capacity, turns, shadows)
      modifies this, outbox.db, channel
      ensures Sees(p', channel.capacity, View()) && Idle(p', q)
      ensures P.After(p, Turns(q, turns, shadows)) == Some(p')
    {
      p' := p;
      for i := 0 to |turns|
        invariant Sees(p', channel.capacity, View()) && Idle(p', q)
        invariant MeetsAll(p', q, channel.capacity, turns[i..], shadows[i..])
        invariant P.After(p, Turns(q, turns[..i], shadows[..i])) == Some(p')
      {
        ghost var before := p';
        assert turns[i..][0] == turns[i] && shadows[i..][0] == shadows[i];
        p' := Take(turns[i], shadows[i], before, q);
        TurnsSnoc(p, before, p', q, turns, shadows, i);
        assert turns[i..][1..] == turns[i + 1..] && shadows[i..][1..] == shadows[i + 1..];
      }
      assert turns[..|turns|] == turns && shadows[..|turns|] == shadows;
    }
  }

  // ---- how the pieces fit ----

  /** The first task of a batch, after the steps of others before it. */
  lemma HeadTurn(before: P.State, q: nat, capacity: nat, id: nat, rest: seq<nat>,
                 fates: seq<Fate>, acts: seq<seq<P.Action>>, scenes: seq<Scene>) returns (mid: P.State, p': P.State)
    requires |acts| == |scenes| == |fates| > 0
    requires Holding(before, q, [id] + rest) && Meets(before, q, capacity, fates, acts, scenes)
    ensures P.After(before, acts[0]) == Some(mid) && P.After(mid, Steps(q, fates[0])) == Some(p')
    ensures Sees(p', capacity, SceneAfter(scenes[0], id, fates[0]))
    ensures Holding(p', q, rest) && p'.config == before.config
    ensures Meets(p', q, capacity, fates[1..], acts[1..], scenes[1..])
  {
    mid := P.After(before, acts[0]).value;
    OthersLeave(before, acts[0], q);
    FateRuns(mid, q, id, rest, fates[0]);
    FateScene(mid, q, capacity, scenes[0], id, rest, fates[0]);
    p' := Handled(mid, q, id, rest, fates[0]);
  }

  lemma TaskTurn(p: P.State, before: P.State, q: nat, capacity: nat, batch: seq<Message>,
                 fates: seq<Fate>, acts: seq<seq<P.Action>>, scenes: seq<Scene>, i: nat) returns (p': P.State)
    requires |fates| == |scenes| == |acts| == |batch| && i < |batch|
    requires Holding(before, q, Ids(batch[i..])) && Meets(before, q, capacity, fates[i..], acts[i..], scenes[i..])
    requires P.After(p, Woven(q, fates[..i], acts[..i])) == Some(before)
    ensures P.After(p, Woven(q, fates[..i + 1], acts[..i + 1])) == Some(p')
    ensures Sees(p', capacity, SceneAfter(scenes[i], batch[i].id, fates[i]))
    ensures Holding(p', q, Ids(batch[i + 1..])) && p'.config == before.config
    ensures Meets(p', q, capacity, fates[i + 1..], acts[i + 1..], scenes[i + 1..])
  {
    var rest := Ids(batch[i + 1..]);
    assert Ids(batch[i..]) == [batch[i].id] + rest;
    assert fates[i..][1..] == fates[i + 1..] && acts[i..][1..] == acts[i + 1..] && scenes[i..][1..] == scenes[i + 1..];
    var mid;
    mid, p' := HeadTurn(before, q, capacity, batch[i].id, rest, fates[i..], acts[i..], scenes[i..]);
    WovenSnoc(p, before, mid, p', q, fates, acts, i);
  }

  lemma WovenSnoc(p: P.State, before: P.State, mid: P.State, after: P.State, q: nat,
                  fates: seq<Fate>, acts: seq<seq<P.Action>>, i: nat)
    requires i < |fates| == |acts| && P.After(p, Woven(q, fates[..i], acts[..i])) == Some(before)
    requires P.After(before, acts[i]) == Some(mid) && P.After(mid, Steps(q, fates[i])) == Some(after)
    ensures P.After(p, Woven(q, fates[..i + 1], acts[..i + 1])) == Some(after)
  {
    assert fates[..i + 1][..i] == fates[..i] && acts[..i + 1][..i] == acts[..i];
    AfterConcat(before, acts[i], Steps(q, fates[i]));
    AfterConcat(p, Woven(q, fates[..i], acts[..i]), acts[i] + Steps(q, fates[i]));
  }

  lemma DequeueStep(p: P.State, capacity: nat, scene: Scene, batch: seq<Message>, rest: seq<seq<Message>>, q: nat)
    requires Sees(p, capacity, scene) && scene.batches == [batch] + rest && Idle(p, q)
    ensures P.Next(p, P.Dequeue(q)).Some?
    ensures var p' := P.Next(p, P.Dequeue(q)).value;
            Sees(p', capacity, scene.(batches := rest)) && Holding(p', q, Ids(batch)) && p'.config == p.config
  {
    assert P.QueueSlot(p.head) in p.mem;
  }

  lemma FinishStep(p: P.State, capacity: nat, scene: Scene, q: nat)
    requires Sees(p, capacity, scene) && Holding(p, q, []) && q < p.config.producers
    ensures P.Next(p, P.Finish(q)).Some?
    ensures Sees(P.Next(p, P.Finish(q)).value, capacity, scene) && Idle(P.Next(p, P.Finish(q)).value, q)
  {
  }

  lemma TurnRuns(p: P.State, p1: P.State, p2: P.State, p3: P.State, q: nat, turn: Turn, shadow: Shadow)
    requires Shaped(turn, shadow) && P.After(p, shadow.before) == Some(p1) && P.Next(p1, P.Dequeue(q)) == Some(p2)
    requires P.After(p2, Woven(q, turn.fates, shadow.within)) == Some(p3)
    ensures P.After(p, TurnSteps(q, turn, shadow)) == P.Next(p3, P.Finish(q))
  {
    var steps := Woven(q, turn.fates, shadow.within);
    AfterOne(p1, P.Dequeue(q));
    AfterConcat(p1, [P.Dequeue(q)], steps);
    OneMore(p1, [P.Dequeue(q)] + steps, P.Finish(q));
    AfterConcat(p, shadow.before, [P.Dequeue(q)] + steps + [P.Finish(q)]);
  }

  lemma TurnsSnoc(p: P.State, before: P.State, after: P.State, q: nat, turns: seq<Turn>, shadows: seq<Shadow>, i: nat)
    requires i < |turns| == |shadows| && forall k :: 0 <= k < |turns| ==> Shaped(turns[k], shadows[k])
    requires P.After(p, Turns(q, turns[..i], shadows[..i])) == Some(before)
    requires P.After(before, TurnSteps(q, turns[i], shadows[i])) == Some(after)
    ensures P.After(p, Turns(q, turns[..i + 1], shadows[..i + 1])) == Some(after)
  {
    assert turns[..i + 1][..i] == turns[..i] && shadows[..i + 1][..i] == shadows[..i];
    AfterConcat(p, Turns(q, turns[..i], shadows[..i]), TurnSteps(q, turns[i], shadows[i]));
  }

  // ---- putting runs of the protocol together ----

  ghost function Then(p: Option<P.State>, a: P.Action): Option<P.State> {
    if p.None? then None else P.Next(p.value, a)
  }

  lemma AfterOne(p: P.State, a: P.Action)
    ensures P.After(p, [a]) == P.Next(p, a)
  {
  }

  lemma AfterTwo(p: P.State, a: P.Action, b: P.Action)
    ensures P.After(p, [a, b]) == Then(P.Next(p, a), b)
  {
    assert [a, b][..1] == [a];
    AfterOne(p, a);
  }

  lemma AfterThree(p: P.State, a: P.Action, b: P.Action, c: P.Action)
    ensures P.After(p, [a, b, c]) == Then(Then(P.Next(p, a), b), c)
  {
    assert [a, b, c][..2] == [a, b];
    AfterTwo(p, a, b);
  }

  lemma OneMore(p: P.State, run: seq<P.Action>, a: P.Action)
    ensures P.After(p, run + [a]) == Then(P.After(p, run), a)
  {
  }

  /** Running two action lists one after the other. */
  lemma {:induction false} AfterConcat(p: P.State, a: seq<P.Action>, b: seq<P.Action>)
    requires P.After(p, a).Some?
    ensures P.After(p, a + b) == P.After(P.After(p, a).value, b)
  {
    if b == [] {
      assert a + b == a;
    } else {
      AfterConcat(p, a, b[..|b| - 1]);
      assert (a + b)[..|a + b| - 1] == a + b[..|b| - 1];
    }
  }
}
