/** The loop that picks tasks from the outbox and puts them on the channel. */
module Polling {
  import opened Domain
  import opened Tables
  import opened Service
  import opened Producer
  import P = Pipeline
  import D = Delivery

  /** What the database answers to LockPending at one tick. */
  datatype Tick = Tick(fault: bool, lost: bool)

  /** How the loop is left: it goes on ticking, has returned on an error, or waits for room in the channel. */
  datatype Exit = Ticking | Stopped | Blocked(batch: seq<Message>)

  /** The table, the channel and poller `n` are those of protocol state `p`. */
  ghost predicate PollerIs(p: P.State, rows: map<nat, TaskRow>, capacity: nat, batches: seq<seq<Message>>, n: nat,
                           exit: Exit) {
    && p.rows == rows && QueueIs(p, capacity, batches)
    && n < p.config.pollers && (n in p.stopped <==> exit.Stopped?)
    && (exit.Blocked? <==> P.PollerSlot(n) in p.mem)
    && (exit.Blocked? ==> p.mem[P.PollerSlot(n)] == Ids(exit.batch))
  }

  lemma StopStep(p: P.State, rows: map<nat, TaskRow>, capacity: nat, batches: seq<seq<Message>>, n: nat)
    requires PollerIs(p, rows, capacity, batches, n, Ticking)
    ensures P.Next(p, P.StopPoller(n)).Some?
    ensures PollerIs(P.Next(p, P.StopPoller(n)).value, rows, capacity, batches, n, Stopped)
  {
  }

  lemma PickStep(p: P.State, rows: map<nat, TaskRow>, capacity: nat, batches: seq<seq<Message>>, n: nat,
                 batch: seq<Message>, delivered: bool)
    requires PollerIs(p, rows, capacity, batches, n, Ticking) && P.IsPick(rows, Ids(batch))
    ensures P.Next(p, P.Pick(n, Ids(batch), delivered)).Some?
    ensures PollerIs(P.Next(p, P.Pick(n, Ids(batch), delivered)).value, P.WithStatus(rows, Ids(batch), Processing),
                     capacity, batches, n, if delivered then Blocked(batch) else Stopped)
  {
  }

  lemma EnqueueStep(p: P.State, rows: map<nat, TaskRow>, capacity: nat, batches: seq<seq<Message>>, n: nat,
                    batch: seq<Message>)
    requires PollerIs(p, rows, capacity, batches, n, Blocked(batch)) && |batches| < capacity
    ensures P.Next(p, P.Enqueue(n)).Some?
    ensures PollerIs(P.Next(p, P.Enqueue(n)).value, rows, capacity, batches + [batch], n, Ticking)
  {
  }

  /** What one tick that picked the rows `ids` comes to: they are processing, and their batch is on the
      channel, waits for room there, or was lost with the answer. */
  ghost predicate TickPicked(before: Conn, after: Conn, ids: seq<nat>, lost: bool, capacity: nat,
                             was: seq<seq<Message>>, batches: seq<seq<Message>>,
                             n: nat, exit: Exit, run: seq<P.Action>) {
    && Locked(before, after, Background, ids)
    && var batch := MessagesFor(before.tables.outbox, ids);
       if lost then exit == Stopped && batches == was && run == [P.Pick(n, ids, false)]
       else if |was| < capacity then
         exit == Ticking && batches == was + [batch] && run == [P.Pick(n, ids, true), P.Enqueue(n)]
       else exit == Blocked(batch) && batches == was && run == [P.Pick(n, ids, true)]
  }

  /** The created rows that are left of `created` after `picks` picks. */
  function Left(created: nat, picks: nat): nat {
    if created <= 100 * picks then 0 else created - 100 * picks
  }

  class Poller {
    const outbox: OrderOutbox
    const channel: Channel

    constructor (outbox: OrderOutbox, channel: Channel)
      ensures this.outbox == outbox && this.channel == channel
    {
      this.outbox, this.channel := outbox, channel;
    }

    ghost predicate At(p: P.State, n: nat, exit: Exit)
      reads this, outbox.db, channel
    {
      PollerIs(p, outbox.db.tables.outbox, channel.capacity, channel.batches, n, exit)
    }

    /** The select case of one tick: lock, return on an error, send the batch if there is room. */
    method Poll(tick: Tick, ghost p: P.State, ghost n: nat)
      returns (exit: Exit, ghost ids: seq<nat>, ghost run: seq<P.Action>, ghost p': P.State)
      requires At(p, n, Ticking)
      modifies outbox.db, channel
      ensures At(p', n, exit) && P.After(p, run) == Some(p')
      ensures tick.fault ==>
                && outbox.db.State() == old(outbox.db.State()) && channel.batches == old(channel.batches)
                && exit == Stopped && run == [P.StopPoller(n)]
      ensures !tick.fault ==>
                TickPicked(old(outbox.db.State()), outbox.db.State(), ids, tick.lost, channel.capacity,
                           old(channel.batches), channel.batches, n, exit, run)
    {
      ghost var rows := outbox.db.tables.outbox;
      var batch, error := outbox.LockPending(Background, tick.fault, tick.lost);
      if tick.fault {
        StopStep(p, rows, channel.capacity, channel.batches, n);
        AfterOne(p, P.StopPoller(n));
        return Stopped, [], [P.StopPoller(n)], P.Next(p, P.StopPoller(n)).value;
      }
      ids :| Locked(old(outbox.db.State()), outbox.db.State(), Background, ids)
             && (error.None? ==> batch == MessagesFor(rows, ids));
      ghost var picked := MessagesFor(rows, ids);
      assert Ids(picked) == ids;
      PickStep(p, rows, channel.capacity, channel.batches, n, picked, !tick.lost);
      ghost var pick := P.Pick(n, ids, !tick.lost);
      AfterOne(p, pick);
      p' := P.Next(p, pick).value;
      if error.Some? { return Stopped, ids, [pick], p'; }
      if |channel.batches| >= channel.capacity { return Blocked(batch), ids, [pick], p'; }
      EnqueueStep(p', outbox.db.tables.outbox, channel.capacity, channel.batches, n, batch);
      AfterTwo(p, pick, P.Enqueue(n));
      channel.Send(batch);
      return Ticking, ids, [pick, P.Enqueue(n)], P.Next(p', P.Enqueue(n)).value;
    }

    /** A poller that waits for room sends its batch as soon as there is some. */
    method Resume(batch: seq<Message>, ghost p: P.State, ghost n: nat) returns (ghost p': P.State)
      requires At(p, n, Blocked(batch)) && |channel.batches| < channel.capacity
      modifies channel
      ensures At(p', n, Ticking) && P.Next(p, P.Enqueue(n)) == Some(p')
      ensures channel.batches == old(channel.batches) + [batch]
    {
      EnqueueStep(p, outbox.db.tables.outbox, channel.capacity, channel.batches, n, batch);
      channel.Send(batch);
      p' := P.Next(p, P.Enqueue(n)).value;
    }

    /** The loop over ticks while nobody else acts. */
    method Run(ticks: seq<Tick>, ghost p: P.State, ghost n: nat)
      returns (exit: Exit, taken: nat, ghost run: seq<P.Action>, ghost p': P.State)
      requires At(p, n, Ticking)
      modifies outbox.db, channel
      ensures At(p', n, exit) && P.After(p, run) == Some(p')
      ensures Looped(ticks, taken, exit, D.PicksIn(run), old(outbox.db.tables.outbox), outbox.db.tables.outbox,
                     channel.capacity, old(channel.batches), channel.batches)
    {
      exit, taken, run, p' := Ticking, 0, [], p;
      while taken < |ticks|
        invariant exit.Ticking? && At(p', n, Ticking) && P.After(p, run) == Some(p')
        invariant Looped(ticks, taken, Ticking, D.PicksIn(run), old(outbox.db.tables.outbox), outbox.db.tables.outbox,
                         channel.capacity, old(channel.batches), channel.batches)
      {
        ghost var before, more, ids, conn, batches := p', [], [], outbox.db.State(), channel.batches;
        exit, ids, more, p' := Poll(ticks[taken], before, n);
        TickLoops(ticks, taken, run, old(outbox.db.tables.outbox), conn, outbox.db.State(), ids, channel.capacity,
                  old(channel.batches), batches, channel.batches, n, exit, more);
        Joined(p, run, before, more, p');
        run := run + more;
        taken := taken + 1;
        if !exit.Ticking? { return; }
      }
    }
  }

  /** After `taken` ticks, of which `picks` picked: every tick picks unless its LockPending fails, so the
      created rows go down by a hundred each time; each but a last one that stopped or waits put its
      batch on the channel; the loop ends with the ticks, at the first error, or at a full channel. */
  ghost predicate Looped(ticks: seq<Tick>, taken: nat, exit: Exit, picks: nat, was: map<nat, TaskRow>,
                         rows: map<nat, TaskRow>, capacity: nat, first: seq<seq<Message>>, batches: seq<seq<Message>>) {
    && taken <= |ticks|
    && (forall i :: 0 <= i < taken && (exit.Ticking? || i < taken - 1) ==> !ticks[i].fault && !ticks[i].lost)
    && (exit.Ticking? || taken > 0)
    && (exit.Stopped? <==> taken > 0 && (ticks[taken - 1].fault || ticks[taken - 1].lost))
    && (exit.Blocked? ==> |batches| >= capacity)
    && picks == (if taken > 0 && ticks[taken - 1].fault then taken - 1 else taken)
    && |D.CreatedRows(rows)| == Left(|D.CreatedRows(was)|, picks)
    && first <= batches && |batches| == |first| + (if exit.Ticking? then taken else taken - 1)
  }

  /** One more tick of the loop. */
  lemma TickLoops(ticks: seq<Tick>, taken: nat, run: seq<P.Action>, was: map<nat, TaskRow>, before: Conn, after: Conn,
                  ids: seq<nat>, capacity: nat, first: seq<seq<Message>>, batches: seq<seq<Message>>,
                  batches': seq<seq<Message>>, n: nat, exit: Exit, more: seq<P.Action>)
    requires taken < |ticks|
    requires Looped(ticks, taken, Ticking, D.PicksIn(run), was, before.tables.outbox, capacity, first, batches)
    requires ticks[taken].fault ==>
               after == before && batches' == batches && exit == Stopped && more == [P.StopPoller(n)]
    requires !ticks[taken].fault ==>
               TickPicked(before, after, ids, ticks[taken].lost, capacity, batches, batches', n, exit, more)
    ensures Looped(ticks, taken + 1, exit, D.PicksIn(run + more), was, after.tables.outbox, capacity, first, batches')
  {
    var picks := if ticks[taken].fault then 0 else 1;
    TickCounts(before.tables.outbox, after.tables.outbox, more, picks);
    PicksAdd(run, more);
    LeftAdds(|D.CreatedRows(was)|, taken, picks);
  }

  lemma LeftAdds(created: nat, taken: nat, picks: nat)
    requires picks <= 1
    ensures Left(Left(created, taken), picks) == Left(created, taken + picks)
  {
  }

  lemma PicksOfOne(a: P.Action)
    ensures D.PicksIn([a]) == if a.Pick? then 1 else 0
  {
    assert [a][..0] == [];
  }

  lemma {:induction false} PicksAdd(a: seq<P.Action>, b: seq<P.Action>)
    ensures D.PicksIn(a + b) == D.PicksIn(a) + D.PicksIn(b)
  {
    if b == [] {
      assert a + b == a;
    } else {
      PicksAdd(a, b[..|b| - 1]);
      assert (a + b)[..|a + b| - 1] == a + b[..|b| - 1];
    }
  }

  /** A tick that picks takes a hundred created rows, or all that are left. */
  lemma TickCounts(rows: map<nat, TaskRow>, rows': map<nat, TaskRow>, more: seq<P.Action>, picks: nat)
    requires if picks == 0 then rows' == rows && |more| == 1 && more[0].StopPoller?
             else picks == 1 && 0 < |more| <= 2 && more[0].Pick? && (|more| == 2 ==> more[1].Enqueue?)
                  && P.IsPick(rows, more[0].batch) && rows' == P.WithStatus(rows, more[0].batch, Processing)
    ensures D.PicksIn(more) == picks && |D.CreatedRows(rows')| == Left(|D.CreatedRows(rows)|, picks)
  {
    PicksOfOne(more[0]);
    if picks == 1 { D.PickDrains(rows, more[0].batch); }
    if |more| == 2 {
      PicksOfOne(more[1]);
      PicksAdd([more[0]], [more[1]]);
      assert more == [more[0]] + [more[1]];
    } else {
      assert more == [more[0]];
    }
  }

  lemma Joined(p: P.State, run: seq<P.Action>, mid: P.State, more: seq<P.Action>, p': P.State)
    requires P.After(p, run) == Some(mid) && P.After(mid, more) == Some(p')
    ensures P.After(p, run + more) == Some(p')
  {
    AfterConcat(p, run, more);
  }
}
