/** What working off a batch comes to, whatever requests, pollers and other producers do meanwhile. */
module Outcomes {
  import opened Domain
  import opened Tables
  import opened Producer
  import P = Pipeline
  import D = Delivery

  /** The row of a task once it has met its fate. */
  function Settled(row: TaskRow, fate: Fate): Option<TaskRow> {
    match fate
    case Unmarshalled => Some(row)
    case Unsent(marked) => Some(if marked then row.(status := Failed) else row)
    case Sent(deleted) => if deleted then None else Some(row)
  }

  /** Task `id` has met its fate since `p`, and its row is final. */
  ghost predicate Done(p: P.State, m: P.State, id: nat, fate: Fate) {
    && id in p.rows && D.Released(m, id)
    && D.RowAt(m.rows, id) == Settled(p.rows[id], fate)
    && (id in m.attempted <==> !fate.Unmarshalled?)
  }

  /** The first tasks of the batch are done and the others wait as they did in `p`. */
  ghost predicate Progress(p: P.State, m: P.State, q: nat, ids: seq<nat>, fates: seq<Fate>) {
    && |fates| <= |ids| && Holding(m, q, ids[|fates|..])
    && (forall k :: 0 <= k < |fates| ==> Done(p, m, ids[k], fates[k]))
    && (forall k :: |fates| <= k < |ids| ==> D.RowAt(m.rows, ids[k]) == D.RowAt(p.rows, ids[k]))
  }

  /** A task in the hands of producer `q` is left alone by others. */
  lemma WaitingStep(s: P.State, a: P.Action, q: nat, left: seq<nat>, id: nat)
    requires P.Inv(s) && ByOthers(a, q) && P.Next(s, a).Some? && Holding(s, q, left) && id in left
    ensures D.RowAt(P.Next(s, a).value.rows, id) == D.RowAt(s.rows, id)
  {
    assert P.SlotOk(s, P.ProducerSlot(q));
    if a.Delete? || a.Mark? { assert P.StageOk(s, a.q); }
  }

  lemma {:induction false} WaitingAlong(s: P.State, acts: seq<P.Action>, q: nat, left: seq<nat>, id: nat)
    requires P.Inv(s) && P.After(s, acts).Some? && Holding(s, q, left) && id in left
    requires OthersOnly(acts, q)
    ensures D.RowAt(P.After(s, acts).value.rows, id) == D.RowAt(s.rows, id)
  {
    if acts != [] {
      var n := |acts| - 1;
      WaitingAlong(s, acts[..n], q, left, id);
      D.InvKept(s, acts[..n]);
      OthersLeave(s, acts[..n], q);
      WaitingStep(P.After(s, acts[..n]).value, acts[n], q, left, id);
    }
  }

  /** The next task of the batch is done, and the rows of the others are as before. */
  lemma NextDone(m: P.State, q: nat, id: nat, rest: seq<nat>, fate: Fate)
    requires P.Inv(m) && Holding(m, q, [id] + rest)
    ensures Done(m, Handled(m, q, id, rest, fate), id, fate)
    ensures forall other :: other != id ==> D.RowAt(Handled(m, q, id, rest, fate).rows, other) == D.RowAt(m.rows, other)
  {
    var slot, m' := P.ProducerSlot(q), Handled(m, q, id, rest, fate);
    assert P.SlotOk(m, slot) && m.mem[slot][0] == id;
    assert id in m.mem[slot];
    forall other | other in m'.mem ensures id !in m'.mem[other] {
      if other == slot {
        assert forall i :: 0 <= i < |rest| ==> rest[i] == m.mem[slot][i + 1];
      } else {
        assert P.SlotsApart(m, slot, other);
      }
    }
    forall r: nat ensures P.StageOf(m', r) == P.Ready || P.StageOf(m', r).id != id {
      assert P.StageOk(m, r);
    }
  }

  lemma OneTask(p: P.State, m: P.State, q: nat, ids: seq<nat>, fates: seq<Fate>, acts: seq<P.Action>, fate: Fate)
    requires P.Inv(m) && Progress(p, m, q, ids, fates) && P.NoDup(ids) && |fates| < |ids|
    requires P.After(m, acts).Some? && OthersOnly(acts, q)
    requires ids[|fates|] in p.rows
    ensures P.After(m, acts + Steps(q, fate)).Some?
    ensures Progress(p, P.After(m, acts + Steps(q, fate)).value, q, ids, fates + [fate])
  {
    var n := |fates|;
    var id, rest := ids[n], ids[n + 1..];
    var mid := P.After(m, acts).value;
    assert ids[n..] == [id] + rest;
    OthersLeave(m, acts, q);
    D.InvKept(m, acts);
    FateRuns(mid, q, id, rest, fate);
    AfterConcat(m, acts, Steps(q, fate));
    var m' := Handled(mid, q, id, rest, fate);
    NextDone(mid, q, id, rest, fate);
    forall k | 0 <= k < n ensures Done(p, m', ids[k], fates[k]) {
      D.ReleasedAlong(m, acts + Steps(q, fate), ids[k]);
    }
    forall k | n <= k < |ids| ensures D.RowAt(mid.rows, ids[k]) == D.RowAt(p.rows, ids[k]) {
      assert ids[k] == ids[n..][k - n];
      WaitingAlong(m, acts, q, ids[n..], ids[k]);
    }
  }

  lemma PrefixRuns(p: P.State, a: seq<P.Action>, b: seq<P.Action>)
    requires P.After(p, a + b).Some?
    ensures P.After(p, a).Some?
    decreases |b|
  {
    if b == [] {
      assert a + b == a;
    } else {
      assert (a + b)[..|a + b| - 1] == a + b[..|b| - 1];
      PrefixRuns(p, a, b[..|b| - 1]);
    }
  }

  lemma SplitsLast(p: P.State, q: nat, fates: seq<Fate>, acts: seq<seq<P.Action>>)
    requires |acts| == |fates| > 0 && P.After(p, Woven(q, fates, acts)).Some?
    ensures var n := |fates| - 1; var mid := P.After(p, Woven(q, fates[..n], acts[..n]));
            && mid.Some? && P.After(mid.value, acts[n]).Some?
            && P.After(mid.value, acts[n] + Steps(q, fates[n])) == P.After(p, Woven(q, fates, acts))
  {
    var n := |fates| - 1;
    var before := Woven(q, fates[..n], acts[..n]);
    PrefixRuns(p, before, acts[n] + Steps(q, fates[n]));
    AfterConcat(p, before, acts[n] + Steps(q, fates[n]));
    PrefixRuns(P.After(p, before).value, acts[n], Steps(q, fates[n]));
  }

  lemma RowsThere(p: P.State, q: nat, ids: seq<nat>, n: nat)
    requires P.MemoryOk(p) && Holding(p, q, ids) && n < |ids|
    ensures P.NoDup(ids) && ids[n] in p.rows && p.rows[ids[n]].status == Processing
  {
    assert P.SlotOk(p, P.ProducerSlot(q));
  }

  lemma {:induction false} Progresses(p: P.State, q: nat, ids: seq<nat>, fates: seq<Fate>, acts: seq<seq<P.Action>>)
    requires P.Inv(p) && Holding(p, q, ids) && |acts| == |fates| <= |ids|
    requires forall i :: 0 <= i < |acts| ==> OthersOnly(acts[i], q)
    requires P.After(p, Woven(q, fates, acts)).Some?
    ensures Progress(p, P.After(p, Woven(q, fates, acts)).value, q, ids, fates)
  {
    if fates == [] {
      assert ids[0..] == ids;
    } else {
      var n := |fates| - 1;
      SplitsLast(p, q, fates, acts);
      var m := P.After(p, Woven(q, fates[..n], acts[..n])).value;
      Progresses(p, q, ids, fates[..n], acts[..n]);
      D.InvKept(p, Woven(q, fates[..n], acts[..n]));
      RowsThere(p, q, ids, n);
      OneTask(p, m, q, ids, fates[..n], acts[n], fates[n]);
      assert fates[..n] + [fates[n]] == fates;
    }
  }

  /** Whatever others do between its tasks, a batch that is worked off to its end comes to this, task by
      task: acknowledged and deleted its row is gone, refused and marked it is failed, in every other
      case it is still processing; exactly the marshalled tasks are sent; and all this is final. */
  lemma BatchComesTo(p: P.State, q: nat, ids: seq<nat>, fates: seq<Fate>, acts: seq<seq<P.Action>>, p': P.State)
    requires P.Inv(p) && Holding(p, q, ids) && |acts| == |fates| == |ids|
    requires forall i :: 0 <= i < |acts| ==> OthersOnly(acts[i], q)
    requires P.After(p, Woven(q, fates, acts)) == Some(p')
    ensures forall i :: 0 <= i < |ids| ==> Done(p, p', ids[i], fates[i])
    ensures forall id :: id in ids ==> id in p.rows && p.rows[id].status == Processing
  {
    Progresses(p, q, ids, fates, acts);
    assert P.SlotOk(p, P.ProducerSlot(q));
  }
}
