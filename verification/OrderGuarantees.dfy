/** What the order service guarantees over every run of the interleaved model from an empty store. */
module OrderGuarantees {
  import opened Domain
  import opened Tables
  import opened Transactions
  import opened Lifecycle
  import opened Interleaving
  import opened Serializability
  import B = Behaviour

  /** The committed orders, histories and outbox inserts are those of the committed transactions run
      one at a time in commit order, with the same clock readings and sequence values. */
  lemma Serializable(strict: bool, run: seq<Action>, s: State)
    requires After(strict, run) == Some(s)
    ensures Replay(s.commits) == Some(s.store)
  {
    Reachable(strict, run);
  }

  lemma LosesRow(s: State, e: Effect, c: Committed, s': State, snap: Snapshot)
    requires Fits(s, e, c) && Follows(s, e, c, s') && VersionOk(s, snap, e.id)
    requires e.id in snap.store.orders
    ensures !Unchanged(snap, s', e.id)
  {
  }

  lemma SawRow(s: State, th: Thread)
    requires th.Computed? && !th.op.Receive? && ThreadOk(s, th)
    ensures th.effect.id in th.snap.store.orders && VersionOk(s, th.snap, th.effect.id)
  {
  }

  predicate RivalsReady(s: State, t: nat, u: nat) {
    && t != u && t in s.threads && u in s.threads && s.threads[t].Computed? && s.threads[u].Computed?
    && !s.threads[u].op.Receive?
    && s.threads[t].effect.id == s.threads[u].effect.id
  }

  lemma RivalOutdated(s: State, t: nat, u: nat, replied: bool, s': State)
    requires Inv(s) && RivalsReady(s, t, u) && Commits(s, t, replied, s')
    ensures u in s'.threads && s'.threads[u] == s.threads[u]
    ensures !Unchanged(s.threads[u].snap, s', s.threads[u].effect.id)
  {
    CommitFits(s, t, replied, s');
    SawRow(s, s.threads[u]);
    LosesRow(s, s.threads[t].effect, Committed(s.threads[t].op, s.threads[t].x), s', s.threads[u].snap);
  }

  lemma OutdatedRefused(s: State, u: nat, replied: bool)
    requires u in s.threads && s.threads[u].Computed? && !s.threads[u].op.Receive?
    requires !Unchanged(s.threads[u].snap, s, s.threads[u].effect.id)
    ensures Next(s, CommitTx(u, replied)).None?
  {
  }

  /** Of two requests that have computed a change of the same order, the commit of one shuts out the
      other. */
  lemma OneWinner(strict: bool, run: seq<Action>, s: State, t: nat, u: nat, replied: bool, s': State, replied': bool)
    requires After(strict, run) == Some(s) && RivalsReady(s, t, u)
    requires Next(s, CommitTx(t, replied)) == Some(s')
    ensures Next(s', CommitTx(u, replied')).None?
  {
    assert Inv(s) by { Reachable(strict, run); }
    RivalOutdated(s, t, u, replied, s');
    OutdatedRefused(s', u, replied');
  }

  ghost predicate LivesOneLife(s: State, id: nat) {
    var ever := Statuses(HistoryOf(s.entries, id));
    && ever in {[], [Received], [Received, Delivered], [Received, Expired], [Received, Delivered, Refunded]}
    && (id in s.store.orders ==>
          && Statuses(HistoryOf(s.store.records, id)) == ever != []
          && ever[|ever| - 1] == s.store.orders[id].status)
  }

  /** The only sequences of statuses any order ever goes through, removed orders included; so nothing
      is delivered, expired or refunded twice. */
  lemma LifecycleSafety(strict: bool, run: seq<Action>, s: State, id: nat)
    requires After(strict, run) == Some(s)
    ensures LivesOneLife(s, id)
  {
    Reachable(strict, run);
    assert TrailOk(s, id);
    var trail := HistoryOf(s.entries, id);
    assert |Statuses(trail)| == |trail|;
  }

  /** Exactly when a transaction that finds a reachable table goes through, whatever the clock reads: a
      refund is open for ever, and a return looks at the expiration date and not at the status. */
  lemma GoesThrough(strict: bool, run: seq<Action>, s: State, op: Op, x: Inputs)
    requires After(strict, run) == Some(s)
    ensures var seen := Seen(op, s.store);
            Decide(op, seen, x).Commit? <==>
            match op
            case Receive(p, packaging, membrana) =>
              p.weight <= 10.0 || packaging.Membrana? || (p.weight <= 20.0 && !packaging.Bag?)
            case Deliver(_, recipientId) =>
              seen.Some? && seen.value.recipientId == recipientId && seen.value.status == Received
            case Refund(_, recipientId) =>
              seen.Some? && seen.value.recipientId == recipientId && seen.value.status == Delivered
            case Return(_) => seen.Some? && seen.value.expirationDate < x.check
  {
    Reachable(strict, run);
    if op.Refund? && op.id in s.store.orders {
      RefundNeverNil(op.id, op.recipientId, s.store.orders[op.id], HistoryOf(s.store.records, op.id),
                     s.now, s.strict, x);
    }
  }

  /** The first version of the order that `c` accepted is the parcel as it was handed in, at its worth
      with packaging, and if the order is still stored it is that parcel. */
  ghost predicate AsGiven(s: State, c: Committed) {
    c.op.Receive? ==>
      var id, row := c.x.orderId, B.AcceptedRow(c.op.params, c.op.packaging, c.op.membrana);
      && Chain(s.chains, id) != [] && Chain(s.chains, id)[0] == row
      && (id in s.store.orders ==> SameParcel(s.store.orders[id], row))
  }

  lemma GivenCommit(s: State, e: Effect, c: Committed, s': State, d: Committed)
    requires ChainsOk(s) && Fits(s, e, c) && Follows(s, e, c, s') && (d == c || AsGiven(s, d))
    ensures AsGiven(s', d)
  {
    DecisionShape(c.op, Lookup(s.store, Target(c.op, c.x)), c.x);
  }

  lemma {:induction false} GivenAlong(strict: bool, run: seq<Action>)
    requires After(strict, run).Some?
    ensures forall d :: d in After(strict, run).value.commits ==> AsGiven(After(strict, run).value, d)
  {
    if run != [] {
      var r, a := run[..|run| - 1], run[|run| - 1];
      GivenAlong(strict, r);
      Reachable(strict, r);
      var s, s' := After(strict, r).value, After(strict, run).value;
      if a.CommitTx? {
        CommitFits(s, a.t, a.replied, s');
        var e, c := s.threads[a.t].effect, Committed(s.threads[a.t].op, s.threads[a.t].x);
        forall d | d in s'.commits ensures AsGiven(s', d) {
          GivenCommit(s, e, c, s', d);
        }
      } else {
        LocalShape(s, a);
      }
    }
  }

  /** Over every run, an order is stored as it was accepted: recipient, expiration date, weight and worth
      with packaging. */
  lemma AcceptedAsGiven(strict: bool, run: seq<Action>, s: State, j: nat)
    requires After(strict, run) == Some(s) && j < |s.commits|
    ensures AsGiven(s, s.commits[j])
  {
    GivenAlong(strict, run);
    assert s.commits[j] in s.commits;
  }

  ghost predicate FieldsOk(row: OrderRow, h: seq<Record>, strict: bool) {
    && (row.deliveredDate.Some? <==> row.status in {Delivered, Refunded})
    && (row.refundedDate.Some? <==> row.status == Refunded)
    && row.returnedDate.None?
    && (row.status == Refunded ==> row.deliveredDate.value <= row.refundedDate.value)
    && (row.status == Expired ==> h != [] && row.expirationDate < h[|h| - 1].timestamp)
    && Ascending(h, strict)
  }

  lemma OrderFields(row: OrderRow, h: seq<Record>, now: Time, strict: bool)
    requires OrderOk(row, h, now, strict)
    ensures FieldsOk(row, h, strict)
  {
  }

  /** Which dates are set in which status and their order; recipient, expiration date, weight and
      worth are those of every earlier version of the row. */
  lemma FieldInvariants(strict: bool, run: seq<Action>, s: State, id: nat)
    requires After(strict, run) == Some(s) && id in s.store.orders
    ensures FieldsOk(s.store.orders[id], HistoryOf(s.store.records, id), strict)
    ensures forall version :: version in Chain(s.chains, id) ==> SameParcel(version, s.store.orders[id])
  {
    Reachable(strict, run);
    StrictFixed(strict, run);
    assert TrailOk(s, id);
    OrderFields(s.store.orders[id], HistoryOf(s.store.records, id), s.now, s.strict);
  }

  lemma {:induction false} StrictFixed(strict: bool, run: seq<Action>)
    requires After(strict, run).Some?
    ensures After(strict, run).value.strict == strict
  {
    if run != [] {
      StrictFixed(strict, run[..|run| - 1]);
      var s, a := After(strict, run[..|run| - 1]).value, run[|run| - 1];
      if !a.CommitTx? { LocalShape(s, a); }
    }
  }

  /** A refund never dereferences a nil delivered date, whatever snapshot it works on. */
  lemma NoNilDate(strict: bool, run: seq<Action>, t: nat, x: Inputs)
    requires After(strict, run).Some? && t in After(strict, run).value.threads
    ensures var th := After(strict, run).value.threads[t];
            th.Running? ==> Decide(th.op, Seen(th.op, th.snap.store), x) != Reject(NilDate)
  {
    Reachable(strict, run);
    var s := After(strict, run).value;
    assert ThreadOk(s, s.threads[t]);
    var th := s.threads[t];
    if th.Running? && th.op.Refund? && th.op.id in th.snap.store.orders {
      RefundNeverNil(th.op.id, th.op.recipientId, th.snap.store.orders[th.op.id],
                     HistoryOf(th.snap.store.records, th.op.id), th.snap.now, s.strict, x);
    }
  }

  /** The sequence values of the committed transactions that are not returns, in commit order. */
  function TaskIdsOf(commits: seq<Committed>): seq<nat> {
    if commits == [] then []
    else
      var c := commits[|commits| - 1];
      TaskIdsOf(commits[..|commits| - 1]) + if c.op.Return? then [] else [c.x.taskId]
  }

  function RecordIdsIn(commits: seq<Committed>): seq<nat> {
    if commits == [] then []
    else
      var c := commits[|commits| - 1];
      RecordIdsIn(commits[..|commits| - 1]) + if c.op.Return? then [] else [c.x.recordId]
  }

  function EntryIds(entries: seq<RecordRow>): seq<nat> {
    seq(|entries|, i requires 0 <= i < |entries| => entries[i].id)
  }

  ghost predicate LogsCommits(s: State) {
    s.tasks == TaskIdsOf(s.commits) && EntryIds(s.entries) == RecordIdsIn(s.commits)
  }

  lemma CommitLogged(s: State, e: Effect, c: Committed, s': State)
    requires LogsCommits(s) && Fits(s, e, c) && Follows(s, e, c, s')
    ensures LogsCommits(s')
  {
    DecisionShape(c.op, Lookup(s.store, Target(c.op, c.x)), c.x);
    assert s'.commits == s.commits + [c] && s'.commits[..|s.commits|] == s.commits;
    assert e.Put? <==> !c.op.Return?;
    if e.Put? {
      assert EntryIds(s'.entries) == EntryIds(s.entries) + [e.entry.id];
    }
  }

  lemma {:induction false} CommitsLog(strict: bool, run: seq<Action>)
    requires After(strict, run).Some?
    ensures LogsCommits(After(strict, run).value)
  {
    if run != [] {
      var r, a := run[..|run| - 1], run[|run| - 1];
      CommitsLog(strict, r);
      var s, s' := After(strict, r).value, After(strict, run).value;
      if a.CommitTx? {
        Reachable(strict, r);
        CommitFits(s, a.t, a.replied, s');
        CommitLogged(s, s.threads[a.t].effect, Committed(s.threads[a.t].op, s.threads[a.t].x), s');
      } else {
        LocalShape(s, a);
      }
    }
  }

  /** Record `i` and task `i` ever committed are rows of their own that say the same, in the words of the
      status. */
  ghost predicate Paired(s: State, i: nat)
    requires i < |s.entries| == |s.tasks|
  {
    && s.tasks[i] in s.store.outbox && Mirrors(s.store.outbox[s.tasks[i]], s.entries[i]) && Worded(s.entries[i].record)
    && forall j :: 0 <= j < |s.tasks| && j != i ==> s.tasks[j] != s.tasks[i] && s.entries[j].id != s.entries[i].id
  }

  /** History records ever committed and outbox tasks ever committed correspond one to one, with the
      same status, description and timestamp; one pair per committed receive, deliver or refund, in
      commit order, and none for a return. */
  lemma OneTaskPerTransition(strict: bool, run: seq<Action>, s: State)
    requires After(strict, run) == Some(s)
    ensures |s.entries| == |s.tasks| && forall i :: 0 <= i < |s.tasks| ==> Paired(s, i)
    ensures forall id :: id in s.store.outbox <==> id in s.tasks
    ensures LogsCommits(s)
  {
    Reachable(strict, run);
    CommitsLog(strict, run);
  }

  /** An order that was accepted and is gone was removed by a committed return whose clock reading was
      after the expiration date, and its history went with it. */
  lemma RemovalOnlyAfterExpiry(strict: bool, run: seq<Action>, id: nat)
    requires After(strict, run).Some?
    requires id in After(strict, run).value.chains && id !in After(strict, run).value.store.orders
    ensures var s := After(strict, run).value;
            && HistoryOf(s.store.records, id) == []
            && exists j :: 0 <= j < |s.commits| && s.commits[j].op == Return(id) && s.chains[id] != []
                           && s.chains[id][0].expirationDate < s.commits[j].x.check
  {
    Reachable(strict, run);
    assert RemovedOk(After(strict, run).value, id);
  }

  /** A removed order never comes back under the same id. */
  lemma {:induction false} NeverReappears(strict: bool, run: seq<Action>, more: seq<Action>, id: nat)
    requires After(strict, run).Some? && After(strict, run + more).Some?
    requires id in After(strict, run).value.chains && id !in After(strict, run).value.store.orders
    ensures id in After(strict, run + more).value.chains && id !in After(strict, run + more).value.store.orders
  {
    if more == [] {
      assert run + more == run;
    } else {
      var m, a := more[..|more| - 1], more[|more| - 1];
      assert (run + more)[..|run + more| - 1] == run + m;
      NeverReappears(strict, run, m, id);
      var s, s' := After(strict, run + m).value, After(strict, run + more).value;
      if a.CommitTx? {
        Reachable(strict, run + m);
        CommitFits(s, a.t, a.replied, s');
      } else {
        LocalShape(s, a);
      }
    }
  }

  /** Whatever the interleaving and whichever cache writes are lost, a cached value is a committed
      version of that order's row, whose status is in the order's recorded history. */
  lemma CacheSoundness(strict: bool, run: seq<Action>, id: nat)
    requires After(strict, run).Some? && id in After(strict, run).value.cache
    ensures var s := After(strict, run).value; var d := s.cache[id];
            && d.id == id && d.history == []
            && d.row in Chain(s.chains, id)
            && d.row.status in Statuses(HistoryOf(s.entries, id))
            && (id in s.store.orders ==> SameParcel(d.row, s.store.orders[id]))
  {
    Reachable(strict, run);
    var s := After(strict, run).value;
    assert TrailOk(s, id);
    var i :| 0 <= i < |Chain(s.chains, id)| && Chain(s.chains, id)[i] == s.cache[id].row;
    assert Statuses(HistoryOf(s.entries, id))[i] == s.cache[id].row.status;
  }
}
