/** Any number of requests run at once.  A transaction takes a snapshot, reads the clock and draws
    sequence values at its own pace, computes its effect on the snapshot, and commits only if the
    order row it writes has not changed since (repeatable read, section 13.2.2 of the PostgreSQL
    documentation).  Cache writes happen after the commit, as separate steps.  Any request can stop
    at any point: error, rollback, lost reply, cache failure, crash. */
module Interleaving {
  import opened Domain
  import opened Tables
  import opened Transactions
  import opened Lifecycle

  /** Every committed version of every order row, oldest first. */
  type Chains = map<nat, seq<OrderRow>>

  function Chain(c: Chains, id: nat): seq<OrderRow> {
    if id in c then c[id] else []
  }

  datatype Snapshot = Snapshot(store: Store, chains: Chains, now: Time)

  datatype Thread =
    | Running(op: Op, snap: Snapshot, times: seq<Time>, ids: map<Sequence, nat>)
    | Computed(op: Op, snap: Snapshot, x: Inputs, effect: Effect, ids: map<Sequence, nat>)
    | Publishing(write: CacheWrite)
    | Querying(id: nat, recipientId: int)
    | Fetched(data: OrderData)

  datatype Committed = Committed(op: Op, x: Inputs)

  /** `store.outbox` keeps every task ever inserted (the pipeline's changes to the table are in
      module Pipeline); `commits`, `entries` and `tasks` are logs of what ever committed. */
  datatype State = State(
    strict: bool, store: Store, chains: Chains, counters: Counters, now: Time,
    threads: map<nat, Thread>, cache: map<nat, OrderData>,
    commits: seq<Committed>, entries: seq<RecordRow>, tasks: seq<nat>)

  datatype Action =
    | Begin(t: nat, op: Op)
    | ReadClock(t: nat, time: Time)
    | Allocate(t: nat, k: Sequence)
    | Compute(t: nat)
    | CommitTx(t: nat, replied: bool)
    | Publish(t: nat)
    | StartQuery(t: nat, id: nat, recipientId: int)
    | Fetch(t: nat)
    | Fill(t: nat)
    | Abandon(t: nat)

  function Init(strict: bool): State {
    State(strict, EMPTY_STORE, map[], Counters(1, 1, 1), 0, map[], map[], [], [], [])
  }

  function Id(ids: map<Sequence, nat>, k: Sequence): nat {
    if k in ids then ids[k] else 0
  }

  /** Matches the readings taken so far with the readings the branch taken makes. */
  function Assemble(op: Op, seen: Option<OrderRow>, times: seq<Time>, ids: map<Sequence, nat>): Option<Inputs> {
    var o, r, k := Id(ids, OrderIds), Id(ids, RecordIds), Id(ids, TaskIds);
    match op
    case Receive(_, _, _) =>
      if |times| == 2 && OrderIds in ids && RecordIds in ids && TaskIds in ids
      then Some(Inputs(0, 0, times[0], times[1], o, r, k)) else None
    case Deliver(_, _) =>
      if !(RecordIds in ids && TaskIds in ids) || |times| < 3 then None
      else if seen.Some? && seen.value.expirationDate < times[0] then
        (if |times| == 3 then Some(Inputs(times[0], 0, times[1], times[2], o, r, k)) else None)
      else if |times| == 4 then Some(Inputs(times[0], times[1], times[2], times[3], o, r, k)) else None
    case Refund(_, _) =>
      if |times| == 3 && RecordIds in ids && TaskIds in ids
      then Some(Inputs(0, times[0], times[1], times[2], o, r, k)) else None
    case Return(_) =>
      if |times| == 1 then Some(Inputs(times[0], 0, 0, 0, o, r, k)) else None
  }

  /** First-updater-wins: the row is the version the snapshot saw. */
  predicate Unchanged(snap: Snapshot, s: State, id: nat) {
    && |Chain(snap.chains, id)| == |Chain(s.chains, id)|
    && (id in snap.store.orders <==> id in s.store.orders)
  }

  function AfterCommit(s: State, op: Op, x: Inputs, e: Effect): State {
    var s1 := s.(store := Apply(s.store, e), commits := s.commits + [Committed(op, x)]);
    if e.Put? then
      s1.(chains := s.chains[e.id := Chain(s.chains, e.id) + [e.row]],
          entries := s.entries + [e.entry], tasks := s.tasks + [e.taskId])
    else s1
  }

  function Next(s: State, a: Action): Option<State> {
    match a
    case Begin(t, op) =>
      if t in s.threads then None
      else Some(s.(threads := s.threads[t := Running(op, Snapshot(s.store, s.chains, s.now), [], map[])]))
    case ReadClock(t, time) =>
      if t in s.threads && s.threads[t].Running? && Before(s.strict, s.now, time) then
        var Running(op, snap, times, ids) := s.threads[t];
        Some(s.(now := time, threads := s.threads[t := Running(op, snap, times + [time], ids)]))
      else None
    case Allocate(t, k) =>
      if t in s.threads && s.threads[t].Running? && k !in s.threads[t].ids then
        var Running(op, snap, times, ids) := s.threads[t];
        Some(s.(counters := s.counters.Bump(k),
                threads := s.threads[t := Running(op, snap, times, ids[k := s.counters.At(k)])]))
      else None
    case Compute(t) =>
      if t !in s.threads || !s.threads[t].Running? then None
      else
        var th := s.threads[t];
        var seen := Seen(th.op, th.snap.store);
        var x := Assemble(th.op, seen, th.times, th.ids);
        if x.None? || Decide(th.op, seen, x.value).Reject? then None
        else
          var e := Decide(th.op, seen, x.value).effect;
          Some(s.(threads := s.threads[t := Computed(th.op, th.snap, x.value, e, th.ids)]))
    case CommitTx(t, replied) =>
      if t !in s.threads || !s.threads[t].Computed? then None
      else
        var th := s.threads[t];
        if !th.op.Receive? && !Unchanged(th.snap, s, th.effect.id) then None
        else
          var s1 := AfterCommit(s, th.op, th.x, th.effect);
          Some(s1.(threads := if replied then s.threads[t := Publishing(WriteFor(th.effect))] else s.threads - {t}))
    case Publish(t) =>
      if t !in s.threads || !s.threads[t].Publishing? then None
      else Some(s.(cache := Cached(s.cache, s.threads[t].write), threads := s.threads - {t}))
    case StartQuery(t, id, recipientId) =>
      if t in s.threads then None
      else Some(s.(threads := s.threads[t := Querying(id, recipientId)]))
    case Fetch(t) =>
      if t !in s.threads || !s.threads[t].Querying? then None
      else
        var id := s.threads[t].id;
        if id in s.store.orders && s.store.orders[id].recipientId == s.threads[t].recipientId then
          Some(s.(threads := s.threads[t := Fetched(OrderData(id, s.store.orders[id], []))]))
        else None
    case Fill(t) =>
      if t !in s.threads || !s.threads[t].Fetched? then None
      else Some(s.(cache := s.cache[s.threads[t].data.id := s.threads[t].data], threads := s.threads - {t}))
    case Abandon(t) =>
      if t in s.threads then Some(s.(threads := s.threads - {t})) else None
  }

  /** The state after a run from the empty store; None if some action was not enabled. */
  function After(strict: bool, run: seq<Action>): Option<State> {
    if run == [] then Some(Init(strict))
    else
      var before := After(strict, run[..|run| - 1]);
      if before.None? then None else Next(before.value, run[|run| - 1])
  }

  /** The committed transactions one at a time, each on the row that is stored at its turn. */
  function Replay(commits: seq<Committed>): Option<Store> {
    if commits == [] then Some(EMPTY_STORE)
    else
      var before := Replay(commits[..|commits| - 1]);
      var c := commits[|commits| - 1];
      if before.None? then None
      else match Decide(c.op, Lookup(before.value, Target(c.op, c.x)), c.x)
           case Commit(e) => Some(Apply(before.value, e))
           case Reject(_) => None
  }

  // ---- invariants ----

  ghost predicate ChainsOk(s: State) {
    && (forall id :: id in s.chains ==> s.chains[id] != [])
    && (forall id :: id in s.store.orders ==>
          id in s.chains && s.store.orders[id] == s.chains[id][|s.chains[id]| - 1])
  }

  ghost predicate VersionOk(s: State, snap: Snapshot, id: nat) {
    && |Chain(snap.chains, id)| <= |Chain(s.chains, id)|
    && (Unchanged(snap, s, id) ==>
          && Lookup(snap.store, id) == Lookup(s.store, id)
          && HistoryOf(snap.store.records, id) == HistoryOf(s.store.records, id))
  }

  ghost predicate SnapOk(s: State, snap: Snapshot) {
    && snap.now <= s.now
    && StoreOk(snap.store, snap.now, s.strict)
    && forall id :: VersionOk(s, snap, id)
  }

  ghost predicate TimesOk(from: Time, times: seq<Time>, now: Time, strict: bool) {
    && (forall i :: 0 <= i < |times| ==> Before(strict, from, times[i]) && times[i] <= now)
    && (forall i, j :: 0 <= i < j < |times| ==> Before(strict, times[i], times[j]))
  }

  ghost predicate ThreadOk(s: State, th: Thread) {
    match th
    case Running(op, snap, times, ids) => SnapOk(s, snap) && TimesOk(snap.now, times, s.now, s.strict)
    case Computed(op, snap, x, e, ids) =>
      && SnapOk(s, snap)
      && Decide(op, Seen(op, snap.store), x) == Commit(e)
      && Timely(op, Seen(op, snap.store), x, snap.now, s.now, s.strict)
      && (op.Receive? ==> OrderIds in ids && ids[OrderIds] == x.orderId)
      && (e.Put? ==> RecordIds in ids && ids[RecordIds] == x.recordId && TaskIds in ids && ids[TaskIds] == x.taskId)
    case _ => true
  }

  ghost predicate ThreadsOk(s: State) {
    forall t :: t in s.threads ==> ThreadOk(s, s.threads[t])
  }

  ghost function RecordIdsOf(entries: seq<RecordRow>): set<nat> {
    set i | 0 <= i < |entries| :: entries[i].id
  }

  ghost function Used(s: State, k: Sequence): set<nat> {
    match k
    case OrderIds => s.chains.Keys
    case RecordIds => RecordIdsOf(s.entries)
    case TaskIds => s.store.outbox.Keys
  }

  predicate Holds(th: Thread, k: Sequence) {
    (th.Running? || th.Computed?) && k in th.ids
  }

  /** A value drawn from a sequence belongs to one transaction and is not in the tables yet. */
  ghost predicate HeldOk(s: State, t: nat, k: Sequence) {
    t in s.threads && Holds(s.threads[t], k) ==>
      s.threads[t].ids[k] < s.counters.At(k) && s.threads[t].ids[k] !in Used(s, k)
  }

  ghost predicate ApartOk(s: State, t: nat, u: nat, k: Sequence) {
    t in s.threads && u in s.threads && t != u && Holds(s.threads[t], k) && Holds(s.threads[u], k) ==>
      s.threads[t].ids[k] != s.threads[u].ids[k]
  }

  ghost predicate IdsOk(s: State) {
    && (forall t, k :: HeldOk(s, t, k))
    && (forall t, u, k :: ApartOk(s, t, u, k))
    && (forall k, v :: v in Used(s, k) ==> v < s.counters.At(k))
  }

  /** The history ever recorded for `id` runs in parallel with the versions of its row. */
  ghost predicate TrailOk(s: State, id: nat) {
    var trail := HistoryOf(s.entries, id);
    var chain := Chain(s.chains, id);
    && |trail| == |chain|
    && (forall i :: 0 <= i < |chain| ==> trail[i].status == chain[i].status && SameParcel(chain[i], chain[0]))
    && (chain != [] ==> Statuses(trail) == Path(chain[|chain| - 1].status))
    && (id in s.store.orders ==> trail == HistoryOf(s.store.records, id))
  }

  predicate Mirrors(task: TaskRow, entry: RecordRow) {
    task.orderStatus == entry.record.status && task.description == entry.record.description
    && task.timestamp == entry.record.timestamp
  }

  ghost predicate LogOk(s: State) {
    && |s.entries| == |s.tasks|
    && (forall i :: 0 <= i < |s.tasks| ==>
          s.tasks[i] in s.store.outbox && Mirrors(s.store.outbox[s.tasks[i]], s.entries[i])
          && s.store.outbox[s.tasks[i]].status == Created)
    && (forall i, j :: 0 <= i < j < |s.tasks| ==> s.tasks[i] != s.tasks[j] && s.entries[i].id != s.entries[j].id)
    && (forall id :: id in s.store.outbox ==> id in s.tasks)
  }

  ghost predicate WordsOk(s: State) {
    forall i :: 0 <= i < |s.entries| ==> Worded(s.entries[i].record)
  }

  ghost predicate RemovedOk(s: State, id: nat) {
    id in s.chains && id !in s.store.orders ==>
      exists j :: 0 <= j < |s.commits| && s.commits[j].op == Return(id) && s.chains[id] != []
                  && s.chains[id][0].expirationDate < s.commits[j].x.check
  }

  /** A value that was the committed row of its order at some time. */
  ghost predicate Genuine(s: State, d: OrderData) {
    d.history == [] && d.row in Chain(s.chains, d.id)
  }

  ghost predicate CacheOk(s: State) {
    && (forall id :: id in s.cache ==> s.cache[id].id == id && Genuine(s, s.cache[id]))
    && (forall t :: t in s.threads ==> match s.threads[t]
          case Publishing(SetOrder(d)) => Genuine(s, d)
          case Fetched(d) => Genuine(s, d)
          case _ => true)
  }

  /** The part of the invariant about tables and logs. */
  ghost predicate TablesOk(s: State) {
    && StoreOk(s.store, s.now, s.strict) && ChainsOk(s)
    && (forall id :: TrailOk(s, id)) && LogOk(s) && WordsOk(s) && (forall id :: RemovedOk(s, id))
    && Replay(s.commits) == Some(s.store)
  }

  ghost predicate Inv(s: State) {
    TablesOk(s) && ThreadsOk(s) && IdsOk(s) && CacheOk(s)
  }
}
