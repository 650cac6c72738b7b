/** Runs of the interleaved model from any state, and how they are put together. */
module Runs {
  import opened Domain
  import opened Interleaving

  function AfterFrom(s: State, run: seq<Action>): Option<State> {
    if run == [] then Some(s)
    else
      var before := AfterFrom(s, run[..|run| - 1]);
      if before.None? then None else Next(before.value, run[|run| - 1])
  }

  lemma {:induction false} AfterExtends(strict: bool, run: seq<Action>, more: seq<Action>)
    requires After(strict, run).Some?
    ensures After(strict, run + more) == AfterFrom(After(strict, run).value, more)
  {
    if more == [] {
      assert run + more == run;
    } else {
      var n := |more| - 1;
      AfterExtends(strict, run, more[..n]);
      assert (run + more)[..|run + more| - 1] == run + more[..n];
    }
  }

  lemma {:induction false} AppendFrom(s: State, a: seq<Action>, b: seq<Action>)
    requires AfterFrom(s, a).Some?
    ensures AfterFrom(s, a + b) == AfterFrom(AfterFrom(s, a).value, b)
  {
    if b == [] {
      assert a + b == a;
    } else {
      AppendFrom(s, a, b[..|b| - 1]);
      assert (a + b)[..|a + b| - 1] == a + b[..|b| - 1];
    }
  }

  function Then(s: Option<State>, a: Action): Option<State> {
    if s.None? then None else Next(s.value, a)
  }

  lemma OneMore(s: State, run: seq<Action>, a: Action)
    ensures AfterFrom(s, run + [a]) == Then(AfterFrom(s, run), a)
  {
  }

  lemma OneMoreAfter(strict: bool, run: seq<Action>, a: Action)
    ensures After(strict, run + [a]) == Then(After(strict, run), a)
  {
    assert (run + [a])[..|run|] == run;
  }

  lemma OneAction(s: State, a: Action)
    ensures AfterFrom(s, [a]) == Next(s, a)
  {
    OneMore(s, [], a);
    assert [] + [a] == [a];
  }

  /** The first two steps of a query that goes to the table. */
  function Looking(t: nat, id: nat, recipientId: int): seq<Action> {
    [StartQuery(t, id, recipientId)] + [Fetch(t)]
  }

  lemma Looks(s: State, t: nat, id: nat)
    requires t !in s.threads && id in s.store.orders
    ensures AfterFrom(s, Looking(t, id, s.store.orders[id].recipientId))
              == Some(s.(threads := s.threads[t := Fetched(OrderData(id, s.store.orders[id], []))]))
  {
    var r := s.store.orders[id].recipientId;
    OneAction(s, StartQuery(t, id, r));
    OneMore(s, [StartQuery(t, id, r)], Fetch(t));
    var f := Fetched(OrderData(id, s.store.orders[id], []));
    assert s.threads[t := Querying(id, r)][t := f] == s.threads[t := f];
  }
}
