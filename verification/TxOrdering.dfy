/**
  Transaction order within a block: the start-block transaction, then user transactions, each followed
  by the complete cascade of retries it schedules.

  Execution is a parameter: it rejects a transaction as invalid or includes it and schedules retries.
  Nothing bounds a cascade here, so every statement carries a budget of executed transactions and holds
  for all budgets.
*/
module TxOrdering {
  import opened Prelude

  type Tx = nat
  type State = nat
  type Address = nat

  datatype Execution = Invalid | Included(state: State, retries: seq<Tx>)

  datatype Machine = Machine(execute: (State, Tx) -> Execution, sender: Tx -> Option<Address>)

  datatype Kind = StartBlock | ScheduledRetry | User

  datatype Entry = Entry(tx: Tx, sender: Address, kind: Kind, index: nat)

  datatype Failure = UnknownSender(tx: Tx) | InternalFailed(tx: Tx)

  datatype Order = Complete(state: State, entries: seq<Entry>) | Failed(failure: Failure) | Unfinished

  // ---------------------------------------------------------------- the loop

  /** The loop's queues and what it has included; user senders were recovered up front. */
  datatype Production = Production(
    first: Option<Tx>,
    redeems: seq<Tx>,
    users: seq<(Tx, Option<Address>)>,
    state: State,
    entries: seq<Entry>)

  function Recovered(m: Machine, users: seq<Tx>): seq<(Tx, Option<Address>)> {
    seq(|users|, i requires 0 <= i < |users| => (users[i], m.sender(users[i])))
  }

  predicate Drained(p: Production) {
    p.first.None? && p.redeems == [] && p.users == []
  }

  /** What the next iteration executes, and the queues without it. */
  function Pop(m: Machine, p: Production): (r: (Tx, Option<Address>, Kind, Production))
    requires !Drained(p)
  {
    if p.first.Some? then (p.first.value, m.sender(p.first.value), StartBlock, p.(first := None))
    else if p.redeems != [] then (p.redeems[0], m.sender(p.redeems[0]), ScheduledRetry, p.(redeems := p.redeems[1..]))
    else (p.users[0].0, p.users[0].1, User, p.(users := p.users[1..]))
  }

  function Iterate(m: Machine, p: Production): Result<Production, Failure>
    requires !Drained(p)
  {
    var (tx, sender, kind, q) := Pop(m, p);
    if sender.None? then Err(UnknownSender(tx))
    else
      match m.execute(p.state, tx)
      case Invalid => if kind.StartBlock? then Err(InternalFailed(tx)) else Ok(q)
      case Included(state, retries) =>
        Ok(q.(state := state, redeems := q.redeems + retries,
              entries := p.entries + [Entry(tx, sender.value, kind, |p.entries|)]))
  }

  function Loop(m: Machine, p: Production, budget: nat): Order
    decreases budget
  {
    if Drained(p) then Complete(p.state, p.entries)
    else if budget == 0 then Unfinished
    else
      var next := Iterate(m, p);
      if next.Err? then Failed(next.error) else Loop(m, next.value, budget - 1)
  }

  method Produce(m: Machine, start: Option<Tx>, transactions: seq<Tx>, initial: State,
      budget: nat) returns (order: Order)
    ensures order == Loop(m, Production(start, [], Recovered(m, transactions), initial, []), budget)
  {
    var first, users, redeems := start, Recovered(m, transactions), [];
    var state, entries, index, left := initial, [], 0, budget;
    while !(first.None? && redeems == [] && users == []) && left > 0
      invariant index == |entries|
      invariant Loop(m, Production(first, redeems, users, state, entries), left) ==
                Loop(m, Production(start, [], Recovered(m, transactions), initial, []), budget)
      decreases left
    {
      var tx: Tx, sender: Option<Address>, kind: Kind;
      if first.Some? {
        tx, sender, kind := first.value, m.sender(first.value), StartBlock;
        first := None;
      } else if redeems != [] {
        tx, sender, kind := redeems[0], m.sender(redeems[0]), ScheduledRetry;
        redeems := redeems[1..];
      } else {
        tx, sender, kind := users[0].0, users[0].1, User;
        users := users[1..];
      }
      left := left - 1;
      if sender.None? {
        return Failed(UnknownSender(tx));
      }
      match m.execute(state, tx)
      case Invalid =>
        if kind.StartBlock? {
          return Failed(InternalFailed(tx));
        }
      case Included(post, retries) =>
        state := post;
        entries := entries + [Entry(tx, sender.value, kind, index)];
        index := index + 1;
        redeems := redeems + retries;
    }
    return if first.None? && redeems == [] && users == [] then Complete(state, entries) else Unfinished;
  }

  // ---------------------------------------------------------------- the specification

  /** One generation of retries, executed in order: what it includes and the generation it schedules. */
  datatype Generation = Ran(state: State, entries: seq<Entry>, next: seq<Tx>) | Broke(failure: Failure)

  function RunGeneration(m: Machine, state: State, txs: seq<Tx>, at: nat): Generation
    decreases |txs|
  {
    if txs == [] then Ran(state, [], [])
    else if m.sender(txs[0]).None? then Broke(UnknownSender(txs[0]))
    else
      match m.execute(state, txs[0])
      case Invalid => RunGeneration(m, state, txs[1..], at)
      case Included(state', retries) =>
        var rest := RunGeneration(m, state', txs[1..], at + 1);
        if rest.Broke? then rest
        else Ran(rest.state, [Entry(txs[0], m.sender(txs[0]).value, ScheduledRetry, at)] + rest.entries,
            retries + rest.next)
  }

  datatype CascadeResult = Settled(state: State, entries: seq<Entry>, left: nat) | Stopped(order: Order)

  /** A full retry cascade, generation after generation. */
  function Cascade(m: Machine, state: State, txs: seq<Tx>, at: nat, budget: nat): (r: CascadeResult)
    ensures r.Settled? ==> r.left <= budget
    ensures r.Stopped? ==> !r.order.Complete?
    decreases budget, |txs|
  {
    if txs == [] then Settled(state, [], budget)
    else if budget < |txs| then
      var part := RunGeneration(m, state, txs[..budget], at);
      Stopped(if part.Broke? then Failed(part.failure) else Unfinished)
    else
      var generation := RunGeneration(m, state, txs, at);
      if generation.Broke? then Stopped(Failed(generation.failure))
      else
        var rest := Cascade(m, generation.state, generation.next, at + |generation.entries|, budget - |txs|);
        if rest.Stopped? then rest
        else rest.(entries := generation.entries + rest.entries)
  }

  /** One user or start-block transaction with its cascade, then `users`; senders recovered one by one. */
  function WithCascade(m: Machine, state: State, entry: Entry, retries: seq<Tx>, users: seq<Tx>, budget: nat): Order
    decreases |users|, 1
  {
    var cascade := Cascade(m, state, retries, entry.index + 1, budget);
    if cascade.Stopped? then cascade.order
    else
      var rest := UsersInOrder(m, cascade.state, users, entry.index + 1 + |cascade.entries|, cascade.left);
      if rest.Complete? then Complete(rest.state, [entry] + cascade.entries + rest.entries) else rest
  }

  function UsersInOrder(m: Machine, state: State, users: seq<Tx>, at: nat, budget: nat): Order
    decreases |users|, 0
  {
    if users == [] then Complete(state, [])
    else if budget == 0 then Unfinished
    else if m.sender(users[0]).None? then Failed(UnknownSender(users[0]))
    else
      match m.execute(state, users[0])
      case Invalid => UsersInOrder(m, state, users[1..], at, budget - 1)
      case Included(state', retries) =>
        WithCascade(m, state', Entry(users[0], m.sender(users[0]).value, User, at), retries, users[1..], budget - 1)
  }

  function BlockOrder(m: Machine, start: Option<Tx>, users: seq<Tx>, state: State, budget: nat): Order {
    if start.None? then UsersInOrder(m, state, users, 0, budget)
    else if budget == 0 then Unfinished
    else if m.sender(start.value).None? then Failed(UnknownSender(start.value))
    else
      match m.execute(state, start.value)
      case Invalid => Failed(InternalFailed(start.value))
      case Included(state', retries) =>
        WithCascade(m, state', Entry(start.value, m.sender(start.value).value, StartBlock, 0), retries, users,
            budget - 1)
  }

  // ---------------------------------------------------------------- the loop meets the specification

  /** The order a loop reaches when `entries` precede what `order` includes. */
  function After(entries: seq<Entry>, order: Order): Order {
    if order.Complete? then order.(entries := entries + order.entries) else order
  }

  /** The FIFO queue runs one whole generation before the retries it schedules, whatever stands behind it. */
  lemma {:induction false} LoopRunsGeneration(m: Machine, p: Production, txs: seq<Tx>, behind: seq<Tx>, budget: nat)
    requires p.first.None? && p.redeems == txs + behind && |txs| <= budget
    ensures var g := RunGeneration(m, p.state, txs, |p.entries|);
            Loop(m, p, budget) ==
            if g.Broke? then Failed(g.failure)
            else Loop(m, p.(state := g.state, redeems := behind + g.next, entries := p.entries + g.entries),
                budget - |txs|)
    decreases |txs|
  {
    if txs == [] {
      assert behind + [] == behind && txs + behind == behind && p.entries + [] == p.entries;
    } else {
      assert p.redeems[0] == txs[0] && p.redeems[1..] == txs[1..] + behind;
      var next := Iterate(m, p);
      if next.Ok? {
        match m.execute(p.state, txs[0])
        case Invalid => LoopRunsGeneration(m, next.value, txs[1..], behind, budget - 1);
        case Included(state, retries) =>
          assert next.value.redeems == txs[1..] + (behind + retries);
          LoopRunsGeneration(m, next.value, txs[1..], behind + retries, budget - 1);
          var rest := RunGeneration(m, state, txs[1..], |p.entries| + 1);
          if rest.Ran? {
            Assoc(behind, retries, rest.next);
            Assoc(p.entries, [next.value.entries[|p.entries|]], rest.entries);
          }
      }
    }
  }

  /** With too little budget for the generation the loop stops inside it. */
  lemma {:induction false} LoopStopsInGeneration(m: Machine, p: Production, txs: seq<Tx>, behind: seq<Tx>, budget: nat)
    requires p.first.None? && p.redeems == txs + behind && budget < |txs|
    ensures var g := RunGeneration(m, p.state, txs[..budget], |p.entries|);
            Loop(m, p, budget) == if g.Broke? then Failed(g.failure) else Unfinished
    decreases budget
  {
    if budget > 0 {
      assert p.redeems[0] == txs[0] && p.redeems[1..] == txs[1..] + behind;
      assert txs[..budget][0] == txs[0] && txs[..budget][1..] == txs[1..][..budget - 1];
      var next := Iterate(m, p);
      if next.Ok? {
        match m.execute(p.state, txs[0])
        case Invalid => LoopStopsInGeneration(m, next.value, txs[1..], behind, budget - 1);
        case Included(state, retries) =>
          assert next.value.redeems == txs[1..] + (behind + retries);
          LoopStopsInGeneration(m, next.value, txs[1..], behind + retries, budget - 1);
      }
    }
  }

  lemma CascadeUnfolds(m: Machine, state: State, txs: seq<Tx>, at: nat, budget: nat, g: Generation)
    requires txs != [] && |txs| <= budget && g == RunGeneration(m, state, txs, at) && g.Ran?
    ensures var rest := Cascade(m, g.state, g.next, at + |g.entries|, budget - |txs|);
            Cascade(m, state, txs, at, budget) == if rest.Stopped? then rest
                else rest.(entries := g.entries + rest.entries)
  {
  }

  /** What the loop does once the retry queue of `p` went through the cascade `c`. */
  function Resume(m: Machine, p: Production, c: CascadeResult): Order {
    if c.Stopped? then c.order
    else Loop(m, p.(state := c.state, redeems := [], entries := p.entries + c.entries), c.left)
  }

  lemma ResumeAfter(m: Machine, p: Production, q: Production, g: Generation, rest: CascadeResult)
    requires g.Ran? && q == p.(state := g.state, redeems := g.next, entries := p.entries + g.entries)
    ensures Resume(m, q, rest) ==
            Resume(m, p, if rest.Stopped? then rest else rest.(entries := g.entries + rest.entries))
  {
    if rest.Settled? {
      Assoc(p.entries, g.entries, rest.entries);
    }
  }

  lemma LoopPastGeneration(m: Machine, p: Production, q: Production, g: Generation, budget: nat)
    requires p.first.None? && |p.redeems| <= budget && g == RunGeneration(m, p.state, p.redeems, |p.entries|)
    requires g.Ran? ==> q == p.(state := g.state, redeems := g.next, entries := p.entries + g.entries)
    ensures Loop(m, p, budget) == if g.Broke? then Failed(g.failure) else Loop(m, q, budget - |p.redeems|)
  {
    assert p.redeems + [] == p.redeems;
    LoopRunsGeneration(m, p, p.redeems, [], budget);
    if g.Ran? {
      assert [] + g.next == g.next;
    }
  }

  lemma LoopWithinGeneration(m: Machine, p: Production, budget: nat)
    requires p.first.None? && budget < |p.redeems|
    ensures Loop(m, p, budget) == Resume(m, p, Cascade(m, p.state, p.redeems, |p.entries|, budget))
  {
    assert p.redeems + [] == p.redeems;
    LoopStopsInGeneration(m, p, p.redeems, [], budget);
  }

  lemma CascadeBreaks(m: Machine, state: State, txs: seq<Tx>, at: nat, budget: nat)
    requires txs != [] && |txs| <= budget && RunGeneration(m, state, txs, at).Broke?
    ensures Cascade(m, state, txs, at, budget) == Stopped(Failed(RunGeneration(m, state, txs, at).failure))
  {
  }

  /** From a non-empty retry queue the loop drains the full cascade before anything else. */
  lemma {:induction false} LoopRunsCascade(m: Machine, p: Production, budget: nat)
    requires p.first.None?
    ensures Loop(m, p, budget) == Resume(m, p, Cascade(m, p.state, p.redeems, |p.entries|, budget))
    decreases budget, |p.redeems|
  {
    if p.redeems == [] {
      assert p.entries + [] == p.entries;
    } else if budget < |p.redeems| {
      LoopWithinGeneration(m, p, budget);
    } else {
      var g := RunGeneration(m, p.state, p.redeems, |p.entries|);
      if g.Broke? {
        LoopPastGeneration(m, p, p, g, budget);
        CascadeBreaks(m, p.state, p.redeems, |p.entries|, budget);
      } else {
        var q := p.(state := g.state, redeems := g.next, entries := p.entries + g.entries);
        LoopPastGeneration(m, p, q, g, budget);
        LoopRunsCascade(m, q, budget - |p.redeems|);
        CascadeUnfolds(m, p.state, p.redeems, |p.entries|, budget, g);
        ResumeAfter(m, p, q, g, Cascade(m, g.state, g.next, |p.entries| + |g.entries|, budget - |p.redeems|));
      }
    }
  }

  lemma {:induction false} LoopRunsUsers(m: Machine, p: Production, users: seq<Tx>, budget: nat)
    requires p.first.None? && p.redeems == [] && p.users == Recovered(m, users)
    ensures Loop(m, p, budget) == After(p.entries, UsersInOrder(m, p.state, users, |p.entries|, budget))
    decreases |users|, 0
  {
    if users == [] {
      assert p.entries + [] == p.entries;
    } else if budget > 0 && m.sender(users[0]).Some? {
      assert p.users[1..] == Recovered(m, users[1..]);
      match m.execute(p.state, users[0])
      case Invalid => LoopRunsUsers(m, p.(users := p.users[1..]), users[1..], budget - 1);
      case Included(state, retries) =>
        var e := Entry(users[0], m.sender(users[0]).value, User, |p.entries|);
        assert [] + retries == retries;
        LoopRunsEntry(m, p.(users := p.users[1..], state := state, redeems := retries, entries := p.entries + [e]), e,
            p.entries, users[1..], budget - 1);
    }
  }

  lemma {:induction false} LoopRunsEntry(m: Machine, p: Production, e: Entry, before: seq<Entry>, users: seq<Tx>,
      budget: nat)
    requires p.first.None? && p.users == Recovered(m, users) && p.entries == before + [e] && e.index == |before|
    ensures Loop(m, p, budget) == After(before, WithCascade(m, p.state, e, p.redeems, users, budget))
    decreases |users|, 1
  {
    LoopRunsCascade(m, p, budget);
    var c := Cascade(m, p.state, p.redeems, |p.entries|, budget);
    if c.Settled? {
      var q := p.(state := c.state, redeems := [], entries := p.entries + c.entries);
      LoopRunsUsers(m, q, users, c.left);
      var rest := UsersInOrder(m, c.state, users, |q.entries|, c.left);
      if rest.Complete? {
        Assoc(before, [e], c.entries);
        Assoc(before, [e] + c.entries, rest.entries);
      }
    }
  }

  /** For every budget the loop's order is the specified one: the start-block transaction and its
      cascade, then each user transaction followed by its full cascade before the next; invalid
      transactions dropped, indices dense, and up-front sender recovery failing exactly where serial
      recovery would. */
  lemma {:induction false} LoopIsBlockOrder(m: Machine, start: Option<Tx>, users: seq<Tx>, state: State, budget: nat)
    ensures Loop(m, Production(start, [], Recovered(m, users), state, []), budget) ==
        BlockOrder(m, start, users, state, budget)
  {
    var p := Production(start, [], Recovered(m, users), state, []);
    if start.None? {
      LoopRunsUsers(m, p, users, budget);
    } else if budget > 0 && m.sender(start.value).Some? && m.execute(state, start.value).Included? {
      var retries := m.execute(state, start.value).retries;
      var e := Entry(start.value, m.sender(start.value).value, StartBlock, 0);
      assert [] + retries == retries && [] + [e] == [e];
      LoopRunsEntry(m, p.(first := None, state := m.execute(state, start.value).state, redeems := retries,
          entries := [e]), e, [], users, budget - 1);
    }
  }

  // ---------------------------------------------------------------- consequences

  predicate Dense(entries: seq<Entry>, at: nat) {
    forall i :: 0 <= i < |entries| ==> entries[i].index == at + i
  }

  lemma {:induction false} LoopIsDense(m: Machine, p: Production, budget: nat)
    requires Dense(p.entries, 0)
    ensures Loop(m, p, budget).Complete? ==> Dense(Loop(m, p, budget).entries, 0)
    decreases budget
  {
    if !Drained(p) && budget > 0 && Iterate(m, p).Ok? {
      LoopIsDense(m, Iterate(m, p).value, budget - 1);
    }
  }

  /** A larger budget never changes an order that is already settled. */
  lemma {:induction false} LoopSettles(m: Machine, p: Production, budget: nat, more: nat)
    requires budget <= more && !Loop(m, p, budget).Unfinished?
    ensures Loop(m, p, more) == Loop(m, p, budget)
    decreases budget
  {
    if !Drained(p) && Iterate(m, p).Ok? {
      LoopSettles(m, Iterate(m, p).value, budget - 1, more - 1);
    }
  }
}
