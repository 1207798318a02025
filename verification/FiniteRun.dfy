/** A finite run whose whole input was sent before the close ends exactly at its frontier. */
module FiniteRun {
  import opened Prelude
  import opened EngineDriver
  import opened EngineDriverRuns
  import opened EngineDriverCursor
  import opened Ingress
  import opened IngressRuns
  import opened DriveLoop

  function Messages(calls: seq<Call>): seq<Message> {
    seq(|calls|, i requires 0 <= i < |calls| => calls[i].message)
  }

  lemma {:induction false} RunSnoc(e: Engine, d: Driver, calls: seq<Call>, c: Call)
    requires Run(e, d, calls).ok
    ensures Run(e, d, calls + [c]) == Advance(e, Run(e, d, calls).driver, c.message, c.deferTail)
    decreases |calls|
  {
    if calls == [] {
      assert ([] + [c])[1..] == [];
    } else {
      assert (calls + [c])[0] == calls[0] && (calls + [c])[1..] == calls[1..] + [c];
      RunSnoc(e, Advance(e, d, calls[0].message, calls[0].deferTail).driver, calls[1..], c);
    }
  }

  lemma {:induction false} RunReconciles(e: Engine, genesis: nat, d: Driver, calls: seq<Call>)
    requires Sequential(e) && Reconciled(genesis, d)
    ensures Reconciled(genesis, Run(e, d, calls).driver)
    decreases |calls|
  {
    if calls != [] {
      AdvanceReconciles(e, genesis, d, calls[0].message, calls[0].deferTail);
      var s := Advance(e, d, calls[0].message, calls[0].deferTail);
      if s.ok { RunReconciles(e, genesis, s.driver, calls[1..]); }
    }
  }

  // ---------------------------------------------------------------- the ledger of the loop

  /** Below the bound nothing accepted is lost: it was handed over, is in hand, or is still queued. */
  ghost predicate Kept(l: Loop, max: nat) {
    && Coherent(l.v) && AllUpTo(l.v.l1Buffered, max)
    && l.v.feed.closed && FeedStream(l.v) == []
    && UpTo(l.taken + l.hand + L1Stream(l.v), max) == UpTo(l.accepted, max)
  }

  /** The driver has been called with exactly the taken messages at or below the bound. */
  ghost predicate Called(e: Engine, o: Driver, l: Loop, max: nat) {
    && Messages(l.calls) == UpTo(l.taken, max)
    && Run(e, o, l.calls) == Step(true, l.d)
  }

  ghost predicate FiniteInv(e: Engine, o: Driver, l: Loop, max: nat) {
    l.stopped != Some(false) ==>
      && Kept(l, max) && Called(e, o, l, max)
      && (l.selected.None? ==> l.hand == [])
      && (l.stopped == Some(true) ==> l.hand == [] && L1Stream(l.v) == [] && l.v.l1.closed)
  }

  lemma UpToConcat3(a: seq<Message>, b: seq<Message>, c: seq<Message>, max: nat)
    ensures UpTo(a + b + c, max) == UpTo(a, max) + UpTo(b, max) + UpTo(c, max)
  {
    UpToConcat(a + b, c, max);
    UpToConcat(a, b, max);
  }

  lemma UpToIdempotent(s: seq<Message>, max: nat)
    ensures UpTo(UpTo(s, max), max) == UpTo(s, max)
  {
    UpToIsUpTo(s, max);
    UpToIsUpTo(UpTo(s, max), max);
  }

  lemma ObserveKeeps(l: Loop, max: nat)
    requires Kept(l, max)
    ensures var o := Observe(l, Some(max)); Kept(o, max) && o == l.(v := o.v) && (l.v.l1.closed ==> o.v.l1.closed)
  {
    if l.closeSignalled {
      CloseKeepsUpTo(l.v, max);
      UpToConcat3(l.taken, l.hand, L1Stream(l.v), max);
      UpToConcat3(l.taken, l.hand, L1Stream(CloseL1(l.v, max)), max);
      UpToIdempotent(L1Stream(l.v), max);
    }
  }

  lemma HandedWithoutFeed(v: Scheduler, b: Batch, w: Scheduler)
    requires Handed(v, b, w) && FeedStream(v) == []
    ensures b.source.L1? && FeedStream(w) == [] && L1Stream(v) == b.messages + L1Stream(w)
  {
    assert |b.messages + FeedStream(w)| == |b.messages| + |FeedStream(w)|;
  }

  lemma KeptWithBatch(l: Loop, b: Batch, v: Scheduler, max: nat)
    requires Kept(l, max) && l.hand == [] && Handed(l.v, b, v)
    requires Coherent(v) && AllUpTo(v.l1Buffered, max) && v.feed.closed
    ensures Kept(l.(v := v, hand := b.messages), max)
  {
    HandedWithoutFeed(l.v, b, v);
    assert l.taken + [] + (b.messages + L1Stream(v)) == l.taken + b.messages + L1Stream(v);
  }

  lemma KeptWithoutBatch(l: Loop, v: Scheduler, max: nat)
    requires Kept(l, max) && FeedStream(v) == [] && L1Stream(l.v) == [] && L1Stream(v) == []
    requires Coherent(v) && AllUpTo(v.l1Buffered, max) && v.feed.closed
    ensures Kept(l.(v := v), max)
  {
  }

  /** What a poll of a run without feed leaves behind, batch or no batch. */
  ghost predicate Polled(l: Loop, poll: Poll, v: Scheduler, max: nat) {
    && (poll.Ready? && poll.batch.Some? ==> Kept(l.(v := v, hand := poll.batch.value.messages), max))
    && (poll.Pending? || poll == Ready(None) ==> Kept(l.(v := v), max) && L1Stream(v) == [])
    && (poll == Ready(None) ==> v.l1.closed)
  }

  lemma PolledFromFacts(l: Loop, poll: Poll, v: Scheduler, max: nat)
    requires Kept(l, max) && l.hand == []
    requires Coherent(v) && AllUpTo(v.l1Buffered, max) && v.feed.closed
    requires poll.Ready? && poll.batch.Some? ==> Handed(l.v, poll.batch.value, v)
    requires poll.Pending? || poll == Ready(None) ==> FeedStream(v) == [] && L1Stream(l.v) == [] && L1Stream(v) == []
    requires poll == Ready(None) ==> v.l1.closed
    ensures Polled(l, poll, v, max)
  {
    if poll.Ready? && poll.batch.Some? {
      KeptWithBatch(l, poll.batch.value, v, max);
    } else {
      KeptWithoutBatch(l, v, max);
    }
  }

  lemma PollFinite(l: Loop, next: nat, max: nat)
    requires Kept(l, max) && l.hand == []
    ensures Polled(l, NextBatch(l.v, next).0, NextBatch(l.v, next).1, max)
  {
    PollKeeps(l.v, next);
    PollWithoutBatch(l.v, next);
    var poll, v := NextBatch(l.v, next).0, NextBatch(l.v, next).1;
    SuffixUpTo(v.l1Buffered, l.v.l1Buffered, max);
    if poll.Ready? && poll.batch.Some? {
      PollHandsOut(l.v, next);
    }
    PolledFromFacts(l, poll, v, max);
  }

  lemma TopKeeps(e: Engine, o: Driver, l: Loop, genesis: nat, max: nat)
    requires FiniteInv(e, o, l, max) && l.stopped.None? && l.selected.None?
    ensures FiniteInv(e, o, AtTop(l, genesis, Some(max)), max)
  {
    var next := NextDriverSequence(l.d.tip.number, genesis);
    if next.Ok? {
      ObserveKeeps(l, max);
      PollFinite(Observe(l, Some(max)), next.value, max);
    }
  }

  /** Moving the first message in hand to the taken ones changes nothing in the ledger. */
  lemma TakeOne(l: Loop, max: nat)
    requires Kept(l, max) && l.hand != []
    ensures Kept(l.(hand := l.hand[1..], taken := l.taken + [l.hand[0]]), max)
    ensures UpTo(l.taken + [l.hand[0]], max) ==
            UpTo(l.taken, max) + if l.hand[0].sequence <= max then [l.hand[0]] else []
  {
    assert l.hand == [l.hand[0]] + l.hand[1..];
    assert l.taken + l.hand == l.taken + [l.hand[0]] + l.hand[1..];
    UpToConcat(l.taken, [l.hand[0]], max);
    assert [l.hand[0]][1..] == [];
    assert UpTo([l.hand[0]], max) == if l.hand[0].sequence <= max then [l.hand[0]] else [];
  }

  lemma CalledOneMore(e: Engine, o: Driver, l: Loop, m: Message, defer: bool, max: nat)
    requires Called(e, o, l, max) && m.sequence <= max && Advance(e, l.d, m, defer).ok
    requires UpTo(l.taken + [m], max) == UpTo(l.taken, max) + [m]
    ensures var d := Advance(e, l.d, m, defer).driver;
            Called(e, o, l.(taken := l.taken + [m], calls := l.calls + [Call(m, defer)], d := d), max)
  {
    RunSnoc(e, o, l.calls, Call(m, defer));
    assert Messages(l.calls + [Call(m, defer)]) == Messages(l.calls) + [m];
  }

  lemma HandOverKeeps(e: Engine, o: Driver, l: Loop, frontier: nat, genesis: nat)
    requires genesis <= frontier < U64_LIMIT && FiniteInv(e, o, l, frontier - genesis) && l.stopped.None? &&
        l.hand != []
    ensures FiniteInv(e, o, AtHandOver(e, l, Finite(frontier), genesis, Some(frontier - genesis)), frontier - genesis)
  {
    var max := frontier - genesis;
    var m, defer := l.hand[0], l.hand[1..] != [];
    GateMatchesBound(frontier, m.sequence, genesis);
    ObserveKeeps(l, max);
    var ob := Observe(l, Some(max));
    TakeOne(ob, max);
    if m.sequence <= max && Advance(e, l.d, m, defer).ok {
      CalledOneMore(e, o, l, m, defer, max);
    }
  }

  lemma ArrivalKeeps(l: Loop, m: Message, max: nat)
    requires Kept(l, max) && !l.v.l1.closed
    ensures Kept(l.(v := l.v.(l1 := l.v.l1.(queue := l.v.l1.queue + [m])), accepted := l.accepted + [m]), max)
  {
    var s, h, q := l.taken + l.hand, Head(l.v.l1Pending) + l.v.l1Buffered, l.v.l1.queue;
    assert s + (h + (q + [m])) == s + (h + q) + [m];
    UpToConcat(s + (h + q), [m], max);
    UpToConcat(l.accepted, [m], max);
  }

  /** Changing the scheduler without touching its streams keeps the invariant. */
  lemma SameStreamsKeep(e: Engine, o: Driver, l: Loop, v: Scheduler, max: nat)
    requires FiniteInv(e, o, l, max) && (Coherent(l.v) ==> Coherent(v))
    requires v.l1Buffered == l.v.l1Buffered && FeedStream(v) == FeedStream(l.v) && L1Stream(v) == L1Stream(l.v)
    requires (l.v.feed.closed ==> v.feed.closed) && (l.v.l1.closed ==> v.l1.closed)
    ensures FiniteInv(e, o, l.(v := v), max)
  {
  }

  lemma ArrivalStepKeeps(e: Engine, o: Driver, l: Loop, m: Message, l': Loop, max: nat)
    requires FiniteInv(e, o, l, max)
    requires l' == if l.v.l1.closed then l
                   else l.(v := l.v.(l1 := l.v.l1.(queue := l.v.l1.queue + [m])), accepted := l.accepted + [m])
    ensures FiniteInv(e, o, l', max)
  {
    if l.stopped != Some(false) && !l.v.l1.closed { ArrivalKeeps(l, m, max); }
  }

  lemma FinishStepKeeps(e: Engine, o: Driver, l: Loop, l': Loop, max: nat)
    requires FiniteInv(e, o, l, max) && l.stopped.None? && l.hand == [] && l.selected.Some?
    requires l' == l.(v := Complete(l.v, l.selected.value.source, l.selected.value.kind), selected := None)
    ensures FiniteInv(e, o, l', max)
  {
    SameStreamsKeep(e, o, l, Complete(l.v, l.selected.value.source, l.selected.value.kind), max);
  }

  lemma FeedArrivalKeeps(e: Engine, o: Driver, l: Loop, m: Message, l': Loop, max: nat)
    requires FiniteInv(e, o, l, max)
    requires l' == if l.v.feed.closed then l else l.(v := l.v.(feed := l.v.feed.(queue := l.v.feed.queue + [m])))
    ensures FiniteInv(e, o, l', max)
  {
  }

  lemma StepKeeps(e: Engine, o: Driver, l: Loop, step: LoopStep, l': Loop, frontier: nat, genesis: nat)
    requires genesis <= frontier < U64_LIMIT && FiniteInv(e, o, l, frontier - genesis)
    requires l' == LoopNext(e, l, step, Finite(frontier), genesis, Some(frontier - genesis))
    ensures FiniteInv(e, o, l', frontier - genesis)
  {
    var max := frontier - genesis;
    match step
    case FeedArrives(m) => FeedArrivalKeeps(e, o, l, m, l', max);
    case L1Arrives(m) => ArrivalStepKeeps(e, o, l, m, l', max);
    case FeedSendersGone => SameStreamsKeep(e, o, l, l.v.(feed := l.v.feed.(closed := true)), max);
    case L1SendersGone => SameStreamsKeep(e, o, l, l.v.(l1 := l.v.l1.(closed := true)), max);
    case SignalClose => SignalKeeps(e, o, l, max);
    case Top => if l.stopped.None? && l.selected.None? { TopKeeps(e, o, l, genesis, max); }
    case HandOver => if l.stopped.None? && l.hand != [] { HandOverKeeps(e, o, l, frontier, genesis); }
    case Finish => if l.stopped.None? && l.hand == [] && l.selected.Some? { FinishStepKeeps(e, o, l, l', max); }
  }

  lemma SignalKeeps(e: Engine, o: Driver, l: Loop, max: nat)
    requires FiniteInv(e, o, l, max)
    ensures FiniteInv(e, o, l.(closeSignalled := true), max)
  {
  }

  lemma {:induction false} RunKeepsLedger(e: Engine, o: Driver, l: Loop, steps: seq<LoopStep>, frontier: nat,
      genesis: nat)
    requires genesis <= frontier < U64_LIMIT && FiniteInv(e, o, l, frontier - genesis)
    ensures FiniteInv(e, o, LoopRun(e, l, steps, Finite(frontier), genesis, Some(frontier - genesis)),
        frontier - genesis)
    decreases |steps|
  {
    if steps != [] {
      var l' := LoopNext(e, l, steps[0], Finite(frontier), genesis, Some(frontier - genesis));
      StepKeeps(e, o, l, steps[0], l', frontier, genesis);
      RunKeepsLedger(e, o, l', steps[1..], frontier, genesis);
    }
  }

  // ---------------------------------------------------------------- reaching the frontier

  /** The sequences `a`, ..., `b - 1` were sent in this order, with anything in between. */
  ghost predicate Sent(messages: seq<Message>, a: nat, b: nat)
    decreases |messages|
  {
    a >= b ||
    (messages != [] &&
     (Sent(messages[1..], a, b) || (messages[0].sequence == a && Sent(messages[1..], a + 1, b))))
  }

  lemma {:induction false} SentUpTo(messages: seq<Message>, a: nat, max: nat)
    requires Sent(messages, a, max + 1)
    ensures Sent(UpTo(messages, max), a, max + 1)
    decreases |messages|
  {
    if a <= max {
      var rest := UpTo(messages[1..], max);
      if messages[0].sequence <= max {
        assert UpTo(messages, max) == [messages[0]] + rest && ([messages[0]] + rest)[1..] == rest;
      } else {
        assert UpTo(messages, max) == [] + rest == rest;
      }
      if Sent(messages[1..], a, max + 1) {
        SentUpTo(messages[1..], a, max);
      } else {
        SentUpTo(messages[1..], a + 1, max);
      }
    }
  }

  lemma {:induction false} SentIsCarried(calls: seq<Call>, a: nat, b: nat)
    requires Sent(Messages(calls), a, b)
    ensures Carries(calls, a, b)
    decreases |calls|
  {
    if a < b {
      assert Messages(calls)[1..] == Messages(calls[1..]);
      if Sent(Messages(calls[1..]), a, b) {
        SentIsCarried(calls[1..], a, b);
      } else {
        SentIsCarried(calls[1..], a + 1, b);
      }
    }
  }

  /** The loop of a finite run as it starts: no feed, `queue` already sent by L1. */
  function StartFinite(o: Driver, queue: seq<Message>): Loop {
    Loop(Scheduler(Channel([], true), Channel(queue, false), None, None, [], true, true, Feed),
         o, [], None, false, None, queue, [], [])
  }

  /** A loop that stopped normally has called the driver with everything accepted up to the bound. */
  lemma EverythingCalled(e: Engine, o: Driver, l: Loop, max: nat)
    requires FiniteInv(e, o, l, max) && l.stopped == Some(true)
    ensures Messages(l.calls) == UpTo(l.accepted, max) && Run(e, o, l.calls) == Step(true, l.d)
  {
    assert l.taken + l.hand + L1Stream(l.v) == l.taken;
  }

  lemma StoppedAtFrontier(e: Engine, o: Driver, calls: seq<Call>, accepted: seq<Message>, d: Driver, frontier: nat,
      genesis: nat, a: nat)
    requires Sequential(e) && genesis <= frontier
    requires Reconciled(genesis, o) && o.nextSeq !in o.pending && a <= o.nextSeq
    requires Run(e, o, calls) == Step(true, d) && d.nextSeq <= frontier - genesis + 1
    requires Messages(calls) == UpTo(accepted, frontier - genesis) && Sent(accepted, a, frontier - genesis + 1)
    ensures d.tip.number == frontier
  {
    SentUpTo(accepted, a, frontier - genesis);
    SentIsCarried(calls, a, frontier - genesis + 1);
    OrderedStreamReachesItsEnd(e, o, calls, a, frontier - genesis + 1);
    RunReconciles(e, genesis, o, calls);
  }

  lemma StartIsKept(e: Engine, o: Driver, queue: seq<Message>, max: nat)
    ensures FiniteInv(e, o, StartFinite(o, queue), max)
  {
    assert [] + [] + ([] + [] + queue) == queue;
  }

  /** A run that ended normally has called the driver with everything accepted up to the bound. */
  lemma FinishedRun(e: Engine, o: Driver, queue: seq<Message>, steps: seq<LoopStep>, frontier: nat, genesis: nat,
      l: Loop)
    requires Sequential(e) && genesis <= frontier < U64_LIMIT
    requires Reconciled(genesis, o) && o.pending == map[] && o.built == [] && o.tip.number <= frontier
    requires l == LoopRun(e, StartFinite(o, queue), steps, Finite(frontier), genesis, Some(frontier - genesis))
    requires l.stopped == Some(true)
    ensures Messages(l.calls) == UpTo(l.accepted, frontier - genesis) && Run(e, o, l.calls) == Step(true, l.d)
    ensures l.d.nextSeq <= frontier - genesis + 1
  {
    var start := StartFinite(o, queue);
    StartIsKept(e, o, queue, frontier - genesis);
    RunKeepsLedger(e, o, start, steps, frontier, genesis);
    LoopStaysWithin(e, start, steps, frontier, genesis, Some(frontier - genesis));
    EverythingCalled(e, o, l, frontier - genesis);
  }

  /** If every sequence up to the frontier was sent in order before the input closed and the loop ended
      normally, the driver's tip is exactly the frontier. */
  lemma {:induction false} FinalTipIsFrontier(e: Engine, o: Driver, queue: seq<Message>, steps: seq<LoopStep>,
      frontier: nat, genesis: nat, a: nat, l: Loop)
    requires Sequential(e) && genesis <= frontier < U64_LIMIT
    requires Reconciled(genesis, o) && o.pending == map[] && o.built == [] && o.tip.number <= frontier && a <= o.nextSeq
    requires l == LoopRun(e, StartFinite(o, queue), steps, Finite(frontier), genesis, Some(frontier - genesis))
    requires l.stopped == Some(true) && Sent(l.accepted, a, frontier - genesis + 1)
    ensures l.d.tip.number == frontier
  {
    FinishedRun(e, o, queue, steps, frontier, genesis, l);
    StoppedAtFrontier(e, o, l.calls, l.accepted, l.d, frontier, genesis, a);
  }
}
