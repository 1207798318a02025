/** What every call of the engine driver keeps, and what whole runs produce. */
module EngineDriverRuns {
  import opened Prelude
  import opened EngineDriver

  datatype Call = Call(message: Message, deferTail: bool)

  /** A run stops at the first error. */
  function Run(e: Engine, d: Driver, calls: seq<Call>): Step
    decreases |calls|
  {
    if calls == [] then Step(true, d)
    else
      var s := Advance(e, d, calls[0].message, calls[0].deferTail);
      if !s.ok then s else Run(e, s.driver, calls[1..])
  }

  // ---------------------------------------------------------------- the chain that must come out

  /** The `n`-th header above `tip` when the messages are `content(sequence)`, `content(sequence + 1)`, ... */
  function Chain(e: Engine, content: nat -> Message, tip: Header, sequence: nat, n: nat): Option<Header> {
    if n == 0 then Some(tip)
    else
      var parent := Chain(e, content, tip, sequence, n - 1);
      if parent.None? then None else e.build(parent.value, content(sequence + n - 1))
  }

  /** The blocks on the way, oldest first, each with its sequence number. */
  function ChainBlocks(e: Engine, content: nat -> Message, tip: Header, sequence: nat, n: nat): seq<PendingApplied>
    requires Chain(e, content, tip, sequence, n).Some?
  {
    if n == 0 then []
    else ChainBlocks(e, content, tip, sequence, n - 1) +
         [PendingApplied(sequence + n - 1, Chain(e, content, tip, sequence, n).value)]
  }

  /** From `o`, the driver has produced exactly the blocks of the messages below its cursor, once each. */
  ghost predicate ProducedFrom(e: Engine, content: nat -> Message, o: Driver, d: Driver) {
    && o.nextSeq <= d.nextSeq
    && Chain(e, content, o.tip, o.nextSeq, d.nextSeq - o.nextSeq) == Some(d.tip)
    && d.built == o.built + ChainBlocks(e, content, o.tip, o.nextSeq, d.nextSeq - o.nextSeq)
  }

  ghost predicate Agreed(content: nat -> Message, m: Message) {
    m == content(m.sequence)
  }

  /** The buffer holds agreed messages at or above the cursor. */
  ghost predicate BufferOk(content: nat -> Message, d: Driver) {
    forall k <- d.pending :: d.nextSeq <= k && d.pending[k].sequence == k && Agreed(content, d.pending[k])
  }

  // ---------------------------------------------------------------- callbacks and traffic

  function Sequences(blocks: seq<PendingApplied>): (r: seq<nat>)
    ensures |r| == |blocks|
  {
    if blocks == [] then [] else Sequences(blocks[..|blocks| - 1]) + [blocks[|blocks| - 1].sequence]
  }

  lemma SequencesSnoc(blocks: seq<PendingApplied>, b: PendingApplied)
    ensures Sequences(blocks + [b]) == Sequences(blocks) + [b.sequence]
  {
    assert (blocks + [b])[..|blocks|] == blocks;
  }

  /** Callbacks are the produced sequences, short of the one block that may still be in flight. */
  ghost predicate Reported(d: Driver) {
    d.applied + Completed(d) == Sequences(d.built)
  }

  /** The same without trusting an error to have reported its last completion. */
  ghost predicate LagsByOne(d: Driver) {
    d.applied <= Sequences(d.built) && |d.built| <= |d.applied| + 1
  }

  function InFlight(events: seq<Event>): int {
    if events == [] then 0
    else
      var last := events[|events| - 1];
      InFlight(events[..|events| - 1]) + (if last.FinalQueued? then 1 else if last.FinalSettled? then -1 else 0)
  }

  /** At every moment at most one final forkchoice request is unanswered. */
  ghost predicate OneInFlight(events: seq<Event>) {
    forall n :: 0 <= n <= |events| ==> 0 <= InFlight(events[..n]) <= 1
  }

  ghost predicate Traffic(d: Driver) {
    OneInFlight(d.events) && InFlight(d.events) == |Completed(d)|
  }

  lemma EventSnoc(events: seq<Event>, v: Event)
    requires OneInFlight(events)
    requires v.FinalQueued? ==> InFlight(events) == 0
    requires v.FinalSettled? ==> InFlight(events) == 1
    ensures OneInFlight(events + [v])
    ensures InFlight(events + [v]) == InFlight(events) + if v.FinalQueued? then 1 else if v.FinalSettled? then -1 else 0
  {
    var all := events + [v];
    assert all[..|events|] == events && events[..|events|] == events;
    forall n | 0 <= n <= |all| ensures 0 <= InFlight(all[..n]) <= 1 {
      if n <= |events| {
        assert all[..n] == events[..n];
      } else {
        assert all[..n] == all;
      }
    }
  }

  lemma SettleTraffic(e: Engine, d: Driver)
    requires Traffic(d)
    ensures Traffic(Settle(e, d).driver)
  {
    if d.inFlight.Some? {
      EventSnoc(d.events, FinalSettled(d.inFlight.value.header));
    }
  }

  lemma ApplyTraffic(e: Engine, d: Driver, m: Message)
    requires Traffic(d)
    ensures Traffic(Apply(e, d, m).driver)
  {
    if e.accepts(d.tip, m) {
      EventSnoc(d.events, AttributesQueued(d.tip, d.nextSeq));
      var queued := d.(events := d.events + [AttributesQueued(d.tip, d.nextSeq)]);
      SettleTraffic(e, queued);
      var s := Settle(e, queued);
      var h := e.build(d.tip, m);
      if s.ok && h.Some? {
        EventSnoc(s.driver.events, BlockInserted(h.value));
        EventSnoc(s.driver.events + [BlockInserted(h.value)], FinalQueued(h.value));
        assert s.driver.events + [BlockInserted(h.value), FinalQueued(h.value)] ==
               s.driver.events + [BlockInserted(h.value)] + [FinalQueued(h.value)];
      }
    }
  }

  lemma {:induction false} DrainTraffic(e: Engine, d: Driver)
    requires Traffic(d)
    ensures Traffic(Drain(e, d).driver)
    decreases |d.pending|
  {
    if d.nextSeq in d.pending {
      var rest := d.pending - {d.nextSeq};
      assert d.pending.Keys == rest.Keys + {d.nextSeq};
      ApplyTraffic(e, d.(pending := rest), d.pending[d.nextSeq]);
      var s := Apply(e, d.(pending := rest), d.pending[d.nextSeq]);
      if s.ok { DrainTraffic(e, s.driver); }
    }
  }

  /** No call, failing ones included, ever has two final forkchoice requests in flight. */
  lemma {:induction false} AdvanceTraffic(e: Engine, d: Driver, m: Message, deferTail: bool)
    requires Traffic(d)
    ensures Traffic(Advance(e, d, m, deferTail).driver)
  {
    if m.sequence != d.nextSeq {
      SettleTraffic(e, if m.sequence > d.nextSeq then Buffer(d, m) else d);
    } else {
      ApplyTraffic(e, d, m);
      var first := Apply(e, d, m);
      if first.ok {
        DrainTraffic(e, first.driver);
        SettleTraffic(e, Drain(e, first.driver).driver);
      }
    }
  }

  // ---------------------------------------------------------------- what a call keeps

  /** Everything that holds between calls, relative to the driver the run started from. */
  ghost predicate Sound(e: Engine, content: nat -> Message, o: Driver, d: Driver) {
    ProducedFrom(e, content, o, d) && BufferOk(content, d) && Reported(d)
  }

  /** What holds even when a call has failed. */
  ghost predicate SoundAfterError(e: Engine, content: nat -> Message, o: Driver, d: Driver) {
    ProducedFrom(e, content, o, d) && BufferOk(content, d) && LagsByOne(d)
  }

  lemma ApplyReports(e: Engine, d: Driver, m: Message)
    requires Reported(d)
    ensures var s := Apply(e, d, m); LagsByOne(s.driver) && (s.ok ==> Reported(s.driver))
  {
    var s := Apply(e, d, m);
    if s.ok {
      SequencesSnoc(d.built, PendingApplied(d.nextSeq, s.driver.tip));
      assert s.driver.applied == Sequences(d.built);
    } else {
      assert d.applied <= Sequences(d.built);
    }
  }

  lemma ApplyProduces(e: Engine, content: nat -> Message, o: Driver, d: Driver, m: Message)
    requires ProducedFrom(e, content, o, d) && m == content(d.nextSeq)
    ensures ProducedFrom(e, content, o, Apply(e, d, m).driver)
  {
    var s := Apply(e, d, m);
    if s.ok {
      var n := d.nextSeq - o.nextSeq;
      assert Chain(e, content, o.tip, o.nextSeq, n + 1) == Some(s.driver.tip);
      var last := PendingApplied(d.nextSeq, s.driver.tip);
      assert o.built + ChainBlocks(e, content, o.tip, o.nextSeq, n) + [last] ==
             o.built + (ChainBlocks(e, content, o.tip, o.nextSeq, n) + [last]);
    }
  }

  lemma ApplyBuffers(e: Engine, content: nat -> Message, d: Driver, m: Message)
    requires BufferOk(content, d) && d.nextSeq !in d.pending
    ensures BufferOk(content, Apply(e, d, m).driver)
    ensures var s := Apply(e, d, m); s.driver.nextSeq == if s.ok then d.nextSeq + 1 else d.nextSeq
  {
    var s := Apply(e, d, m);
    assert s.driver.pending == d.pending;
  }

  lemma ApplyKeeps(e: Engine, content: nat -> Message, o: Driver, d: Driver, m: Message)
    requires Sound(e, content, o, d) && m == content(d.nextSeq)
    requires d.nextSeq !in d.pending
    ensures var s := Apply(e, d, m);
            if s.ok then Sound(e, content, o, s.driver) && s.driver.nextSeq == d.nextSeq + 1
            else SoundAfterError(e, content, o, s.driver) && s.driver.nextSeq == d.nextSeq
  {
    ApplyReports(e, d, m);
    ApplyProduces(e, content, o, d, m);
    ApplyBuffers(e, content, d, m);
  }

  lemma SettleKeeps(e: Engine, content: nat -> Message, o: Driver, d: Driver)
    requires Sound(e, content, o, d)
    ensures var s := SettleAndReport(e, d);
            && s.driver.pending == d.pending && s.driver.nextSeq == d.nextSeq
            && if s.ok then Sound(e, content, o, s.driver) && s.driver.inFlight.None? &&
                s.driver.applied == Sequences(s.driver.built)
               else SoundAfterError(e, content, o, s.driver)
  {
    assert d.applied <= Sequences(d.built);
  }

  lemma {:induction false} DrainKeeps(e: Engine, content: nat -> Message, o: Driver, d: Driver)
    requires Sound(e, content, o, d)
    ensures var s := Drain(e, d);
            if s.ok then Sound(e, content, o, s.driver) && s.driver.nextSeq !in s.driver.pending
            else SoundAfterError(e, content, o, s.driver)
    decreases |d.pending|
  {
    if d.nextSeq in d.pending {
      var rest := d.pending - {d.nextSeq};
      assert d.pending.Keys == rest.Keys + {d.nextSeq};
      var d' := d.(pending := rest);
      ApplyKeeps(e, content, o, d', d.pending[d.nextSeq]);
      var s := Apply(e, d', d.pending[d.nextSeq]);
      if s.ok { DrainKeeps(e, content, o, s.driver); }
    }
  }

  lemma TailKeeps(e: Engine, content: nat -> Message, o: Driver, d: Driver, deferTail: bool)
    requires Sound(e, content, o, d) && d.nextSeq !in d.pending
    ensures var s := Tail(e, d, deferTail);
            if s.ok then
              && Sound(e, content, o, s.driver) && s.driver.nextSeq !in s.driver.pending
              && (!deferTail ==> s.driver.inFlight.None? && s.driver.applied == Sequences(s.driver.built))
            else SoundAfterError(e, content, o, s.driver)
  {
    SettleKeeps(e, content, o, d);
    var tail := if deferTail then d else SettleAndReport(e, d).driver;
    assert Retain(tail).pending == tail.pending;
  }

  /** One call from a resting driver: it stays sound, and a call that does not defer leaves nothing in flight. */
  lemma {:induction false} AdvanceKeeps(e: Engine, content: nat -> Message, o: Driver, d: Driver, m: Message,
      deferTail: bool)
    requires Sound(e, content, o, d) && d.nextSeq !in d.pending && Agreed(content, m)
    ensures var s := Advance(e, d, m, deferTail);
            if s.ok then
              && Sound(e, content, o, s.driver) && s.driver.nextSeq !in s.driver.pending
              && (!deferTail || m.sequence != d.nextSeq ==>
                  s.driver.inFlight.None? && s.driver.applied == Sequences(s.driver.built))
            else SoundAfterError(e, content, o, s.driver)
  {
    if m.sequence < d.nextSeq {
      SettleKeeps(e, content, o, d);
    } else if m.sequence > d.nextSeq {
      SettleKeeps(e, content, o, Buffer(d, m));
    } else {
      ApplyKeeps(e, content, o, d, m);
      var first := Apply(e, d, m);
      if first.ok {
        DrainKeeps(e, content, o, first.driver);
        if Drain(e, first.driver).ok {
          TailKeeps(e, content, o, Drain(e, first.driver).driver, deferTail);
        }
      }
    }
  }

  // ---------------------------------------------------------------- the cursor and the tip

  ghost predicate Reconciled(genesis: nat, d: Driver) {
    genesis <= d.tip.number && d.nextSeq == d.tip.number - genesis + 1
  }

  /** Every produced block's number follows from its sequence. */
  ghost predicate Labelled(genesis: nat, d: Driver) {
    forall i :: 0 <= i < |d.built| ==> d.built[i].header.number == genesis + d.built[i].sequence
  }

  lemma ApplyReconciles(e: Engine, genesis: nat, d: Driver, m: Message)
    requires Sequential(e) && Reconciled(genesis, d)
    ensures Reconciled(genesis, Apply(e, d, m).driver)
    ensures Labelled(genesis, d) ==> Labelled(genesis, Apply(e, d, m).driver)
  {
  }

  lemma {:induction false} DrainReconciles(e: Engine, genesis: nat, d: Driver)
    requires Sequential(e) && Reconciled(genesis, d)
    ensures Reconciled(genesis, Drain(e, d).driver)
    ensures Labelled(genesis, d) ==> Labelled(genesis, Drain(e, d).driver)
    decreases |d.pending|
  {
    if d.nextSeq in d.pending {
      var rest := d.pending - {d.nextSeq};
      var s := Apply(e, d.(pending := rest), d.pending[d.nextSeq]);
      DrainUnfolds(e, d, s);
      ApplyReconciles(e, genesis, d.(pending := rest), d.pending[d.nextSeq]);
      if s.ok { DrainReconciles(e, genesis, s.driver); }
    }
  }

  /** At every return, errors included, the cursor is `tip - genesis + 1`, and blocks carry the number
      their sequence calls for. */
  lemma {:induction false} AdvanceReconciles(e: Engine, genesis: nat, d: Driver, m: Message, deferTail: bool)
    requires Sequential(e) && Reconciled(genesis, d)
    ensures Reconciled(genesis, Advance(e, d, m, deferTail).driver)
    ensures Labelled(genesis, d) ==> Labelled(genesis, Advance(e, d, m, deferTail).driver)
  {
    if m.sequence == d.nextSeq {
      ApplyReconciles(e, genesis, d, m);
      if Apply(e, d, m).ok {
        DrainReconciles(e, genesis, Apply(e, d, m).driver);
      }
    }
  }

  // ---------------------------------------------------------------- whole runs

  ghost predicate AllAgreed(content: nat -> Message, calls: seq<Call>) {
    forall i :: 0 <= i < |calls| ==> Agreed(content, calls[i].message)
  }

  /** A driver between calls: sound, nothing due in its buffer, traffic in order, cursor on the tip. */
  ghost predicate Resting(e: Engine, content: nat -> Message, genesis: nat, o: Driver, d: Driver) {
    Sound(e, content, o, d) && d.nextSeq !in d.pending && Traffic(d) && Reconciled(genesis, d)
  }

  /** For any interleaving, duplication and reordering of agreeing copies, with or without a final
      error: blocks are produced once each in consecutive order, the cursor follows the tip, callbacks
      are an ascending prefix lagging by at most one, and one forkchoice at most is in flight. */
  lemma {:induction false} RunKeeps(e: Engine, content: nat -> Message, genesis: nat, o: Driver, d: Driver,
      calls: seq<Call>)
    requires Sequential(e) && Resting(e, content, genesis, o, d) && AllAgreed(content, calls)
    ensures var s := Run(e, d, calls);
            && ProducedFrom(e, content, o, s.driver) && Reconciled(genesis, s.driver) && Traffic(s.driver) &&
                LagsByOne(s.driver)
            && (s.ok ==> Resting(e, content, genesis, o, s.driver))
            && (s.ok && calls != [] && !calls[|calls| - 1].deferTail ==> s.driver.applied == Sequences(s.driver.built))
    decreases |calls|
  {
    if calls != [] {
      var m, deferTail := calls[0].message, calls[0].deferTail;
      AdvanceKeeps(e, content, o, d, m, deferTail);
      AdvanceTraffic(e, d, m, deferTail);
      AdvanceReconciles(e, genesis, d, m, deferTail);
      var s := Advance(e, d, m, deferTail);
      if s.ok {
        RunKeeps(e, content, genesis, o, s.driver, calls[1..]);
        assert |calls| > 1 ==> calls[1..][|calls| - 2] == calls[|calls| - 1];
      }
    }
  }

  lemma {:induction false} ChainPrefix(e: Engine, content: nat -> Message, tip: Header, sequence: nat, n: nat, k: nat)
    requires n <= k && Chain(e, content, tip, sequence, k).Some?
    ensures Chain(e, content, tip, sequence, n).Some?
    ensures ChainBlocks(e, content, tip, sequence, n) <= ChainBlocks(e, content, tip, sequence, k)
    decreases k
  {
    if n < k {
      ChainPrefix(e, content, tip, sequence, n, k - 1);
    }
  }

  lemma ProducedPrefix(e: Engine, content: nat -> Message, o: Driver, a: Driver, b: Driver)
    requires ProducedFrom(e, content, o, a) && ProducedFrom(e, content, o, b) && a.nextSeq <= b.nextSeq
    ensures a.built <= b.built
    ensures a.nextSeq == b.nextSeq ==> a.tip == b.tip && a.built == b.built
  {
    ChainPrefix(e, content, o.tip, o.nextSeq, a.nextSeq - o.nextSeq, b.nextSeq - o.nextSeq);
  }

  /**
    Two runs of agreeing copies from one driver, in any order and with any duplicates, failing or not:
    the one with the lower cursor has built a prefix of the other's blocks, and equal cursors mean equal chains.
  */
  lemma {:induction false} RunsBuildOneChain(e: Engine, content: nat -> Message, genesis: nat, o: Driver, d: Driver,
      one: seq<Call>, other: seq<Call>)
    requires Sequential(e) && Resting(e, content, genesis, o, d) && AllAgreed(content, one) && AllAgreed(content, other)
    ensures var a, b := Run(e, d, one).driver, Run(e, d, other).driver;
            && (a.nextSeq <= b.nextSeq ==> a.built <= b.built)
            && (a.nextSeq == b.nextSeq ==> a.tip == b.tip && a.built == b.built)
  {
    RunKeeps(e, content, genesis, o, d, one);
    RunKeeps(e, content, genesis, o, d, other);
    var a, b := Run(e, d, one).driver, Run(e, d, other).driver;
    if a.nextSeq <= b.nextSeq {
      ProducedPrefix(e, content, o, a, b);
    }
  }

  /** The produced blocks carry consecutive sequence numbers and consecutive block numbers. */
  lemma {:induction false} ChainBlocksConsecutive(e: Engine, content: nat -> Message, tip: Header, sequence: nat,
      n: nat)
    requires Sequential(e) && Chain(e, content, tip, sequence, n).Some?
    ensures Chain(e, content, tip, sequence, n).value.number == tip.number + n
    ensures var blocks := ChainBlocks(e, content, tip, sequence, n);
            && |blocks| == n
            && forall i :: 0 <= i < n ==>
                blocks[i].sequence == sequence + i && blocks[i].header.number == tip.number + 1 + i
  {
    if n > 0 {
      ChainBlocksConsecutive(e, content, tip, sequence, n - 1);
    }
  }
}
