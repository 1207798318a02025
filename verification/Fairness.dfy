/** Bounded fairness between feed and L1 over every run of the serving drive loop, errors included. */
module Fairness {
  import opened Prelude
  import opened EngineDriver
  import opened EngineDriverRuns
  import opened Ingress
  import opened DriveLoop

  // ---------------------------------------------------------------- the cursor

  lemma {:induction false} DrainMovesForward(e: Engine, d: Driver)
    ensures d.nextSeq <= Drain(e, d).driver.nextSeq
    decreases |d.pending|
  {
    if d.nextSeq in d.pending {
      var s := Apply(e, d.(pending := d.pending - {d.nextSeq}), d.pending[d.nextSeq]);
      DrainUnfolds(e, d, s);
      if s.ok {
        DrainMovesForward(e, s.driver);
      }
    }
  }

  /** No call moves the cursor back, and the message it waits for moves it. */
  lemma {:induction false} AwaitedMessageMovesCursor(e: Engine, d: Driver, m: Message, deferTail: bool)
    ensures var s := Advance(e, d, m, deferTail);
            d.nextSeq <= s.driver.nextSeq && (s.ok && m.sequence == d.nextSeq ==> d.nextSeq < s.driver.nextSeq)
  {
    if m.sequence == d.nextSeq && Apply(e, d, m).ok {
      DrainMovesForward(e, Apply(e, d, m).driver);
    }
  }

  // ---------------------------------------------------------------- one selection

  /** Filling heads keeps a head that is already there. */
  lemma FilledKeepsHeads(v: Scheduler)
    ensures v.feedPending.Some? ==> Filled(v).feedPending == v.feedPending
    ensures v.l1Pending.Some? ==> Filled(v).l1Pending == v.l1Pending
    ensures Filled(v).owed == v.owed
  {
  }

  /** An L1 batch past a waiting feed head: the head stays, the feed is owed next, and if it was owed
      before the batch was a gap closer. */
  lemma PickedL1(f: Scheduler, next: nat)
    requires f.feedPending.Some? && f.l1Pending.Some? && Choose(f.feedPending, f.l1Pending, f.owed, next).L1?
    ensures var poll, w := Pick(f, next).0, Pick(f, next).1;
            && poll.Ready? && poll.batch.Some? && poll.batch.value.source.L1?
            && w.feedPending == f.feedPending
            && Complete(w, L1, poll.batch.value.kind).owed.Feed?
            && (poll.batch.value.kind.GapCloser? ==>
                  f.l1Pending.value.sequence == next < f.feedPending.value.sequence &&
                      poll.batch.value.messages == [f.l1Pending.value])
            && (f.owed.Feed? ==> poll.batch.value.kind.GapCloser?)
  {
  }

  lemma PickedFeed(f: Scheduler, next: nat)
    requires f.l1Pending.Some? && f.feedPending.Some? && Choose(f.feedPending, f.l1Pending, f.owed, next).Feed?
    ensures var poll, w := Pick(f, next).0, Pick(f, next).1;
            && poll.Ready? && poll.batch.Some? && poll.batch.value.source.Feed? &&
                |poll.batch.value.messages| <= MAX_MESSAGE_BATCH
            && f.owed.Feed? && w.l1Pending == f.l1Pending && Complete(w, Feed, poll.batch.value.kind).owed.L1?
  {
  }

  /** The batch this step of the loop selects, if it selects one. */
  function Selects(l: Loop, step: LoopStep, genesis: nat): Option<Batch> {
    if step.Top? && l.stopped.None? && l.selected.None? then AtTop(l, genesis, None).selected else None
  }

  function Serve(e: Engine, l: Loop, step: LoopStep, genesis: nat): Loop {
    LoopNext(e, l, step, Serving, genesis, None)
  }

  // ---------------------------------------------------------------- a waiting feed head

  /** L1 batches selected before the next feed batch is. */
  function L1BatchesFirst(e: Engine, l: Loop, steps: seq<LoopStep>, genesis: nat): nat
    decreases |steps|
  {
    if steps == [] then 0
    else
      var b := Selects(l, steps[0], genesis);
      if b.Some? && b.value.source.Feed? then 0
      else (if b.Some? then 1 else 0) + L1BatchesFirst(e, Serve(e, l, steps[0], genesis), steps[1..], genesis)
  }

  /** The gap closer still to be handed over is the message the driver waits for. */
  ghost predicate Closing(l: Loop, feed: Message) {
    |l.hand| == 1 && l.hand[0].sequence == l.d.nextSeq < feed.sequence
  }

  /** A loop with `feed` waiting, possibly in the middle of an L1 batch. */
  ghost predicate FeedWaits(l: Loop, feed: Message, genesis: nat) {
    l.stopped.Some? ||
    (&& l.v.feedPending == Some(feed) && Reconciled(genesis, l.d)
     && (l.selected.None? ==> l.hand == [])
     && (l.selected.Some? ==>
           && l.selected.value.source.L1? && Complete(l.v, L1, l.selected.value.kind).owed.Feed?
           && (l.selected.value.kind.GapCloser? && l.hand != [] ==> Closing(l, feed))))
  }

  /** How many more L1 batches can come first. */
  function FeedRank(l: Loop, feed: Message): nat {
    if l.stopped.Some? then 0
    else
      var gap := Max(0, feed.sequence - l.d.nextSeq);
      if l.selected.None? then gap + (if l.v.owed.Feed? then 0 else 1)
      else if l.selected.value.kind.GapCloser? && l.hand != [] then Max(0, gap - 1)
      else gap
  }

  /** What the top of the loop does with a batch that is ready. */
  lemma TopSelects(l: Loop, genesis: nat)
    requires l.v.feedPending.Some? && l.selected.None? && l.stopped.None? && Reconciled(genesis, l.d)
    ensures var l', picked := AtTop(l, genesis, None), Pick(Filled(l.v), l.d.nextSeq);
            l'.stopped.None? ==>
              && picked.0.Ready? && picked.0.batch.Some?
              && l' == l.(v := picked.1, hand := picked.0.batch.value.messages, selected := picked.0.batch)
    ensures AtTop(l, genesis, None).stopped.Some? || AtTop(l, genesis, None).selected.Some?
  {
    FilledKeepsHeads(l.v);
  }

  lemma SelectedPastFeed(l: Loop, l': Loop, w: Scheduler, b: Batch, feed: Message, genesis: nat)
    requires FeedWaits(l, feed, genesis) && l.stopped.None? && l.selected.None? && b.source.L1?
    requires l' == l.(v := w, hand := b.messages, selected := Some(b)) && w.feedPending == Some(feed)
    requires Complete(w, L1, b.kind).owed.Feed? && (l.v.owed.Feed? ==> b.kind.GapCloser?)
    requires b.kind.GapCloser? ==> Closing(l', feed)
    ensures FeedWaits(l', feed, genesis) && FeedRank(l', feed) + 1 <= FeedRank(l, feed)
  {
  }

  lemma TopPastFeed(l: Loop, feed: Message, genesis: nat)
    requires FeedWaits(l, feed, genesis) && l.stopped.None? && l.selected.None?
    ensures var l' := AtTop(l, genesis, None);
            l'.stopped.None? && l'.selected.Some? && l'.selected.value.source.L1? ==>
              FeedWaits(l', feed, genesis) && FeedRank(l', feed) + 1 <= FeedRank(l, feed)
    ensures var l' := AtTop(l, genesis, None); l'.stopped.Some? || l'.selected.Some?
  {
    var f, l', picked := Filled(l.v), AtTop(l, genesis, None), Pick(Filled(l.v), l.d.nextSeq);
    FilledKeepsHeads(l.v);
    TopSelects(l, genesis);
    if l'.stopped.None? && l'.selected.value.source.L1? {
      PickedL1(f, l.d.nextSeq);
      SelectedPastFeed(l, l', picked.1, picked.0.batch.value, feed, genesis);
    }
  }

  lemma HandOverPastFeed(e: Engine, l: Loop, feed: Message, genesis: nat)
    requires Sequential(e) && FeedWaits(l, feed, genesis) && l.stopped.None? && l.hand != []
    ensures var l' := AtHandOver(e, l, Serving, genesis, None);
            FeedWaits(l', feed, genesis) && FeedRank(l', feed) <= FeedRank(l, feed)
  {
    var m, defer := l.hand[0], l.hand[1..] != [];
    AwaitedMessageMovesCursor(e, l.d, m, defer);
    AdvanceReconciles(e, genesis, l.d, m, defer);
  }

  lemma OtherPastFeed(e: Engine, l: Loop, step: LoopStep, feed: Message, genesis: nat)
    requires FeedWaits(l, feed, genesis) && !step.Top? && !step.HandOver?
    ensures var l' := Serve(e, l, step, genesis);
            FeedWaits(l', feed, genesis) && FeedRank(l', feed) <= FeedRank(l, feed)
  {
  }

  lemma {:induction false} RankBoundsL1Batches(e: Engine, l: Loop, steps: seq<LoopStep>, feed: Message, genesis: nat)
    requires Sequential(e) && FeedWaits(l, feed, genesis)
    ensures L1BatchesFirst(e, l, steps, genesis) <= FeedRank(l, feed)
    decreases |steps|
  {
    if steps != [] {
      var step, l' := steps[0], Serve(e, l, steps[0], genesis);
      var b := Selects(l, step, genesis);
      if step.Top? && l.stopped.None? && l.selected.None? {
        TopPastFeed(l, feed, genesis);
      } else if step.HandOver? && l.stopped.None? && l.hand != [] {
        HandOverPastFeed(e, l, feed, genesis);
      } else if !step.Top? && !step.HandOver? {
        OtherPastFeed(e, l, step, feed, genesis);
      }
      if !(b.Some? && b.value.source.Feed?) {
        RankBoundsL1Batches(e, l', steps[1..], feed, genesis);
      }
    }
  }

  /** In every run of the loop, a feed head waiting at sequence f with the driver's cursor at n is
      bypassed by at most max(0, f - n) + 1 L1 batches; by at most max(0, f - n) when the feed is owed. */
  lemma {:induction false} FeedHeadBypassBound(e: Engine, l: Loop, steps: seq<LoopStep>, feed: Message, genesis: nat)
    requires Sequential(e) && Reconciled(genesis, l.d)
    requires l.v.feedPending == Some(feed) && l.selected.None? && l.hand == []
    ensures L1BatchesFirst(e, l, steps, genesis) <=
            Max(0, feed.sequence - l.d.nextSeq) + if l.v.owed.Feed? then 0 else 1
  {
    RankBoundsL1Batches(e, l, steps, feed, genesis);
  }

  // ---------------------------------------------------------------- a waiting L1 head

  /** Feed batches selected before the next L1 batch is. */
  function FeedBatchesFirst(e: Engine, l: Loop, steps: seq<LoopStep>, genesis: nat): seq<Batch>
    decreases |steps|
  {
    if steps == [] then []
    else
      var b := Selects(l, steps[0], genesis);
      if b.Some? && b.value.source.L1? then []
      else
        (if b.Some? then [b.value] else []) +
        FeedBatchesFirst(e, Serve(e, l, steps[0], genesis), steps[1..], genesis)
  }

  /** A loop with `l1` waiting, possibly in the middle of a feed batch. */
  ghost predicate L1Waits(l: Loop, l1: Message) {
    l.stopped.Some? ||
    (&& l.v.l1Pending == Some(l1)
     && (l.selected.Some? ==> l.selected.value.source.Feed? && Complete(l.v, Feed, l.selected.value.kind).owed.L1?))
  }

  function L1Rank(l: Loop): nat {
    if l.stopped.None? && l.selected.None? && l.v.owed.Feed? then 1 else 0
  }

  lemma TopPastL1(l: Loop, l1: Message, genesis: nat)
    requires L1Waits(l, l1) && l.stopped.None? && l.selected.None?
    ensures var l' := AtTop(l, genesis, None);
            && (l'.stopped.None? && l'.selected.Some? && l'.selected.value.source.Feed? ==>
                  L1Waits(l', l1) && L1Rank(l) == 1 && L1Rank(l') == 0 &&
                      |l'.selected.value.messages| <= MAX_MESSAGE_BATCH)
            && (l'.stopped.Some? || l'.selected.Some?)
            && (l'.stopped.Some? ==> l'.selected.None?)
  {
    var next := NextDriverSequence(l.d.tip.number, genesis);
    if next.Ok? {
      var f := Filled(l.v);
      FilledKeepsHeads(l.v);
      if Choose(f.feedPending, f.l1Pending, f.owed, next.value).Feed? {
        PickedFeed(f, next.value);
      }
    }
  }

  lemma OtherPastL1(e: Engine, l: Loop, step: LoopStep, l1: Message, genesis: nat)
    requires L1Waits(l, l1) && !(step.Top? && l.stopped.None? && l.selected.None?)
    ensures var l' := Serve(e, l, step, genesis); L1Waits(l', l1) && (l'.stopped.None? ==> L1Rank(l') <= L1Rank(l))
  {
  }

  /** In every run of the loop, a waiting L1 head is bypassed by at most one feed batch, of at most 64
      messages, and by none when L1 is owed. */
  lemma {:induction false} L1HeadBypassBound(e: Engine, l: Loop, steps: seq<LoopStep>, l1: Message, genesis: nat)
    requires L1Waits(l, l1)
    ensures var first := FeedBatchesFirst(e, l, steps, genesis);
            && |first| <= L1Rank(l)
            && forall i :: 0 <= i < |first| ==> |first[i].messages| <= MAX_MESSAGE_BATCH
    decreases |steps|
  {
    if steps != [] {
      var step, l' := steps[0], Serve(e, l, steps[0], genesis);
      var b := Selects(l, step, genesis);
      if step.Top? && l.stopped.None? && l.selected.None? {
        TopPastL1(l, l1, genesis);
      } else {
        OtherPastL1(e, l, step, l1, genesis);
      }
      if !(b.Some? && b.value.source.L1?) {
        L1HeadBypassBound(e, l', steps[1..], l1, genesis);
      }
    }
  }
}
