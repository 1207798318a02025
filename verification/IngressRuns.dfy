/** Conservation, cancellation, closing and fairness of the ingress scheduler over whole runs. */
module IngressRuns {
  import opened Prelude
  import opened EngineDriver
  import opened Ingress

  // ---------------------------------------------------------------- one poll

  lemma FillFeedKeeps(v: Scheduler)
    requires Coherent(v)
    ensures var f := FillFeed(v);
            && Coherent(f) && FeedStream(f) == FeedStream(v)
            && f == v.(feed := f.feed, feedPending := f.feedPending, feedOpen := f.feedOpen) &&
                f.feed.closed == v.feed.closed
            && (f.feedPending.None? ==> f.feed.queue == [] && f.feedOpen == !f.feed.closed)
  {
    if v.feedOpen && v.feedPending.None? && v.feed.queue != [] {
      assert [v.feed.queue[0]] + v.feed.queue[1..] == v.feed.queue;
    }
  }

  lemma FillL1Stream(v: Scheduler)
    ensures L1Stream(FillL1(v)) == L1Stream(v)
  {
    if v.l1Open && v.l1Pending.None? {
      if v.l1Buffered != [] {
        assert [v.l1Buffered[0]] + v.l1Buffered[1..] == v.l1Buffered;
        assert [] + v.l1Buffered == v.l1Buffered;
      } else if v.l1.queue != [] {
        assert [v.l1.queue[0]] + [] + v.l1.queue[1..] == v.l1.queue;
        assert [] + [] + v.l1.queue == v.l1.queue;
      }
    }
  }

  lemma FillL1Keeps(v: Scheduler)
    requires Coherent(v)
    ensures var f := FillL1(v);
            && Coherent(f)
            && f == v.(l1 := f.l1, l1Pending := f.l1Pending, l1Buffered := f.l1Buffered, l1Open := f.l1Open) &&
                f.l1.closed == v.l1.closed
            && (f.l1Pending.None? ==> f.l1.queue == [] && f.l1Buffered == [] && f.l1Open == !f.l1.closed)
            && Suffix(f.l1Buffered, v.l1Buffered)
  {
    SuffixOfItself(v.l1Buffered);
    if v.l1Buffered != [] {
      SuffixOfDrop(v.l1Buffered, 1);
    }
  }

  predicate Suffix(s: seq<Message>, t: seq<Message>) {
    |s| <= |t| && s == t[|t| - |s|..]
  }

  lemma SuffixTransitive(s: seq<Message>, t: seq<Message>, u: seq<Message>)
    requires Suffix(s, t) && Suffix(t, u)
    ensures Suffix(s, u)
  {
  }

  /** The feed's part of the scheduler is the same. */
  predicate SameFeed(v: Scheduler, w: Scheduler) {
    w.feedPending == v.feedPending && w.feed == v.feed && w.feedOpen == v.feedOpen
  }

  predicate SameL1(v: Scheduler, w: Scheduler) {
    w.l1Pending == v.l1Pending && w.l1Buffered == v.l1Buffered && w.l1 == v.l1 && w.l1Open == v.l1Open
  }

  /** What a batch leaves of the scheduler. */
  predicate Leaves(f: Scheduler, w: Scheduler) {
    && Coherent(w) && w.owed == f.owed && w.l1.closed == f.l1.closed && w.feed.closed == f.feed.closed
    && Suffix(w.l1Buffered, f.l1Buffered)
  }

  /** The shape of an L1 batch and of what it leaves, without the stream. */
  predicate TookL1(f: Scheduler, b: Batch, w: Scheduler) {
    && SameFeed(f, w) && Leaves(f, w)
    && 1 <= |b.messages| <= MAX_MESSAGE_BATCH && b.source.L1? && (b.kind.GapCloser? ==> |b.messages| == 1)
  }

  lemma SuffixOfItself(s: seq<Message>)
    ensures Suffix(s, s)
  {
    assert s[0..] == s;
  }

  lemma SplitAfterHead(m: Message, queue: seq<Message>, n: nat)
    requires n <= |queue|
    ensures [m] + queue == [m] + queue[..n] + ([] + queue[n..])
  {
    assert queue == queue[..n] + queue[n..] && [] + queue[n..] == queue[n..];
  }

  lemma TakenFeed(v: Scheduler)
    requires Coherent(v) && v.feedPending.Some?
    ensures var b, w := TakeFeed(v).0, TakeFeed(v).1;
            && Coherent(w) && FeedStream(v) == b.messages + FeedStream(w)
            && w == v.(feedPending := w.feedPending, feed := w.feed, feedOpen := w.feedOpen) &&
                w.feed.closed == v.feed.closed
            && 1 <= |b.messages| <= MAX_MESSAGE_BATCH && b.source.Feed? && b.kind.Ordinary?
  {
    SplitAfterHead(v.feedPending.value, v.feed.queue, More(|v.feed.queue|));
  }

  lemma DropFromBoth(a: seq<Message>, b: seq<Message>, n: nat)
    requires n <= |a| + |b|
    ensures a[Min(n, |a|)..] + b[n - Min(n, |a|)..] == (a + b)[n..]
  {
    if n <= |a| {
      assert b[0..] == b;
      assert (a + b)[n..] == a[n..] + b;
    } else {
      assert a[|a|..] == [] && [] + b[n - |a|..] == b[n - |a|..];
      assert (a + b)[n..] == b[n - |a|..];
    }
  }

  /** Taking a head and `n` messages from two queues in a row takes a prefix of the concatenation. */
  lemma TakePrefix(head: seq<Message>, a: seq<Message>, b: seq<Message>, n: nat)
    requires n <= |a| + |b|
    ensures head + a + b == head + (a + b)[..n] + ([] + a[Min(n, |a|)..] + b[n - Min(n, |a|)..])
  {
    DropFromBoth(a, b, n);
    var all := a + b;
    assert head + a + b == head + all;
    assert all == all[..n] + all[n..];
    assert head + (all[..n] + all[n..]) == head + all[..n] + all[n..];
    assert [] + a[Min(n, |a|)..] == a[Min(n, |a|)..];
  }

  lemma TakenL1Stream(v: Scheduler, kind: BatchKind)
    requires v.l1Pending.Some?
    ensures L1Stream(v) == TakeL1(v, kind).0.messages + L1Stream(TakeL1(v, kind).1)
  {
    var head := [v.l1Pending.value];
    if kind.Ordinary? {
      TakePrefix(head, v.l1Buffered, v.l1.queue, More(|v.l1Buffered + v.l1.queue|));
    } else {
      assert head + v.l1Buffered + v.l1.queue == head + ([] + v.l1Buffered + v.l1.queue);
    }
  }

  lemma SuffixOfDrop(s: seq<Message>, b: nat)
    requires b <= |s|
    ensures Suffix(s[b..], s)
  {
  }

  lemma TakenL1(v: Scheduler, kind: BatchKind)
    requires Coherent(v) && v.l1Pending.Some?
    ensures TookL1(v, TakeL1(v, kind).0, TakeL1(v, kind).1)
  {
    if kind.Ordinary? {
      var all := v.l1Buffered + v.l1.queue;
      SuffixOfDrop(v.l1Buffered, Min(More(|all|), |v.l1Buffered|));
      if v.l1Buffered != [] {
        assert all == v.l1Buffered;
      }
    } else {
      SuffixOfItself(v.l1Buffered);
    }
  }

  lemma FilledKeeps(v: Scheduler)
    requires Coherent(v)
    ensures var f := Filled(v);
            && Coherent(f) && f.owed == v.owed
            && f.feed.closed == v.feed.closed && f.l1.closed == v.l1.closed && Suffix(f.l1Buffered, v.l1Buffered)
            && (f.feedPending.None? ==> f.feed.queue == [] && f.feedOpen == !f.feed.closed)
            && (f.l1Pending.None? ==> f.l1.queue == [] && f.l1Buffered == [] && f.l1Open == !f.l1.closed)
  {
    FillFeedKeeps(v);
    FillL1Keeps(FillFeed(v));
  }

  lemma FilledStreams(v: Scheduler)
    requires Coherent(v)
    ensures FeedStream(Filled(v)) == FeedStream(v) && L1Stream(Filled(v)) == L1Stream(v)
  {
    FillFeedKeeps(v);
    FillL1Keeps(FillFeed(v));
    FillL1Stream(FillFeed(v));
  }

  ghost predicate Handed(v: Scheduler, b: Batch, w: Scheduler) {
    && 1 <= |b.messages| <= MAX_MESSAGE_BATCH
    && (b.kind.GapCloser? ==> b.source.L1? && |b.messages| == 1)
    && (if b.source.Feed? then FeedStream(v) == b.messages + FeedStream(w) && L1Stream(v) == L1Stream(w)
        else L1Stream(v) == b.messages + L1Stream(w) && FeedStream(v) == FeedStream(w))
  }

  lemma SameFeedStream(v: Scheduler, w: Scheduler)
    requires SameFeed(v, w)
    ensures FeedStream(v) == FeedStream(w)
  {
  }

  lemma SameL1Stream(v: Scheduler, w: Scheduler)
    requires SameL1(v, w)
    ensures L1Stream(v) == L1Stream(w)
  {
  }

  lemma LeavesFeedTaken(f: Scheduler, w: Scheduler)
    requires Coherent(w) && SameL1(f, w) && w.owed == f.owed && w.feed.closed == f.feed.closed
    ensures Leaves(f, w)
  {
    SuffixOfItself(f.l1Buffered);
  }

  lemma HandedFromFeed(f: Scheduler, b: Batch, w: Scheduler)
    requires FeedStream(f) == b.messages + FeedStream(w) && SameL1(f, w)
    requires 1 <= |b.messages| <= MAX_MESSAGE_BATCH && b.source.Feed? && b.kind.Ordinary?
    ensures Handed(f, b, w)
  {
    SameL1Stream(f, w);
  }

  lemma FeedTakes(f: Scheduler, b: Batch, w: Scheduler)
    requires Coherent(f) && f.feedPending.Some? && TakeFeed(f) == (b, w)
    ensures Handed(f, b, w) && Leaves(f, w)
  {
    TakenFeed(f);
    assert SameL1(f, w);
    HandedFromFeed(f, b, w);
    LeavesFeedTaken(f, w);
  }

  predicate TookFront(f: Scheduler, b: Batch, w: Scheduler) {
    L1Stream(f) == b.messages + L1Stream(w)
  }

  lemma L1TookFront(f: Scheduler, kind: BatchKind)
    requires f.l1Pending.Some?
    ensures TookFront(f, TakeL1(f, kind).0, TakeL1(f, kind).1)
  {
    TakenL1Stream(f, kind);
  }

  lemma TookIsHanded(f: Scheduler, b: Batch, w: Scheduler)
    requires TookL1(f, b, w) && TookFront(f, b, w)
    ensures Handed(f, b, w)
  {
    SameFeedStream(f, w);
  }

  lemma L1Takes(f: Scheduler, kind: BatchKind)
    requires Coherent(f) && f.l1Pending.Some?
    ensures Handed(f, TakeL1(f, kind).0, TakeL1(f, kind).1) && Leaves(f, TakeL1(f, kind).1)
  {
    TakenL1(f, kind);
    L1TookFront(f, kind);
    TookIsHanded(f, TakeL1(f, kind).0, TakeL1(f, kind).1);
  }

  lemma PickHandsOut(f: Scheduler, next: nat)
    requires Coherent(f) && Pick(f, next).0.Ready? && Pick(f, next).0.batch.Some?
    ensures Handed(f, Pick(f, next).0.batch.value, Pick(f, next).1) && Leaves(f, Pick(f, next).1)
  {
    var b, w := Pick(f, next).0.batch.value, Pick(f, next).1;
    var kind := if ClosesGap(f.feedPending, f.l1Pending, next) then GapCloser else Ordinary;
    if Choose(f.feedPending, f.l1Pending, f.owed, next).Feed? {
      FeedTakes(f, b, w);
    } else {
      L1Takes(f, kind);
    }
  }

  lemma PickKeeps(f: Scheduler, next: nat)
    requires Coherent(f)
    ensures Leaves(f, Pick(f, next).1)
  {
    if f.feedPending.Some? || f.l1Pending.Some? {
      PickHandsOut(f, next);
    }
  }

  lemma PickWithoutBatch(f: Scheduler, next: nat)
    requires Coherent(f)
    requires f.feedPending.None? ==> f.feed.queue == [] && f.feedOpen == !f.feed.closed
    requires f.l1Pending.None? ==> f.l1.queue == [] && f.l1Buffered == [] && f.l1Open == !f.l1.closed
    ensures var poll, w := Pick(f, next).0, Pick(f, next).1;
            && (poll == Ready(None) <==> FeedStream(f) == [] && L1Stream(f) == [] && f.feed.closed && f.l1.closed)
            && (poll.Pending? <==> FeedStream(f) == [] && L1Stream(f) == [] && !(f.feed.closed && f.l1.closed))
            && (poll.Pending? || poll == Ready(None) ==> w == f)
  {
    if f.feedPending.Some? {
      assert FeedStream(f)[0] == f.feedPending.value;
    }
    if f.l1Pending.Some? {
      assert L1Stream(f)[0] == f.l1Pending.value;
    }
  }

  /** A ready batch is the front of the chosen source's stream; the other stream is left alone. */
  lemma {:induction false} PollHandsOut(v: Scheduler, next: nat)
    requires Coherent(v) && NextBatch(v, next).0.Ready? && NextBatch(v, next).0.batch.Some?
    ensures Handed(v, NextBatch(v, next).0.batch.value, NextBatch(v, next).1)
  {
    FilledKeeps(v);
    FilledStreams(v);
    PickHandsOut(Filled(v), next);
  }

  lemma {:induction false} PollKeeps(v: Scheduler, next: nat)
    requires Coherent(v)
    ensures var w := NextBatch(v, next).1;
            && Coherent(w) && w.owed == v.owed && w.l1.closed == v.l1.closed && w.feed.closed == v.feed.closed
            && Suffix(w.l1Buffered, v.l1Buffered)
  {
    FilledKeeps(v);
    PickKeeps(Filled(v), next);
    SuffixTransitive(NextBatch(v, next).1.l1Buffered, Filled(v).l1Buffered, v.l1Buffered);
  }

  /** A poll says that nothing is left exactly when both streams are empty and closed, and it is pending
      exactly when both are empty and one may still grow. */
  lemma {:induction false} PollWithoutBatch(v: Scheduler, next: nat)
    requires Coherent(v)
    ensures var poll, w := NextBatch(v, next).0, NextBatch(v, next).1;
            && (poll == Ready(None) <==> FeedStream(v) == [] && L1Stream(v) == [] && v.feed.closed && v.l1.closed)
            && (poll.Pending? <==> FeedStream(v) == [] && L1Stream(v) == [] && !(v.feed.closed && v.l1.closed))
            && (poll.Pending? || poll == Ready(None) ==> FeedStream(w) == [] && L1Stream(w) == [])
  {
    FilledKeeps(v);
    FilledStreams(v);
    PickWithoutBatch(Filled(v), next);
  }

  /** Dropping a pending poll is harmless: polling afresh gives the same batch and the same state as
      resuming the await that was dropped. */
  lemma {:induction false} CancelledPollRestarts(v: Scheduler, next: nat)
    requires Coherent(v) && v.feedPending.None? && v.l1Pending.None? && v.l1Buffered == []
    requires (v.feedOpen && Answers(v.feed)) || (v.l1Open && Answers(v.l1))
    ensures Coherent(Wait(v)) && NextBatch(Wait(v), next) == NextBatch(v, next)
  {
    assert Filled(Wait(v)) == Filled(v);
  }

  // ---------------------------------------------------------------- closing the L1 input

  lemma {:induction false} UpToConcat(a: seq<Message>, b: seq<Message>, bound: nat)
    ensures UpTo(a + b, bound) == UpTo(a, bound) + UpTo(b, bound)
  {
    if a == [] {
      assert a + b == b;
    } else {
      assert (a + b)[0] == a[0] && (a + b)[1..] == a[1..] + b;
      UpToConcat(a[1..], b, bound);
      var h := if a[0].sequence <= bound then [a[0]] else [];
      assert h + (UpTo(a[1..], bound) + UpTo(b, bound)) == h + UpTo(a[1..], bound) + UpTo(b, bound);
    }
  }

  predicate AllUpTo(messages: seq<Message>, bound: nat) {
    forall i :: 0 <= i < |messages| ==> messages[i].sequence <= bound
  }

  lemma {:induction false} UpToIsUpTo(messages: seq<Message>, bound: nat)
    ensures AllUpTo(UpTo(messages, bound), bound)
    ensures AllUpTo(messages, bound) ==> UpTo(messages, bound) == messages
  {
    if messages != [] {
      UpToIsUpTo(messages[1..], bound);
      assert messages == [messages[0]] + messages[1..];
    }
  }

  /** What is left after closing is exactly what was queued at or below the bound, in order. */
  lemma {:induction false} CloseKeepsUpTo(v: Scheduler, bound: nat)
    requires Coherent(v) && AllUpTo(v.l1Buffered, bound)
    ensures var w := CloseL1(v, bound);
            && Coherent(w) && L1Stream(w) == UpTo(L1Stream(v), bound) && FeedStream(w) == FeedStream(v)
            && AllUpTo(w.l1Buffered, bound) && AllUpTo(L1Stream(w), bound)
  {
    CloseStream(v, bound);
    UpToIsUpTo(v.l1Buffered, bound);
    UpToIsUpTo(v.l1.queue, bound);
    UpToIsUpTo(L1Stream(v), bound);
  }

  lemma Regroup(a: seq<Message>, b: seq<Message>, c: seq<Message>)
    ensures a + (b + c) + [] == a + b + c
  {
  }

  lemma CloseStream(v: Scheduler, bound: nat)
    requires AllUpTo(v.l1Buffered, bound)
    ensures L1Stream(CloseL1(v, bound)) == UpTo(L1Stream(v), bound)
  {
    var head := Head(v.l1Pending);
    HeadUpTo(v.l1Pending, bound);
    UpToIsUpTo(v.l1Buffered, bound);
    UpToConcat(head, v.l1Buffered, bound);
    UpToConcat(head + v.l1Buffered, v.l1.queue, bound);
    Regroup(UpTo(head, bound), v.l1Buffered, UpTo(v.l1.queue, bound));
  }

  lemma HeadUpTo(m: Option<Message>, bound: nat)
    ensures UpTo(Head(m), bound) == Head(if m.Some? && m.value.sequence > bound then None else m)
  {
    if m.Some? {
      assert [m.value][1..] == [];
    }
  }

  // ---------------------------------------------------------------- runs

  /**
    The scheduler with everything accepted from and handed out for each source so far, and how much L1
    output there was when the L1 input was first closed.
  */
  datatype World = World(
    v: Scheduler, sentFeed: seq<Message>, sentL1: seq<Message>, outFeed: seq<Message>, outL1: seq<Message>,
        cut: Option<nat>)

  datatype Action =
    | SendFeed(m: Message)
    | SendL1(m: Message)
    | DropFeedSenders
    | DropL1Senders
    | PollBatch(next: nat)            // ready, pending, or pending and then cancelled
    | ResumeAwait
    | CompleteBatch(source: Source, kind: BatchKind)
    | CloseInput

  function Deliver(w: World, poll: Poll, v: Scheduler): World {
    if poll.Ready? && poll.batch.Some? then
      var b := poll.batch.value;
      if b.source.Feed? then w.(v := v, outFeed := w.outFeed + b.messages)
      else w.(v := v, outL1 := w.outL1 + b.messages)
    else w.(v := v)
  }

  /** One step of scheduler or environment; `bound` is the finite run's last sequence. */
  function Act(w: World, a: Action, bound: nat): World {
    var v := w.v;
    match a
    case SendFeed(m) =>
      if v.feed.closed then w
      else w.(v := v.(feed := v.feed.(queue := v.feed.queue + [m])), sentFeed := w.sentFeed + [m])
    case SendL1(m) =>
      if v.l1.closed then w
      else w.(v := v.(l1 := v.l1.(queue := v.l1.queue + [m])), sentL1 := w.sentL1 + [m])
    case DropFeedSenders => w.(v := v.(feed := v.feed.(closed := true)))
    case DropL1Senders => w.(v := v.(l1 := v.l1.(closed := true)))
    case PollBatch(next) =>
      Deliver(w, NextBatch(v, next).0, NextBatch(v, next).1)
    case ResumeAwait =>
      if v.feedPending.None? && v.l1Pending.None? && v.l1Buffered == [] &&
          ((v.feedOpen && Answers(v.feed)) || (v.l1Open && Answers(v.l1)))
      then w.(v := Wait(v)) else w
    case CompleteBatch(source, kind) => w.(v := Complete(v, source, kind))
    case CloseInput => w.(v := CloseL1(v, bound), cut := if w.cut.None? then Some(|w.outL1|) else w.cut)
  }

  function ActAll(w: World, actions: seq<Action>, bound: nat): World
    decreases |actions|
  {
    if actions == [] then w else ActAll(Act(w, actions[0], bound), actions[1..], bound)
  }

  /** What L1 is to give in all: everything accepted, or once cut the rest of it up to the bound. */
  function Expected(w: World, bound: nat): seq<Message>
    requires w.cut.Some? ==> w.cut.value <= |w.sentL1|
  {
    if w.cut.None? then w.sentL1 else w.sentL1[..w.cut.value] + UpTo(w.sentL1[w.cut.value..], bound)
  }

  /** Nothing lost, duplicated or reordered within a source, except what a close discards. */
  ghost predicate Balanced(w: World, bound: nat) {
    && Coherent(w.v) && AllUpTo(w.v.l1Buffered, bound)
    && w.outFeed + FeedStream(w.v) == w.sentFeed
    && (w.cut.Some? ==> w.cut.value <= |w.sentL1| && w.v.l1.closed && AllUpTo(L1Stream(w.v), bound))
    && w.outL1 + L1Stream(w.v) == Expected(w, bound)
  }

  lemma SuffixUpTo(s: seq<Message>, t: seq<Message>, bound: nat)
    requires Suffix(s, t) && AllUpTo(t, bound)
    ensures AllUpTo(s, bound)
  {
  }

  lemma BoundedAfter(messages: seq<Message>, rest: seq<Message>, bound: nat)
    requires AllUpTo(messages + rest, bound)
    ensures AllUpTo(rest, bound)
  {
    assert forall i :: 0 <= i < |rest| ==> rest[i] == (messages + rest)[|messages| + i];
  }

  lemma DeliverBalances(w: World, poll: Poll, v: Scheduler, bound: nat)
    requires Balanced(w, bound) && Coherent(v) && AllUpTo(v.l1Buffered, bound) && v.l1.closed == w.v.l1.closed
    requires poll.Ready? && poll.batch.Some? ==> Handed(w.v, poll.batch.value, v)
    requires !(poll.Ready? && poll.batch.Some?) ==> FeedStream(w.v) == FeedStream(v) && L1Stream(w.v) == L1Stream(v)
    ensures Balanced(Deliver(w, poll, v), bound)
  {
    if poll.Ready? && poll.batch.Some? {
      var b := poll.batch.value;
      if b.source.Feed? {
        Assoc(w.outFeed, b.messages, FeedStream(v));
      } else {
        Assoc(w.outL1, b.messages, L1Stream(v));
        if w.cut.Some? {
          BoundedAfter(b.messages, L1Stream(v), bound);
        }
      }
    }
  }

  lemma ActPollBalances(w: World, next: nat, bound: nat)
    requires Balanced(w, bound)
    ensures Balanced(Act(w, PollBatch(next), bound), bound)
  {
    PollKeeps(w.v, next);
    PollWithoutBatch(w.v, next);
    var poll, v' := NextBatch(w.v, next).0, NextBatch(w.v, next).1;
    SuffixUpTo(v'.l1Buffered, w.v.l1Buffered, bound);
    if poll.Ready? && poll.batch.Some? {
      PollHandsOut(w.v, next);
    }
    DeliverBalances(w, poll, v', bound);
  }

  lemma ActSendFeedBalances(w: World, m: Message, bound: nat)
    requires Balanced(w, bound)
    ensures Balanced(Act(w, SendFeed(m), bound), bound)
  {
    var fh, fq := Head(w.v.feedPending), w.v.feed.queue;
    Assoc(fh, fq, [m]);
    Assoc(w.outFeed, fh + fq, [m]);
  }

  lemma ActSendL1Balances(w: World, m: Message, bound: nat)
    requires Balanced(w, bound)
    ensures Balanced(Act(w, SendL1(m), bound), bound)
  {
    var lh, lq := Head(w.v.l1Pending) + w.v.l1Buffered, w.v.l1.queue;
    Assoc(lh, lq, [m]);
    Assoc(w.outL1, lh + lq, [m]);
  }

  /** Closing discards exactly what is still held above the bound. */
  lemma ActCloseBalances(w: World, bound: nat)
    requires Balanced(w, bound)
    ensures Balanced(Act(w, CloseInput, bound), bound)
    ensures var w' := Act(w, CloseInput, bound); w'.outL1 + L1Stream(w'.v) == w.outL1 + UpTo(L1Stream(w.v), bound)
  {
    CloseKeepsUpTo(w.v, bound);
    if w.cut.None? {
      assert w.sentL1[..|w.outL1|] == w.outL1 && w.sentL1[|w.outL1|..] == L1Stream(w.v);
    } else {
      UpToIsUpTo(L1Stream(w.v), bound);
    }
  }

  lemma WaitBalances(v: Scheduler)
    requires Coherent(v) && v.feedPending.None? && v.l1Pending.None? && v.l1Buffered == []
    requires (v.feedOpen && Answers(v.feed)) || (v.l1Open && Answers(v.l1))
    ensures Coherent(Wait(v)) && FeedStream(Wait(v)) == FeedStream(v) && L1Stream(Wait(v)) == L1Stream(v) &&
        Wait(v).l1Buffered == []
  {
    if v.feed.queue != [] {
      assert [v.feed.queue[0]] + v.feed.queue[1..] == [] + v.feed.queue;
    }
    if v.l1.queue != [] {
      assert [v.l1.queue[0]] + [] + v.l1.queue[1..] == [] + [] + v.l1.queue;
    }
  }

  /** Changing the scheduler without touching its streams. */
  lemma SameStreamsBalance(w: World, v: Scheduler, bound: nat)
    requires Balanced(w, bound) && Coherent(v) && AllUpTo(v.l1Buffered, bound) && (w.v.l1.closed ==> v.l1.closed)
    requires FeedStream(v) == FeedStream(w.v) && L1Stream(v) == L1Stream(w.v)
    ensures Balanced(w.(v := v), bound)
  {
  }

  lemma ActResumeBalances(w: World, bound: nat)
    requires Balanced(w, bound)
    ensures Balanced(Act(w, ResumeAwait, bound), bound)
  {
    var v := w.v;
    if v.feedPending.None? && v.l1Pending.None? && v.l1Buffered == [] {
      if (v.feedOpen && Answers(v.feed)) || (v.l1Open && Answers(v.l1)) {
        WaitBalances(v);
        SameStreamsBalance(w, Wait(v), bound);
      }
    }
  }

  lemma ActBalances(w: World, a: Action, bound: nat)
    requires Balanced(w, bound)
    ensures Balanced(Act(w, a, bound), bound)
  {
    match a
    case PollBatch(next) => ActPollBalances(w, next, bound);
    case CloseInput => ActCloseBalances(w, bound);
    case SendFeed(m) => ActSendFeedBalances(w, m, bound);
    case SendL1(m) => ActSendL1Balances(w, m, bound);
    case ResumeAwait => ActResumeBalances(w, bound);
    case DropFeedSenders => SameStreamsBalance(w, w.v.(feed := w.v.feed.(closed := true)), bound);
    case DropL1Senders => SameStreamsBalance(w, w.v.(l1 := w.v.l1.(closed := true)), bound);
    case CompleteBatch(source, kind) => SameStreamsBalance(w, Complete(w.v, source, kind), bound);
  }

  /** Over any run of sends, polls, cancellations and closes, each source's output followed by what is
      still held is exactly what was accepted from it, less what the first close discards above the bound. */
  lemma {:induction false} RunBalances(w: World, actions: seq<Action>, bound: nat)
    requires Balanced(w, bound)
    ensures Balanced(ActAll(w, actions, bound), bound)
    decreases |actions|
  {
    if actions != [] {
      ActBalances(w, actions[0], bound);
      RunBalances(Act(w, actions[0], bound), actions[1..], bound);
    }
  }

  lemma ActOnClosed(w: World, a: Action, bound: nat)
    requires Balanced(w, bound) && w.cut.Some?
    ensures var w' := Act(w, a, bound); w'.cut == w.cut && w'.sentL1 == w.sentL1
  {
  }

  /** Once the L1 input is closed its total output is fixed: whatever happens next, output so far plus
      what is held never changes, and nothing more is accepted. */
  lemma {:induction false} ClosedOutputIsFixed(w: World, actions: seq<Action>, bound: nat)
    requires Balanced(w, bound) && w.cut.Some?
    ensures var w' := ActAll(w, actions, bound);
            w'.sentL1 == w.sentL1 && w'.outL1 + L1Stream(w'.v) == w.outL1 + L1Stream(w.v) == Expected(w, bound)
    decreases |actions|
  {
    if actions != [] {
      ActBalances(w, actions[0], bound);
      ActOnClosed(w, actions[0], bound);
      ClosedOutputIsFixed(Act(w, actions[0], bound), actions[1..], bound);
    }
  }

  /** After a close, the L1 output that remains is the queued messages at or below the bound, in order,
      and once a poll reports that nothing is left all of it has been handed out. */
  lemma {:induction false} OutputAfterClose(w: World, actions: seq<Action>, next: nat, bound: nat)
    requires Balanced(w, bound)
    ensures var total := w.outL1 + UpTo(L1Stream(w.v), bound);
            var end := ActAll(Act(w, CloseInput, bound), actions, bound);
            && end.outL1 <= total
            && (NextBatch(end.v, next).0 == Ready(None) ==> end.outL1 == total && end.outFeed == end.sentFeed)
  {
    var closed := Act(w, CloseInput, bound);
    ActCloseBalances(w, bound);
    ClosedOutputIsFixed(closed, actions, bound);
    RunBalances(closed, actions, bound);
    var end := ActAll(closed, actions, bound);
    PollWithoutBatch(end.v, next);
  }
}
