/**
  The ingress scheduler: bounded-fair arbitration between the live feed and L1 derivation.

  A channel is its queue plus whether it is closed (all senders gone, or closed by the receiver).
  `next_batch` is one poll: it is ready with a batch, ready with nothing left, or pending at its only
  await.  Between polls anything may happen to the channels, and a pending poll may be dropped.
*/
module Ingress {
  import opened Prelude
  import opened EngineDriver

  datatype Source = L1 | Feed

  datatype BatchKind = Ordinary | GapCloser

  datatype Batch = Batch(source: Source, messages: seq<Message>, kind: BatchKind)

  datatype Poll = Ready(batch: Option<Batch>) | Pending

  const MAX_MESSAGE_BATCH: nat := 64

  datatype Channel = Channel(queue: seq<Message>, closed: bool)

  datatype Scheduler = Scheduler(
    feed: Channel,
    l1: Channel,
    feedPending: Option<Message>,
    l1Pending: Option<Message>,
    l1Buffered: seq<Message>,
    feedOpen: bool,
    l1Open: bool,
    owed: Source)

  function Head(m: Option<Message>): seq<Message> {
    if m.None? then [] else [m.value]
  }

  /** Messages of one source that have been accepted and not handed out yet, in order. */
  function FeedStream(v: Scheduler): seq<Message> {
    Head(v.feedPending) + v.feed.queue
  }

  function L1Stream(v: Scheduler): seq<Message> {
    Head(v.l1Pending) + v.l1Buffered + v.l1.queue
  }

  /** A source marked closed really is drained and cannot grow; L1 is only buffered once it is closed. */
  predicate Coherent(v: Scheduler) {
    && (!v.feedOpen ==> v.feed.queue == [] && v.feed.closed)
    && (!v.l1Open ==> v.l1Buffered == [] && v.l1.queue == [] && v.l1.closed)
    && (v.l1Buffered != [] ==> v.l1.queue == [] && v.l1.closed)
  }

  // ---------------------------------------------------------------- filling heads

  function FillFeed(v: Scheduler): Scheduler {
    if !v.feedOpen || v.feedPending.Some? then v
    else if v.feed.queue != []
      then v.(feedPending := Some(v.feed.queue[0]), feed := v.feed.(queue := v.feed.queue[1..]))
    else v.(feedOpen := !v.feed.closed)
  }

  function FillL1(v: Scheduler): Scheduler {
    if !v.l1Open || v.l1Pending.Some? then v
    else if v.l1Buffered != [] then v.(l1Pending := Some(v.l1Buffered[0]), l1Buffered := v.l1Buffered[1..])
    else if v.l1.queue != [] then v.(l1Pending := Some(v.l1.queue[0]), l1 := v.l1.(queue := v.l1.queue[1..]))
    else v.(l1Open := !v.l1.closed)
  }

  function Filled(v: Scheduler): Scheduler {
    FillL1(FillFeed(v))
  }

  /** A receive on this channel completes. */
  predicate Answers(c: Channel) {
    c.queue != [] || c.closed
  }

  /** The await of `wait_for_head`, completed: the owed source is looked at first. */
  function Wait(v: Scheduler): Scheduler
    requires (v.feedOpen && Answers(v.feed)) || (v.l1Open && Answers(v.l1))
  {
    var fromFeed := v.feedOpen && Answers(v.feed) && (v.owed.Feed? || !(v.l1Open && Answers(v.l1)));
    if fromFeed then
      if v.feed.queue == [] then v.(feedOpen := false)
      else v.(feedPending := Some(v.feed.queue[0]), feed := v.feed.(queue := v.feed.queue[1..]))
    else
      if v.l1.queue == [] then v.(l1Open := false)
      else v.(l1Pending := Some(v.l1.queue[0]), l1 := v.l1.(queue := v.l1.queue[1..]))
  }

  // ---------------------------------------------------------------- choosing and taking a batch

  predicate ClosesGap(feed: Option<Message>, l1: Option<Message>, next: nat) {
    feed.Some? && l1.Some? && l1.value.sequence == next && feed.value.sequence > next
  }

  function Choose(feed: Option<Message>, l1: Option<Message>, owed: Source, next: nat): Source
    requires feed.Some? || l1.Some?
  {
    if ClosesGap(feed, l1, next) then L1
    else if feed.Some? && l1.Some? then owed
    else if feed.Some? then Feed
    else L1
  }

  /** How many more messages an ordinary batch takes. */
  function More(available: nat): nat {
    Min(MAX_MESSAGE_BATCH - 1, available)
  }

  function TakeFeed(v: Scheduler): (r: (Batch, Scheduler))
    requires v.feedPending.Some?
  {
    var n := More(|v.feed.queue|);
    (Batch(Feed, [v.feedPending.value] + v.feed.queue[..n], Ordinary),
     v.(feedPending := None,
        feed := v.feed.(queue := v.feed.queue[n..]),
        feedOpen := v.feedOpen && !(n < MAX_MESSAGE_BATCH - 1 && v.feed.closed)))
  }

  function TakeL1(v: Scheduler, kind: BatchKind): (r: (Batch, Scheduler))
    requires v.l1Pending.Some?
  {
    if kind.GapCloser? then (Batch(L1, [v.l1Pending.value], kind), v.(l1Pending := None))
    else
      var all := v.l1Buffered + v.l1.queue;
      var n := More(|all|);
      var b := Min(n, |v.l1Buffered|);
      (Batch(L1, [v.l1Pending.value] + all[..n], kind),
       v.(l1Pending := None,
          l1Buffered := v.l1Buffered[b..],
          l1 := v.l1.(queue := v.l1.queue[n - b..]),
          l1Open := v.l1Open && !(n < MAX_MESSAGE_BATCH - 1 && v.l1.closed)))
  }

  /** The rest of a poll once heads are filled. */
  function Pick(f: Scheduler, next: nat): (r: (Poll, Scheduler)) {
    if f.feedPending.None? && f.l1Pending.None? then
      if !f.feedOpen && !f.l1Open then (Ready(None), f) else (Pending, f)
    else
      var kind := if ClosesGap(f.feedPending, f.l1Pending, next) then GapCloser else Ordinary;
      var taken := if Choose(f.feedPending, f.l1Pending, f.owed, next).Feed? then TakeFeed(f) else TakeL1(f, kind);
      (Ready(Some(taken.0)), taken.1)
  }

  /** One poll of `next_batch` with the driver's next sequence. */
  function NextBatch(v: Scheduler, next: nat): (r: (Poll, Scheduler)) {
    Pick(Filled(v), next)
  }

  function Complete(v: Scheduler, source: Source, kind: BatchKind): Scheduler {
    if kind.GapCloser? then v.(owed := Feed)
    else if source == v.owed then v.(owed := if source.Feed? then L1 else Feed)
    else v
  }

  /** The messages at or below the bound, in order. */
  function UpTo(messages: seq<Message>, bound: nat): seq<Message> {
    if messages == [] then []
    else (if messages[0].sequence <= bound then [messages[0]] else []) + UpTo(messages[1..], bound)
  }

  function CloseL1(v: Scheduler, bound: nat): Scheduler {
    var buffered := v.l1Buffered + UpTo(v.l1.queue, bound);
    v.(l1 := Channel([], true),
       l1Pending := if v.l1Pending.Some? && v.l1Pending.value.sequence > bound then None else v.l1Pending,
       l1Buffered := buffered,
       l1Open := buffered != [])
  }

  // ---------------------------------------------------------------- the scheduler object

  lemma NextBuffered(buffered: seq<Message>, queue: seq<Message>, first: Message, n: nat)
    requires n < |buffered|
    ensures buffered[n..] != [] && buffered[n..][1..] == buffered[n + 1..]
    ensures var all := buffered + queue; [first] + all[..n] + [buffered[n..][0]] == [first] + all[..n + 1]
  {
    var all := buffered + queue;
    assert all[..n + 1] == all[..n] + [buffered[n]];
  }

  lemma NextQueued(buffered: seq<Message>, queue: seq<Message>, first: Message, n: nat)
    requires |buffered| <= n < |buffered| + |queue|
    ensures var q := n - |buffered|; queue[q..] != [] && queue[q..][1..] == queue[q + 1..]
    ensures var all := buffered + queue;
            [first] + all[..n] + [queue[n - |buffered|..][0]] == [first] + all[..n + 1]
  {
    var all := buffered + queue;
    assert all[..n + 1] == all[..n] + [queue[n - |buffered|]];
  }

  /** Extends a batch from a buffer and then a channel, up to the batch bound. */
  method Extend(first: Message, buffered: seq<Message>, channel: Channel, open: bool)
    returns (messages: seq<Message>, buffered': seq<Message>, channel': Channel, open': bool)
    ensures var all := buffered + channel.queue;
            var n := More(|all|);
            var b := Min(n, |buffered|);
            && messages == [first] + all[..n]
            && buffered' == buffered[b..]
            && channel' == channel.(queue := channel.queue[n - b..])
            && open' == (open && !(n < MAX_MESSAGE_BATCH - 1 && channel.closed))
  {
    messages, buffered', channel', open' := [first], buffered, channel, open;
    ghost var all := buffered + channel.queue;
    ghost var n := 0;
    while |messages| < MAX_MESSAGE_BATCH
      invariant n <= |all| && |messages| == n + 1 <= MAX_MESSAGE_BATCH
      invariant messages == [first] + all[..n]
      invariant buffered' == buffered[Min(n, |buffered|)..]
      invariant channel' == channel.(queue := channel.queue[n - Min(n, |buffered|)..])
      invariant open' == open
      decreases MAX_MESSAGE_BATCH - |messages|
    {
      if buffered' != [] {
        NextBuffered(buffered, channel.queue, first, n);
        messages, buffered' := messages + [buffered'[0]], buffered'[1..];
      } else if channel'.queue != [] {
        NextQueued(buffered, channel.queue, first, n);
        messages, channel' := messages + [channel'.queue[0]], channel'.(queue := channel'.queue[1..]);
      } else {
        assert n == |all|;
        if channel'.closed {
          open' := false;
        }
        return;
      }
      n := n + 1;
    }
  }

  class IngressScheduler {
    var feed: Channel
    var l1: Channel
    var feedPending: Option<Message>
    var l1Pending: Option<Message>
    var l1Buffered: seq<Message>
    var feedOpen: bool
    var l1Open: bool
    var owed: Source

    function View(): Scheduler
      reads this
    {
      Scheduler(feed, l1, feedPending, l1Pending, l1Buffered, feedOpen, l1Open, owed)
    }

    constructor (feed: Channel, l1: Channel)
      ensures View() == Scheduler(feed, l1, None, None, [], true, true, Feed)
    {
      this.feed, this.l1 := feed, l1;
      feedPending, l1Pending, l1Buffered, feedOpen, l1Open, owed := None, None, [], true, true, Feed;
    }

    method TryFillHead(source: Source)
      modifies this
      ensures View() == if source.Feed? then FillFeed(old(View())) else FillL1(old(View()))
    {
      if source.L1? && l1Open && l1Pending.None? && l1Buffered != [] {
        l1Pending, l1Buffered := Some(l1Buffered[0]), l1Buffered[1..];
        return;
      }
      match source
      case Feed =>
        if !feedOpen || feedPending.Some? { return; }
        if feed.queue != [] {
          feedPending, feed := Some(feed.queue[0]), feed.(queue := feed.queue[1..]);
        } else if feed.closed {
          feedOpen := false;
        }
      case L1 =>
        if !l1Open || l1Pending.Some? { return; }
        if l1.queue != [] {
          l1Pending, l1 := Some(l1.queue[0]), l1.(queue := l1.queue[1..]);
        } else if l1.closed {
          l1Open := false;
        }
    }

    method WaitForHead()
      requires (feedOpen && Answers(feed)) || (l1Open && Answers(l1))
      modifies this
      ensures View() == Wait(old(View()))
    {
      var fromFeed := if owed.Feed? then feedOpen && Answers(feed) else !(l1Open && Answers(l1));
      if fromFeed {
        if feed.queue == [] { feedOpen := false; }
        else { feedPending, feed := Some(feed.queue[0]), feed.(queue := feed.queue[1..]); }
      } else {
        if l1.queue == [] { l1Open := false; }
        else { l1Pending, l1 := Some(l1.queue[0]), l1.(queue := l1.queue[1..]); }
      }
    }

    method PollNextBatch(next: nat) returns (poll: Poll)
      modifies this
      ensures (poll, View()) == NextBatch(old(View()), next)
    {
      TryFillHead(Feed);
      TryFillHead(L1);
      if feedPending.None? && l1Pending.None? {
        return if !feedOpen && !l1Open then Ready(None) else Pending;
      }
      var kind := if ClosesGap(feedPending, l1Pending, next) then GapCloser else Ordinary;
      var messages: seq<Message>;
      if Choose(feedPending, l1Pending, owed, next).Feed? {
        var first := feedPending.value;
        feedPending := None;
        var none: seq<Message>;
        assert [] + feed.queue == feed.queue;
        messages, none, feed, feedOpen := Extend(first, [], feed, feedOpen);
        return Ready(Some(Batch(Feed, messages, kind)));
      }
      var first := l1Pending.value;
      l1Pending := None;
      if kind.GapCloser? {
        return Ready(Some(Batch(L1, [first], kind)));
      }
      messages, l1Buffered, l1, l1Open := Extend(first, l1Buffered, l1, l1Open);
      return Ready(Some(Batch(L1, messages, kind)));
    }

    method CompleteBatch(source: Source, kind: BatchKind)
      modifies this`owed
      ensures View() == Complete(old(View()), source, kind)
    {
      if kind.GapCloser? {
        owed := Feed;
      } else if source == owed {
        owed := if source.Feed? then L1 else Feed;
      }
    }

    method CloseL1Input(bound: nat)
      modifies this
      ensures View() == CloseL1(old(View()), bound)
    {
      l1 := l1.(closed := true);
      if l1Pending.Some? && l1Pending.value.sequence > bound {
        l1Pending := None;
      }
      l1Buffered := DrainUpTo(l1.queue, l1Buffered, bound);
      l1 := l1.(queue := []);
      l1Open := l1Buffered != [];
    }

    /** Empties a closed channel into the buffer, discarding the tail above the bound. */
    static method DrainUpTo(queue: seq<Message>, buffered: seq<Message>, bound: nat) returns (kept: seq<Message>)
      ensures kept == buffered + UpTo(queue, bound)
    {
      kept := buffered;
      var rest := queue;
      while rest != []
        invariant kept + UpTo(rest, bound) == buffered + UpTo(queue, bound)
        decreases |rest|
      {
        if rest[0].sequence <= bound {
          assert kept + ([rest[0]] + UpTo(rest[1..], bound)) == kept + [rest[0]] + UpTo(rest[1..], bound);
          kept := kept + [rest[0]];
        }
        rest := rest[1..];
      }
    }
  }
}
