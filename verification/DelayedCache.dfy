/**
  The forward-carried cache of delayed messages.  L1 is the list of delayed messages with the block each
  was delivered in, ascending along the chain; fetching a block range returns the messages delivered in it.
*/
module DelayedCache {
  import opened Prelude
  import opened Multiplexer

  datatype L1 = L1(count: nat, block: nat -> nat, message: nat -> DelayedMessage)
  {
    /** Indices are delivered in ascending order, and a message carries its own index. */
    ghost predicate Valid() {
      && (forall i: nat, j: nat :: i <= j < count ==> block(i) <= block(j))
      && (forall i: nat :: i < count ==> message(i).inboxSeqNum == i)
    }
  }

  type Messages = map<nat, DelayedMessage>

  datatype FetchRange = FetchRange(lo: nat, hi: nat)

  datatype CoverError = ReachedBlockZero | IndexNotFound

  function Fetch(l1: L1, lo: nat, hi: nat): (r: Messages)
    ensures forall i :: i in r <==> 0 <= i < l1.count && lo <= l1.block(i) <= hi
    ensures forall i :: i in r ==> r[i] == l1.message(i)
  {
    map i: nat | i < l1.count && lo <= l1.block(i) <= hi :: l1.message(i)
  }

  /** Asks for the delayed messages of a block range. */
  type Fetcher = (nat, nat) -> Messages

  function Fetching(l1: L1): Fetcher {
    (lo: nat, hi: nat) => Fetch(l1, lo, hi)
  }

  predicate Covers(msgs: Messages, needFrom: nat, needTo: nat) {
    forall i :: needFrom <= i < needTo ==> i in msgs
  }

  function SaturatingSub(a: nat, b: nat): nat {
    if a < b then 0 else a - b
  }

  // ---------------------------------------------------------------- the cache

  datatype Cache = Cache(msgs: Messages, lo: Option<nat>, hi: Option<nat>, fetches: seq<FetchRange>)

  const EMPTY: Cache := Cache(map[], None, None, [])

  /** The requests for `[lo, hi]` made one after the other, from the top down. */
  function Down<S>(ask: (S, nat, nat) -> S, s: S, lo: nat, hi: nat, window: nat): S
    requires lo <= hi && window >= 1
    decreases hi
  {
    var chunkLo := Max(SaturatingSub(hi, window - 1), lo);
    var t := ask(s, chunkLo, hi);
    if chunkLo == lo then t else Down(ask, t, lo, chunkLo - 1, window)
  }

  function Asking(fetch: Fetcher): (Cache, nat, nat) -> Cache {
    (c: Cache, lo: nat, hi: nat) =>
      c.(msgs := c.msgs + fetch(lo, hi), fetches := c.fetches + [FetchRange(lo, hi)])
  }

  lemma DownOne<S>(ask: (S, nat, nat) -> S, s: S, t: S, lo: nat, chunkLo: nat, hi: nat, window: nat)
    requires lo <= hi && window >= 1 && chunkLo == Max(SaturatingSub(hi, window - 1), lo) && t == ask(s, chunkLo, hi)
    ensures chunkLo == lo ==> Down(ask, s, lo, hi, window) == t
    ensures chunkLo != lo ==> Down(ask, s, lo, hi, window) == Down(ask, t, lo, chunkLo - 1, window)
  {
  }

  function Scan(fetch: Fetcher, c: Cache, lo: nat, hi: nat, window: nat): Cache
    requires lo <= hi && window >= 1
  {
    Down(Asking(fetch), c, lo, hi, window).(
      lo := Some(if c.lo.Some? then Min(c.lo.value, lo) else lo),
      hi := Some(if c.hi.Some? then Max(c.hi.value, hi) else hi))
  }

  function Forward(fetch: Fetcher, c: Cache, toBlock: nat, window: nat): Cache
    requires window >= 1
  {
    match c.hi
    case Some(hi) => if hi < toBlock then Scan(fetch, c, hi + 1, toBlock, window) else c
    case None => Scan(fetch, c, SaturatingSub(toBlock, window - 1), toBlock, window)
  }

  function Backward(fetch: Fetcher, c: Cache, needFrom: nat, needTo: nat, window: nat): (r: Cache)
    requires window >= 1 && c.lo.Some?
    ensures r.lo.Some?
    decreases c.lo.value
  {
    if Covers(c.msgs, needFrom, needTo) || c.lo.value == 0 then c
    else
      var nextHi := c.lo.value - 1;
      Backward(fetch, Scan(fetch, c, SaturatingSub(nextHi, window - 1), nextHi, window), needFrom, needTo, window)
  }

  lemma BackwardUnfolds(fetch: Fetcher, c: Cache, d: Cache, needFrom: nat, needTo: nat, window: nat)
    requires window >= 1 && c.lo.Some? && !Covers(c.msgs, needFrom, needTo) && c.lo.value != 0
    requires d == Scan(fetch, c, SaturatingSub(c.lo.value - 1, window - 1), c.lo.value - 1, window)
    ensures Backward(fetch, c, needFrom, needTo, window) == Backward(fetch, d, needFrom, needTo, window)
    ensures d.lo.Some? && d.lo.value < c.lo.value
  {
  }

  function Needed(msgs: Messages, needFrom: nat, needTo: nat): Messages {
    map i: nat | needFrom <= i < needTo && i in msgs :: msgs[i]
  }

  function Pruned(msgs: Messages, needFrom: nat): Messages {
    map i | i in msgs && i >= needFrom :: msgs[i]
  }

  /** The cache once the needed indices were looked for, before pruning. */
  function Searched(fetch: Fetcher, c: Cache, toBlock: nat, needFrom: nat, needTo: nat, window: nat): (r: Cache)
    requires window >= 1 && (c.hi.Some? ==> c.lo.Some?)
    ensures r.hi.Some? ==> r.lo.Some?
  {
    if Covers(c.msgs, needFrom, needTo) then c
    else Backward(fetch, Forward(fetch, c, toBlock, window), needFrom, needTo, window)
  }

  datatype Answer = Answer(result: Result<Messages, CoverError>, cache: Cache)

  function Cover(fetch: Fetcher, c: Cache, toBlock: nat, needFrom: nat, needTo: nat, window: nat): (r: Answer)
    requires c.hi.Some? ==> c.lo.Some?
    ensures r.cache.hi.Some? ==> r.cache.lo.Some?
    ensures r.result.Ok? ==> forall i :: needFrom <= i < needTo ==> i in r.result.value
  {
    if needTo <= needFrom then Answer(Ok(map[]), c)
    else
      var d := Searched(fetch, c, toBlock, needFrom, needTo, Max(window, 1));
      if Covers(d.msgs, needFrom, needTo)
        then Answer(Ok(Needed(d.msgs, needFrom, needTo)), d.(msgs := Pruned(d.msgs, needFrom)))
      else Answer(Err(ReachedBlockZero), d)
  }

  // ---------------------------------------------------------------- the object

  class DelayedCache {
    var msgs: Messages
    var scannedLo: Option<nat>
    var scannedHi: Option<nat>
    /** Requests made so far. */
    ghost var fetches: seq<FetchRange>

    ghost function View(): Cache
      reads this
    {
      Cache(msgs, scannedLo, scannedHi, fetches)
    }

    constructor ()
      ensures View() == EMPTY
    {
      msgs, scannedLo, scannedHi, fetches := map[], None, None, [];
    }

    method ScanRange(fetch: Fetcher, lo: nat, hi: nat, requested: nat)
      requires lo <= hi
      modifies this
      ensures View() == Scan(fetch, old(View()), lo, hi, Max(requested, 1))
    {
      var window: nat := Max(requested, 1);
      var chunkHi := hi;
      var chunkLo: nat := Max(SaturatingSub(chunkHi, window - 1), lo);
      ghost var was, ask := View(), Asking(fetch);
      while chunkLo != lo
        invariant lo <= chunkLo <= chunkHi <= hi && chunkLo == Max(SaturatingSub(chunkHi, window - 1), lo)
        invariant scannedLo == old(scannedLo) && scannedHi == old(scannedHi)
        invariant Down(ask, View(), lo, chunkHi, window) == Down(ask, was, lo, hi, window)
        decreases chunkHi
      {
        DownOne(ask, View(), ask(View(), chunkLo, chunkHi), lo, chunkLo, chunkHi, window);
        msgs := msgs + fetch(chunkLo, chunkHi);
        fetches := fetches + [FetchRange(chunkLo, chunkHi)];
        chunkHi := chunkLo - 1;
        chunkLo := Max(SaturatingSub(chunkHi, window - 1), lo);
      }
      DownOne(ask, View(), ask(View(), chunkLo, chunkHi), lo, chunkLo, chunkHi, window);
      msgs := msgs + fetch(chunkLo, chunkHi);
      fetches := fetches + [FetchRange(chunkLo, chunkHi)];
      scannedLo := Some(if scannedLo.Some? then Min(scannedLo.value, lo) else lo);
      scannedHi := Some(if scannedHi.Some? then Max(scannedHi.value, hi) else hi);
    }

    method ExtendForward(fetch: Fetcher, toBlock: nat, window: nat)
      requires window >= 1
      modifies this
      ensures View() == Forward(fetch, old(View()), toBlock, window)
    {
      assert Max(window, 1) == window;
      match scannedHi {
        case Some(hi) =>
          if hi < toBlock {
            ScanRange(fetch, hi + 1, toBlock, window);
          }
        case None =>
          ScanRange(fetch, SaturatingSub(toBlock, window - 1), toBlock, window);
      }
    }

    method WalkBackward(fetch: Fetcher, needFrom: nat, needTo: nat, window: nat)
      requires window >= 1 && scannedLo.Some?
      modifies this
      ensures View() == Backward(fetch, old(View()), needFrom, needTo, window)
    {
      assert Max(window, 1) == window;
      ghost var goal := Backward(fetch, View(), needFrom, needTo, window);
      while !Covers(msgs, needFrom, needTo) && scannedLo.value != 0
        invariant scannedLo.Some? && Backward(fetch, View(), needFrom, needTo, window) == goal
        decreases scannedLo.value
      {
        ghost var c := View();
        var nextHi := scannedLo.value - 1;
        ScanRange(fetch, SaturatingSub(nextHi, window - 1), nextHi, window);
        BackwardUnfolds(fetch, c, View(), needFrom, needTo, window);
      }
    }

    method CoverIndices(fetch: Fetcher, toBlock: nat, needFrom: nat, needTo: nat,
        requested: nat) returns (r: Result<Messages, CoverError>)
      requires scannedHi.Some? ==> scannedLo.Some?
      modifies this
      ensures Answer(r, View()) == Cover(fetch, old(View()), toBlock, needFrom, needTo, requested)
    {
      if needTo <= needFrom {
        return Ok(map[]);
      }
      var window: nat := Max(requested, 1);
      if !Covers(msgs, needFrom, needTo) {
        ExtendForward(fetch, toBlock, window);
        WalkBackward(fetch, needFrom, needTo, window);
        if !Covers(msgs, needFrom, needTo) {
          return Err(ReachedBlockZero);
        }
      }
      r := Ok(Needed(msgs, needFrom, needTo));
      msgs := Pruned(msgs, needFrom);
    }
  }

  // ---------------------------------------------------------------- the uncached scan

  /** Scans window after window downward from `hi` until `done`; `None` when block zero comes first. */
  function Walk<S>(scan: (S, nat, nat) -> S, done: S -> bool, s: S, hi: nat, window: nat): Option<S>
    requires window >= 1
    decreases hi
  {
    var lo := SaturatingSub(hi, window - 1);
    var more := scan(s, lo, hi);
    if done(more) then Some(more)
    else if lo == 0 then None
    else Walk(scan, done, more, lo - 1, window)
  }

  function Gather(fetch: Fetcher): (Messages, nat, nat) -> Messages {
    (acc: Messages, lo: nat, hi: nat) => acc + fetch(lo, hi)
  }

  /** The lowest needed index is in hand, or all of them are. */
  function Found(needFrom: nat, needTo: nat): Messages -> bool {
    (acc: Messages) => needFrom in acc || Covers(acc, needFrom, needTo)
  }

  /** Walks backward from `hi` until the lowest needed index is in hand. */
  function Walked(fetch: Fetcher, acc: Messages, hi: nat, needFrom: nat, needTo: nat, window: nat): Option<Messages>
    requires window >= 1
  {
    Walk(Gather(fetch), Found(needFrom, needTo), acc, hi, window)
  }

  function Uncached(fetch: Fetcher, toBlock: nat, needFrom: nat, needTo: nat, window: nat): Result<Messages,
      CoverError> {
    if needTo <= needFrom then Ok(map[])
    else
      match Walked(fetch, map[], toBlock, needFrom, needTo, Max(window, 1))
      case None => Err(ReachedBlockZero)
      case Some(acc) => if Covers(acc, needFrom, needTo) then Ok(acc) else Err(IndexNotFound)
  }

  method FetchCovering(fetch: Fetcher, toBlock: nat, needFrom: nat, needTo: nat,
      requested: nat) returns (r: Result<Messages, CoverError>)
    ensures r == Uncached(fetch, toBlock, needFrom, needTo, requested)
  {
    if needTo <= needFrom {
      return Ok(map[]);
    }
    var window: nat := Max(requested, 1);
    var acc: Messages, hi, found := map[], toBlock, false;
    while !found
      invariant !found ==>
          Walked(fetch, acc, hi, needFrom, needTo, window) == Walked(fetch, map[], toBlock, needFrom, needTo, window)
      invariant found ==> Walked(fetch, map[], toBlock, needFrom, needTo, window) == Some(acc)
      decreases !found, hi
    {
      var lo := SaturatingSub(hi, window - 1);
      acc := acc + fetch(lo, hi);
      if needFrom in acc || Covers(acc, needFrom, needTo) {
        found := true;
      } else if lo == 0 {
        return Err(ReachedBlockZero);
      } else {
        hi := lo - 1;
      }
    }
    if Covers(acc, needFrom, needTo) {
      r := Ok(acc);
    } else {
      r := Err(IndexNotFound);
    }
  }
}
