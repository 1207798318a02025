/** What the delayed cache keeps over every run of calls, and that it answers as the uncached scan does. */
module DelayedCacheRuns {
  import opened Prelude
  import opened DelayedCache

  // ---------------------------------------------------------------- scanning a range in chunks

  /** The requests made for `[lo, hi]`, from the top down. */
  function Chunks(lo: nat, hi: nat, window: nat): seq<FetchRange>
    requires lo <= hi && window >= 1
    decreases hi
  {
    var chunkLo := Max(SaturatingSub(hi, window - 1), lo);
    if chunkLo == lo then [FetchRange(chunkLo, hi)] else [FetchRange(chunkLo, hi)] + Chunks(lo, chunkLo - 1, window)
  }

  /** How often block `b` was asked for. */
  function Count(fetches: seq<FetchRange>, b: nat): nat {
    if fetches == [] then 0 else (if fetches[0].lo <= b <= fetches[0].hi then 1 else 0) + Count(fetches[1..], b)
  }

  lemma {:induction false} CountConcat(a: seq<FetchRange>, c: seq<FetchRange>, b: nat)
    ensures Count(a + c, b) == Count(a, b) + Count(c, b)
  {
    if a == [] {
      assert a + c == c;
    } else {
      CountConcat(a[1..], c, b);
      assert (a + c)[0] == a[0] && (a + c)[1..] == a[1..] + c;
    }
  }

  /** The chunks ask for every block of the range once and for no other. */
  lemma {:induction false} ChunksPartition(lo: nat, hi: nat, window: nat, b: nat)
    requires lo <= hi && window >= 1
    ensures Count(Chunks(lo, hi, window), b) == if lo <= b <= hi then 1 else 0
    decreases hi
  {
    var chunkLo := Max(SaturatingSub(hi, window - 1), lo);
    var first := [FetchRange(chunkLo, hi)];
    assert Count(first, b) == if chunkLo <= b <= hi then 1 else 0;
    if chunkLo != lo {
      ChunksPartition(lo, chunkLo - 1, window, b);
      CountConcat(first, Chunks(lo, chunkLo - 1, window), b);
    }
  }

  /** What is left to ask for below `above`. */
  function ChunksBelow(lo: nat, above: nat, window: nat): seq<FetchRange>
    requires lo <= above && window >= 1
  {
    if above == lo then [] else Chunks(lo, above - 1, window)
  }

  /** A scan of `[lo, hi]` of `c` that has come down to `above`. */
  ghost predicate Asked(l1: L1, c: Cache, lo: nat, hi: nat, window: nat, t: Cache, above: nat) {
    && lo <= above && window >= 1 && lo <= hi && t.lo == c.lo && t.hi == c.hi
    && t.msgs == c.msgs + Fetch(l1, above, hi)
    && t.fetches + ChunksBelow(lo, above, window) == c.fetches + Chunks(lo, hi, window)
  }

  lemma AskedMore(l1: L1, c: Cache, lo: nat, hi: nat, window: nat, t: Cache, chunkLo: nat, chunkHi: nat)
    requires Asked(l1, c, lo, hi, window, t, chunkHi + 1) && lo <= chunkLo <= chunkHi <= hi
    requires chunkLo == Max(SaturatingSub(chunkHi, window - 1), lo)
    ensures Asked(l1, c, lo, hi, window, Asking(Fetching(l1))(t, chunkLo, chunkHi), chunkLo)
  {
    assert c.msgs + Fetch(l1, chunkHi + 1, hi) + Fetch(l1, chunkLo, chunkHi) == c.msgs + Fetch(l1, chunkLo, hi);
    Assoc(t.fetches, [FetchRange(chunkLo, chunkHi)], ChunksBelow(lo, chunkLo, window));
  }

  lemma {:induction false} DownIs(l1: L1, c: Cache, lo: nat, hi: nat, window: nat, t: Cache, above: nat, chunkHi: nat)
    requires above == chunkHi + 1 && lo <= chunkHi <= hi && Asked(l1, c, lo, hi, window, t, above)
    ensures Asked(l1, c, lo, hi, window, Down(Asking(Fetching(l1)), t, lo, chunkHi, window), lo)
    decreases chunkHi
  {
    var chunkLo := Max(SaturatingSub(chunkHi, window - 1), lo);
    var next := Asking(Fetching(l1))(t, chunkLo, chunkHi);
    AskedMore(l1, c, lo, hi, window, t, chunkLo, chunkHi);
    DownOne(Asking(Fetching(l1)), t, next, lo, chunkLo, chunkHi, window);
    if chunkLo != lo {
      DownIs(l1, c, lo, hi, window, next, chunkLo, chunkLo - 1);
    }
  }

  /** Scanning chunk by chunk holds what one request for the whole range would return. */
  lemma ScanIs(l1: L1, c: Cache, lo: nat, hi: nat, window: nat)
    requires lo <= hi && window >= 1
    ensures Scan(Fetching(l1), c, lo, hi, window) ==
            Cache(c.msgs + Fetch(l1, lo, hi),
                  Some(if c.lo.Some? then Min(c.lo.value, lo) else lo),
                  Some(if c.hi.Some? then Max(c.hi.value, hi) else hi),
                  c.fetches + Chunks(lo, hi, window))
  {
    assert c.msgs + Fetch(l1, hi + 1, hi) == c.msgs;
    DownIs(l1, c, lo, hi, window, c, hi + 1, hi);
  }

  // ---------------------------------------------------------------- the invariant

  /** The requests so far cover `[lo, hi]` without a hole, and no block was asked for twice. */
  ghost predicate Contiguous(c: Cache) {
    match (c.lo, c.hi)
    case (Some(lo), Some(hi)) => lo <= hi && forall b: nat :: Count(c.fetches, b) == if lo <= b <= hi then 1 else 0
    case (None, None) => c.fetches == [] && c.msgs == map[]
    case _ => false
  }

  predicate Scanned(c: Cache, block: nat) {
    c.lo.Some? && c.hi.Some? && c.lo.value <= block <= c.hi.value
  }

  /** Held messages are L1's own, from scanned blocks. */
  ghost predicate Sound(l1: L1, c: Cache) {
    forall i :: i in c.msgs ==> i < l1.count && Scanned(c, l1.block(i)) && c.msgs[i] == l1.message(i)
  }

  /** From `floor` on, every message of a scanned block is held. */
  ghost predicate Complete(l1: L1, c: Cache, floor: nat) {
    forall i: nat :: floor <= i < l1.count && Scanned(c, l1.block(i)) ==> i in c.msgs
  }

  ghost predicate Inv(l1: L1, c: Cache, floor: nat) {
    Contiguous(c) && Sound(l1, c) && Complete(l1, c, floor)
  }

  lemma EmptyInv(l1: L1)
    ensures Inv(l1, EMPTY, 0)
  {
  }

  /** Extending next to the scanned interval, or starting one, keeps it hole-free. */
  predicate Adjacent(c: Cache, lo: nat, hi: nat) {
    (c.lo.None? && c.hi.None?) || (c.lo.Some? && c.hi.Some? && (lo == c.hi.value + 1 || hi + 1 == c.lo.value))
  }

  lemma ScanContiguous(l1: L1, c: Cache, lo: nat, hi: nat, window: nat)
    requires Contiguous(c) && lo <= hi && window >= 1 && Adjacent(c, lo, hi)
    ensures Contiguous(Scan(Fetching(l1), c, lo, hi, window))
  {
    var d := Scan(Fetching(l1), c, lo, hi, window);
    ScanIs(l1, c, lo, hi, window);
    forall b: nat ensures Count(d.fetches, b) == if d.lo.value <= b <= d.hi.value then 1 else 0 {
      CountConcat(c.fetches, Chunks(lo, hi, window), b);
      ChunksPartition(lo, hi, window, b);
    }
  }

  lemma {:induction false} ScanKeeps(l1: L1, c: Cache, lo: nat, hi: nat, window: nat, floor: nat)
    requires Inv(l1, c, floor) && lo <= hi && window >= 1 && Adjacent(c, lo, hi)
    ensures Inv(l1, Scan(Fetching(l1), c, lo, hi, window), floor)
  {
    ScanIs(l1, c, lo, hi, window);
    ScanContiguous(l1, c, lo, hi, window);
  }

  lemma ForwardKeeps(l1: L1, c: Cache, toBlock: nat, window: nat, floor: nat)
    requires Inv(l1, c, floor) && window >= 1
    ensures var d := Forward(Fetching(l1), c, toBlock, window);
            Inv(l1, d, floor) && d.hi == Some(if c.hi.Some? then Max(c.hi.value, toBlock) else toBlock)
  {
    match c.hi
    case Some(hi) =>
      if hi < toBlock {
        ScanKeeps(l1, c, hi + 1, toBlock, window, floor);
      }
    case None =>
      ScanKeeps(l1, c, SaturatingSub(toBlock, window - 1), toBlock, window, floor);
  }

  lemma {:induction false} BackwardKeeps(l1: L1, c: Cache, needFrom: nat, needTo: nat, window: nat, floor: nat)
    requires Inv(l1, c, floor) && window >= 1 && c.lo.Some?
    ensures var d := Backward(Fetching(l1), c, needFrom, needTo, window);
            && Inv(l1, d, floor) && d.hi == c.hi && d.lo.Some?
            && (Covers(d.msgs, needFrom, needTo) || d.lo == Some(0))
    decreases c.lo.value
  {
    if !Covers(c.msgs, needFrom, needTo) && c.lo.value != 0 {
      var nextHi := c.lo.value - 1;
      var nextLo := SaturatingSub(nextHi, window - 1);
      ScanKeeps(l1, c, nextLo, nextHi, window, floor);
      BackwardKeeps(l1, Scan(Fetching(l1), c, nextLo, nextHi, window), needFrom, needTo, window, floor);
    }
  }

  // ---------------------------------------------------------------- one call

  /** Every needed message exists and was delivered no later than block `top`. */
  ghost predicate Delivered(l1: L1, top: nat, needFrom: nat, needTo: nat) {
    needTo <= l1.count && forall i: nat :: needFrom <= i < needTo ==> l1.block(i) <= top
  }

  function Top(c: Cache, toBlock: nat): nat {
    if c.hi.Some? then Max(c.hi.value, toBlock) else toBlock
  }

  lemma CoveredIffDelivered(l1: L1, d: Cache, floor: nat, top: nat, needFrom: nat, needTo: nat)
    requires Inv(l1, d, floor) && floor <= needFrom < needTo && d.hi.Some? && d.hi.value <= top
    requires Covers(d.msgs, needFrom, needTo) || (d.lo == Some(0) && d.hi == Some(top))
    ensures Covers(d.msgs, needFrom, needTo) <==> Delivered(l1, top, needFrom, needTo)
  {
    if Covers(d.msgs, needFrom, needTo) {
      var last: nat := needTo - 1;
      assert last in d.msgs;
    }
  }

  lemma SearchedKeeps(l1: L1, c: Cache, floor: nat, toBlock: nat, needFrom: nat, needTo: nat, window: nat)
    requires Inv(l1, c, floor) && floor <= needFrom < needTo && window >= 1
    ensures var d := Searched(Fetching(l1), c, toBlock, needFrom, needTo, window);
            && Inv(l1, d, floor)
            && (Covers(d.msgs, needFrom, needTo) <==> Delivered(l1, Top(c, toBlock), needFrom, needTo))
  {
    var d := Searched(Fetching(l1), c, toBlock, needFrom, needTo, window);
    if Covers(c.msgs, needFrom, needTo) {
      assert needFrom in c.msgs;
      CoveredIffDelivered(l1, d, floor, Top(c, toBlock), needFrom, needTo);
    } else {
      ForwardKeeps(l1, c, toBlock, window, floor);
      BackwardKeeps(l1, Forward(Fetching(l1), c, toBlock, window), needFrom, needTo, window, floor);
      CoveredIffDelivered(l1, d, floor, Top(c, toBlock), needFrom, needTo);
    }
  }

  /** L1's own messages of the needed range. */
  ghost predicate IsRange(l1: L1, m: Messages, needFrom: nat, needTo: nat) {
    && (forall i :: i in m <==> needFrom <= i < needTo)
    && (forall i :: i in m ==> m[i] == l1.message(i))
  }

  lemma PruneKeeps(l1: L1, d: Cache, floor: nat, needFrom: nat)
    requires Inv(l1, d, floor) && floor <= needFrom && d.lo.Some?
    ensures Inv(l1, d.(msgs := Pruned(d.msgs, needFrom)), needFrom)
  {
  }

  /**
    One call: it succeeds exactly when every needed message is delivered by the top block, it then
    returns L1's messages of the range, and either way the scanned interval stays whole.
  */
  lemma {:induction false} CoverMeans(l1: L1, c: Cache, floor: nat, toBlock: nat, needFrom: nat, needTo: nat,
      window: nat)
    requires Inv(l1, c, floor) && floor <= needFrom
    ensures var answer := Cover(Fetching(l1), c, toBlock, needFrom, needTo, window);
            && Inv(l1, answer.cache, if answer.result.Ok? && needFrom < needTo then needFrom else floor)
            && (answer.result.Ok? <==> needTo <= needFrom || Delivered(l1, Top(c, toBlock), needFrom, needTo))
            && (answer.result.Ok? ==> IsRange(l1, answer.result.value, needFrom, needTo))
  {
    if needFrom < needTo {
      var d := Searched(Fetching(l1), c, toBlock, needFrom, needTo, Max(window, 1));
      SearchedKeeps(l1, c, floor, toBlock, needFrom, needTo, Max(window, 1));
      if Covers(d.msgs, needFrom, needTo) {
        assert needFrom in d.msgs;
        PruneKeeps(l1, d, floor, needFrom);
      }
    }
  }

  // ---------------------------------------------------------------- the uncached scan

  /** `m` is exactly what blocks `[lo, top]` delivered. */
  ghost predicate Holds(l1: L1, m: Messages, lo: nat, top: nat) {
    && (forall i :: i in m <==> 0 <= i < l1.count && lo <= l1.block(i) <= top)
    && (forall i :: i in m ==> m[i] == l1.message(i))
  }

  lemma HoldsMore(l1: L1, acc: Messages, lo: nat, hi: nat, top: nat)
    requires lo <= hi <= top && Holds(l1, acc, hi + 1, top)
    ensures Holds(l1, acc + Fetch(l1, lo, hi), lo, top)
  {
  }

  /** What every window keeps holds where the walk ends, and it ends when done or at block zero. */
  lemma {:induction false} WalkKeeps<S(!new)>(scan: (S, nat, nat) -> S, done: S -> bool, kept: (S, nat) -> bool, s: S,
      above: nat, hi: nat, window: nat) returns (last: S, end: nat)
    requires window >= 1 && above == hi + 1 && kept(s, above)
    requires forall t: S, lo: nat, h: nat :: lo <= h <= hi && kept(t, h + 1) ==> kept(scan(t, lo, h), lo)
    ensures kept(last, end)
    ensures var r := Walk(scan, done, s, hi, window);
            if r.Some? then r.value == last && done(last) else end == 0 && !done(last)
    decreases hi
  {
    var lo := SaturatingSub(hi, window - 1);
    var more := scan(s, lo, hi);
    if done(more) || lo == 0 {
      last, end := more, lo;
    } else {
      last, end := WalkKeeps(scan, done, kept, more, lo, lo - 1, window);
    }
  }

  lemma GatherKeeps(l1: L1, top: nat)
    ensures var scan, kept := Gather(Fetching(l1)), HoldsUpTo(l1, top);
            forall m: Messages, lo: nat, h: nat :: lo <= h <= top && kept(m, h + 1) ==> kept(scan(m, lo, h), lo)
  {
    var scan, kept := Gather(Fetching(l1)), HoldsUpTo(l1, top);
    forall m: Messages, lo: nat, h: nat | lo <= h <= top && kept(m, h + 1) ensures kept(scan(m, lo, h), lo) {
      HoldsMore(l1, m, lo, h, top);
    }
  }

  ghost function HoldsUpTo(l1: L1, top: nat): (Messages, nat) -> bool {
    (m: Messages, lo: nat) => Holds(l1, m, lo, top)
  }

  /** The walk ends holding exactly the blocks `[lo, top]`, or because the lowest index is not there. */
  lemma {:induction false} WalkedMeans(l1: L1, top: nat, needFrom: nat, needTo: nat, window: nat) returns (lo: nat)
    requires window >= 1 && needFrom < needTo
    ensures var r := Walked(Fetching(l1), map[], top, needFrom, needTo, window);
            if r.Some? then Holds(l1, r.value, lo, top) && needFrom in r.value
            else !(needFrom < l1.count && l1.block(needFrom) <= top)
  {
    var none: Messages := map[];
    var kept, done := HoldsUpTo(l1, top), Found(needFrom, needTo);
    assert kept(none, top + 1);
    GatherKeeps(l1, top);
    var last, end := WalkKeeps(Gather(Fetching(l1)), done, kept, none, top + 1, top, window);
    assert Holds(l1, last, end, top);
    assert Covers(last, needFrom, needTo) ==> needFrom in last;
    assert done(last) <==> needFrom in last;
    lo := end;
  }

  /** The uncached scan succeeds exactly when everything needed is delivered, and then holds it. */
  lemma {:induction false} UncachedMeans(l1: L1, toBlock: nat, needFrom: nat, needTo: nat, window: nat)
    requires l1.Valid()
    ensures var r := Uncached(Fetching(l1), toBlock, needFrom, needTo, window);
            && (r.Ok? <==> needTo <= needFrom || Delivered(l1, toBlock, needFrom, needTo))
            && (r.Ok? ==> IsRange(l1, Needed(r.value, needFrom, needTo), needFrom, needTo))
  {
    if needFrom < needTo {
      var lo := WalkedMeans(l1, toBlock, needFrom, needTo, Max(window, 1));
      var r := Walked(Fetching(l1), map[], toBlock, needFrom, needTo, Max(window, 1));
      if r.Some? {
        UncachedHolds(l1, r.value, lo, toBlock, needFrom, needTo);
      }
    }
  }

  /** Having the lowest needed index means having every later one that is delivered. */
  lemma UncachedHolds(l1: L1, acc: Messages, lo: nat, top: nat, needFrom: nat, needTo: nat)
    requires l1.Valid() && Holds(l1, acc, lo, top) && needFrom in acc && needFrom < needTo
    ensures Covers(acc, needFrom, needTo) <==> Delivered(l1, top, needFrom, needTo)
    ensures Covers(acc, needFrom, needTo) ==> IsRange(l1, Needed(acc, needFrom, needTo), needFrom, needTo)
  {
    if Covers(acc, needFrom, needTo) {
      var last: nat := needTo - 1;
      assert last in acc;
      forall i: nat | needFrom <= i < needTo ensures l1.block(i) <= top {
        assert i in acc;
      }
    }
    if Delivered(l1, top, needFrom, needTo) {
      forall i: nat | needFrom <= i < needTo ensures i in acc {
        assert l1.block(needFrom) <= l1.block(i) <= top;
      }
    }
  }

  // ---------------------------------------------------------------- runs

  datatype Call = Call(toBlock: nat, needFrom: nat, needTo: nat, window: nat)

  /** The answers of a run of calls on one cache, and the cache they leave. */
  function Run(l1: L1, c: Cache, calls: seq<Call>): (seq<Result<Messages, CoverError>>, Cache)
    requires c.hi.Some? ==> c.lo.Some?
    decreases |calls|
  {
    if calls == [] then ([], c)
    else
      var call := calls[0];
      var answer := Cover(Fetching(l1), c, call.toBlock, call.needFrom, call.needTo, call.window);
      var rest := Run(l1, answer.cache, calls[1..]);
      ([answer.result] + rest.0, rest.1)
  }

  predicate NeverLower(floor: nat, calls: seq<Call>) {
    && (forall k :: 0 <= k < |calls| ==> floor <= calls[k].needFrom)
    && (forall j, k :: 0 <= j < k < |calls| ==> calls[j].needFrom <= calls[k].needFrom)
  }

  predicate Forwards(hi: Option<nat>, calls: seq<Call>) {
    && (hi.Some? ==> forall k :: 0 <= k < |calls| ==> hi.value <= calls[k].toBlock)
    && (forall j, k :: 0 <= j < k < |calls| ==> calls[j].toBlock <= calls[k].toBlock)
  }

  lemma CoverTop(l1: L1, c: Cache, floor: nat, call: Call)
    requires Inv(l1, c, floor) && floor <= call.needFrom
    ensures var d := Cover(Fetching(l1), c, call.toBlock, call.needFrom, call.needTo, call.window).cache;
            d.hi == c.hi || d.hi == Some(Top(c, call.toBlock))
  {
    if call.needFrom < call.needTo && !Covers(c.msgs, call.needFrom, call.needTo) {
      ForwardKeeps(l1, c, call.toBlock, Max(call.window, 1), floor);
      BackwardKeeps(l1, Forward(Fetching(l1), c, call.toBlock, Max(call.window, 1)), call.needFrom, call.needTo,
          Max(call.window,
          1), floor);
    }
  }

  ghost predicate AnswersAgree(l1: L1, call: Call, answer: Result<Messages, CoverError>) {
    var uncached := Uncached(Fetching(l1), call.toBlock, call.needFrom, call.needTo, call.window);
    && (answer.Ok? <==> uncached.Ok?)
    && (answer.Ok? ==> answer.value == Needed(uncached.value, call.needFrom, call.needTo))
  }

  lemma SameRange(l1: L1, a: Messages, b: Messages, needFrom: nat, needTo: nat)
    requires IsRange(l1, a, needFrom, needTo) && IsRange(l1, b, needFrom, needTo)
    ensures a == b
  {
  }

  /**
    The condition for one answer: nothing is needed, or what is needed and delivered by the highest
    block scanned so far is delivered by this call's own last block.
  */
  ghost predicate NoneInBetween(l1: L1, c: Cache, call: Call) {
    call.needTo <= call.needFrom ||
    (Delivered(l1, Top(c, call.toBlock), call.needFrom, call.needTo) ==>
       Delivered(l1, call.toBlock, call.needFrom, call.needTo))
  }

  /** The cache's answer is the uncached one if and only if no needed message lies between the two ends. */
  lemma {:induction false} CallAgreesIff(l1: L1, c: Cache, floor: nat, call: Call)
    requires l1.Valid() && Inv(l1, c, floor) && floor <= call.needFrom
    ensures AnswersAgree(l1, call,
        Cover(Fetching(l1), c, call.toBlock, call.needFrom, call.needTo, call.window).result) <==>
            NoneInBetween(l1, c, call)
    ensures Uncached(Fetching(l1), call.toBlock, call.needFrom, call.needTo, call.window).Ok? ==>
        NoneInBetween(l1, c, call)
  {
    CoverMeans(l1, c, floor, call.toBlock, call.needFrom, call.needTo, call.window);
    UncachedMeans(l1, call.toBlock, call.needFrom, call.needTo, call.window);
    var answer := Cover(Fetching(l1), c, call.toBlock, call.needFrom, call.needTo, call.window).result;
    var uncached := Uncached(Fetching(l1), call.toBlock, call.needFrom, call.needTo, call.window);
    if answer.Ok? && uncached.Ok? {
      SameRange(l1, answer.value, Needed(uncached.value, call.needFrom, call.needTo), call.needFrom, call.needTo);
    }
  }

  /** What the `k`-th answer of a run amounts to, given the cache the earlier calls left. */
  ghost predicate AnswerIs(l1: L1, c: Cache, calls: seq<Call>, k: nat)
    requires k < |calls| && (c.hi.Some? ==> c.lo.Some?) && |Run(l1, c, calls).0| == |calls|
  {
    var call, answer, before := calls[k], Run(l1, c, calls).0[k], Run(l1, c, calls[..k]).1;
    && (AnswersAgree(l1, call, answer) <==> NoneInBetween(l1, before, call))
    && (Uncached(Fetching(l1), call.toBlock, call.needFrom, call.needTo, call.window).Ok? ==>
        AnswersAgree(l1, call, answer))
  }

  lemma AnswerIsLater(l1: L1, c: Cache, d: Cache, calls: seq<Call>, k: nat)
    requires 0 < k < |calls| && (c.hi.Some? ==> c.lo.Some?) && |Run(l1, c, calls).0| == |calls|
    requires d == Cover(Fetching(l1), c, calls[0].toBlock, calls[0].needFrom, calls[0].needTo, calls[0].window).cache
    requires |Run(l1, d, calls[1..]).0| == |calls| - 1 && AnswerIs(l1, d, calls[1..], k - 1)
    ensures AnswerIs(l1, c, calls, k)
  {
    assert calls[..k][1..] == calls[1..][..k - 1];
  }

  /**
    Every run of calls whose needs never move back: no L1 block is asked for twice and the scanned
    interval has no hole.  Whenever the uncached scan succeeds the cache gives its answer, and each answer
    is the uncached one if and only if no needed message lies between the call's end and the scanned top.
  */
  lemma {:induction false} RunAgrees(l1: L1, c: Cache, floor: nat, calls: seq<Call>)
    requires l1.Valid() && Inv(l1, c, floor) && NeverLower(floor, calls)
    ensures Contiguous(Run(l1, c, calls).1) && |Run(l1, c, calls).0| == |calls|
    ensures forall k :: 0 <= k < |calls| ==> AnswerIs(l1, c, calls, k)
    decreases |calls|
  {
    if calls != [] {
      var call := calls[0];
      CoverMeans(l1, c, floor, call.toBlock, call.needFrom, call.needTo, call.window);
      CallAgreesIff(l1, c, floor, call);
      var answer := Cover(Fetching(l1), c, call.toBlock, call.needFrom, call.needTo, call.window);
      var next := if answer.result.Ok? && call.needFrom < call.needTo then call.needFrom else floor;
      RunAgrees(l1, answer.cache, next, calls[1..]);
      assert AnswerIs(l1, c, calls, 0) by {
        assert calls[..0] == [];
      }
      forall k | 0 < k < |calls| ensures AnswerIs(l1, c, calls, k) {
        AnswerIsLater(l1, c, answer.cache, calls, k);
      }
    }
  }

  /** When the window ends never move back either, every answer is the uncached one. */
  lemma {:induction false} ForwardRunAgrees(l1: L1, c: Cache, floor: nat, calls: seq<Call>)
    requires l1.Valid() && Inv(l1, c, floor) && NeverLower(floor, calls) && Forwards(c.hi, calls)
    ensures |Run(l1, c, calls).0| == |calls|
    ensures forall k :: 0 <= k < |calls| ==> AnswersAgree(l1, calls[k], Run(l1, c, calls).0[k])
    decreases |calls|
  {
    if calls != [] {
      var call := calls[0];
      CoverMeans(l1, c, floor, call.toBlock, call.needFrom, call.needTo, call.window);
      CoverTop(l1, c, floor, call);
      CallAgreesIff(l1, c, floor, call);
      var answer := Cover(Fetching(l1), c, call.toBlock, call.needFrom, call.needTo, call.window);
      var next := if answer.result.Ok? && call.needFrom < call.needTo then call.needFrom else floor;
      assert Forwards(answer.cache.hi, calls[1..]);
      ForwardRunAgrees(l1, answer.cache, next, calls[1..]);
    }
  }

  lemma RunOfTwo(l1: L1, c: Cache, a: Call, b: Call)
    requires c.hi.Some? ==> c.lo.Some?
    ensures var first := Cover(Fetching(l1), c, a.toBlock, a.needFrom, a.needTo, a.window);
            var second := Cover(Fetching(l1), first.cache, b.toBlock, b.needFrom, b.needTo, b.window);
            Run(l1, c, [a, b]).0 == [first.result, second.result]
  {
    assert [a, b][1..] == [b] && [b][1..] == [];
    var first := Cover(Fetching(l1), c, a.toBlock, a.needFrom, a.needTo, a.window);
    assert Run(l1, first.cache, [b]).0 ==
        [Cover(Fetching(l1), first.cache, b.toBlock, b.needFrom, b.needTo, b.window).result] + [];
  }

  /** A window end that moves back: the cache still answers what the uncached scan no longer reaches. */
  lemma {:induction false} MovedBackDisagrees(l1: L1)
    requires l1.Valid() && l1.count == 1 && l1.block(0) == 5
    ensures var answers := Run(l1, EMPTY, [Call(5, 0, 1, 1), Call(3, 0, 1, 1)]).0;
            |answers| == 2 && answers[1].Ok? && Uncached(Fetching(l1), 3, 0, 1, 1).Err?
  {
    var c := Cover(Fetching(l1), EMPTY, 5, 0, 1, 1).cache;
    EmptyInv(l1);
    assert Delivered(l1, 5, 0, 1);
    CoverMeans(l1, EMPTY, 0, 5, 0, 1, 1);
    CoverTop(l1, EMPTY, 0, Call(5, 0, 1, 1));
    CoverMeans(l1, c, 0, 3, 0, 1, 1);
    UncachedMeans(l1, 3, 0, 1, 1);
    RunOfTwo(l1, EMPTY, Call(5, 0, 1, 1), Call(3, 0, 1, 1));
  }
}
