/**
  Why reports must not name later batches: a call that succeeds has resolved every report it read, and
  it can only have done so from a batch no later than the one that read it or from outside its own list.
*/
module ReportPrecedence {
  import opened Prelude
  import opened BatchFraming
  import opened Multiplexer
  import MultiplexerMeaning
  import opened DelayedCache
  import opened DelayedCacheRuns
  import opened Derivation
  import opened WindowDerivation
  import opened WindowEquivalence

  lemma {:induction false} FedReportsAreKnown(ms: seq<DerivedMessage>, first: nat, stats: StatsMap, k: nat)
    requires FeedAll(ms, first, stats).Ok? && k < |ms| && ms[k].header.kind == KIND_BATCH_POSTING_REPORT
    ensures |ms[k].l2Msg| >= 84 && ms[k].l2Msg[52..84] in stats
    decreases |ms|
  {
    if k < |ms| - 1 {
      FedReportsAreKnown(ms[..|ms| - 1], first, stats, k);
    }
  }

  lemma {:induction false} AssembledKeys(env: Env, bs: seq<Resolved>, delayed: Source, start: nat, seed: StatsMap)
    requires Assemble(env, bs, delayed, start, seed).Ok?
    ensures var a := Assemble(env, bs, delayed, start, seed).value;
            a.stats.Keys == seed.Keys + InRange(env, bs) && a.before == Cursor(bs, start)
  {
    if bs != [] {
      AssembledKeys(env, bs[..|bs| - 1], delayed, start, seed);
    }
  }

  lemma PrefixAssembles(env: Env, bs: seq<Resolved>, delayed: Source, start: nat, seed: StatsMap, n: nat)
    requires n <= |bs| && Assemble(env, bs, delayed, start, seed).Ok?
    ensures Assemble(env, bs[..n], delayed, start, seed).Ok?
  {
    if Assemble(env, bs[..n], delayed, start, seed).Err? {
      AssembleFailureStays(env, bs, delayed, start, seed, n);
    }
  }

  /** A decoded batch emits every delayed message between its cursors. */
  lemma DecodedHas(env: Env, brotli: Brotli, b: Resolved, before: nat, delayed: Source, i: nat) returns (k: nat)
    requires Decodes(env, brotli) && env.decode(b, before, delayed).Ok? && before <= i < b.header.afterDelayedMessages
    ensures delayed(i).Some? && k < |env.decode(b, before, delayed).value|
    ensures var m := env.decode(b, before, delayed).value[k];
            m.header.kind == delayed(i).value.kind && m.l2Msg == delayed(i).value.data
  {
    assert env.decode(b, before, delayed) == BatchMessages(brotli, b, before, delayed);
    var batch := Batch(b.header, brotli, delayed);
    var actions := Actions(brotli, PayloadSegments(brotli, b.payload).value);
    MultiplexerMeaning.ExtractMeans(batch, before, actions);
    k := MultiplexerMeaning.DelayedIsEmitted(batch, before, actions, i);
  }

  /** An assembly that succeeds knew the hash of every report when its batch was reached. */
  lemma {:induction false} AssembledReportsAreKnown(env: Env, brotli: Brotli, bs: seq<Resolved>, delayed: Source,
      start: nat,
      seed: StatsMap, j: nat, i: nat)
    requires Decodes(env, brotli) && Assemble(env, bs, delayed, start, seed).Ok? && j < |bs|
    requires Cursor(bs[..j], start) <= i < bs[j].header.afterDelayedMessages
    requires delayed(i).Some? && IsReport(delayed(i).value)
    ensures Known(delayed(i).value, seed.Keys + InRange(env, bs[..j + 1]))
  {
    PrefixAssembles(env, bs, delayed, start, seed, j + 1);
    PrefixAssembles(env, bs, delayed, start, seed, j);
    var upTo := bs[..j + 1];
    assert upTo[..j] == bs[..j];
    AssembledKeys(env, bs[..j], delayed, start, seed);
    AssembledKeys(env, upTo, delayed, start, seed);
    var a := Assemble(env, bs[..j], delayed, start, seed).value;
    var stats := a.stats[DataHash(env, bs[j]) := StatsOf(env.serialize(bs[j]))];
    var k := DecodedHas(env, brotli, bs[j], a.before, delayed, i);
    FedReportsAreKnown(env.decode(bs[j], a.before, delayed).value, a.next, stats, k);
  }

  /** Seeding never answers for a batch of the window itself. */
  lemma {:induction false} SeedAvoidsOwnBatches(env: Env, delayed: Messages, from: nat, end: nat, inRange: set<Bytes>,
      s: Seeding)
    requires from <= end && forall i :: from <= i < end ==> i in delayed
    requires s.seed.Keys !! inRange
    ensures Seed(env, delayed, from, end, inRange, s).seed.Keys !! inRange
    decreases end - from
  {
    if from < end && s.error.None? {
      SeedAvoidsOwnBatches(env, delayed, from + 1, end, inRange, SeedOne(env, delayed[from], inRange, s));
    }
  }

  /** A report names no batch of the list, or one no later than batch `j`. */
  predicate Precedes(env: Env, bs: seq<Resolved>, j: nat, m: DelayedMessage)
    requires j < |bs|
  {
    |m.data| >= 84 && (m.data[52..84] in InRange(env, bs) ==> m.data[52..84] in InRange(env, bs[..j + 1]))
  }

  lemma CoveredNeedsPrecedence(env: Env, brotli: Brotli, w: Window, start: nat, end: nat, delayed: Messages, c: Caches,
      j: nat, i: nat)
    requires Decodes(env, brotli) && start <= end && (forall k :: start <= k < end ==> k in delayed)
    requires DeriveCovered(env, w, start, end, delayed, c).result.Ok? && j < |w.resolved|
    requires Cursor(w.resolved[..j], start) <= i < w.resolved[j].header.afterDelayedMessages
    requires i in delayed && IsReport(delayed[i])
    ensures Precedes(env, w.resolved, j, delayed[i])
  {
    var inRange, s := InRange(env, w.resolved), Seeding(map[], c.reports, None);
    SeedAvoidsOwnBatches(env, delayed, start, end, inRange, s);
    var seed := Seed(env, delayed, start, end, inRange, s).seed;
    assert MapSource(delayed)(i) == Some(delayed[i]);
    AssembledReportsAreKnown(env, brotli, w.resolved, MapSource(delayed), start, seed, j, i);
  }

  lemma ReadInWindow(bs: seq<Resolved>, start: nat, j: nat, i: nat)
    requires Ascending(bs, start) && j < |bs| && Cursor(bs[..j], start) <= i < bs[j].header.afterDelayedMessages
    ensures start <= i < Cursor(bs, start)
  {
    CursorOfPrefix(bs, start, j);
    CursorOfPrefix(bs, start, j + 1);
    assert bs[..j + 1][j] == bs[j];
  }

  lemma SuccessIsCovered(env: Env, c: Caches, w: Window, start: nat, end: nat, answer: Answer)
    requires c.delayed.hi.Some? ==> c.delayed.lo.Some?
    requires Derive(env, c, w, start).result.Ok? && w.resolved != [] && end == Cursor(w.resolved, start) && start < end
    requires answer == Cover(Fetching(env.l1), c.delayed, w.toBlock, start, end, w.span)
    ensures answer.result.Ok?
    ensures Derive(env, c, w, start) ==
        DeriveCovered(env, w, start, end, answer.result.value,
        Caches(answer.cache, Recorded(env, c.reports, w.resolved)))
  {
  }

  /**
    A call succeeds only if every report it reads can be parsed and, when it names batches of the call's
    own list, names one no later than the batch that reads it.
  */
  lemma {:induction false} SuccessNeedsPrecedence(env: Env, brotli: Brotli, c: Caches, floor: nat, w: Window,
      start: nat, j: nat, i: nat)
    requires Decodes(env, brotli) && Ascending(w.resolved, start) && Inv(env.l1, c.delayed, floor) && floor <= start
    requires Derive(env, c, w, start).result.Ok? && j < |w.resolved|
    requires Cursor(w.resolved[..j], start) <= i < w.resolved[j].header.afterDelayedMessages
    requires IsReport(env.l1.message(i))
    ensures Precedes(env, w.resolved, j, env.l1.message(i))
  {
    var end := Cursor(w.resolved, start);
    ReadInWindow(w.resolved, start, j, i);
    var answer := Cover(Fetching(env.l1), c.delayed, w.toBlock, start, end, w.span);
    SuccessIsCovered(env, c, w, start, end, answer);
    CoverMeans(env.l1, c.delayed, floor, w.toBlock, start, end, w.span);
    var after := Caches(answer.cache, Recorded(env, c.reports, w.resolved));
    CoveredNeedsPrecedence(env, brotli, w, start, end, answer.result.value, after, j, i);
  }
}
