/**
  Deriving a batch list in consecutive windows with threaded caches gives the messages, the cursor and
  the error of deriving it in one call.
*/
module WindowEquivalence {
  import opened Prelude
  import opened BatchFraming
  import opened Multiplexer
  import opened DelayedCache
  import opened DelayedCacheRuns
  import opened Derivation
  import opened WindowDerivation

  // ---------------------------------------------------------------- assembly against the ideal

  predicate IsReport(m: DelayedMessage) {
    m.kind == KIND_BATCH_POSTING_REPORT
  }

  /** A report's hash can be read and is among the known ones. */
  predicate Known(m: DelayedMessage, known: set<Bytes>) {
    IsReport(m) ==> |m.data| >= 84 && m.data[52..84] in known
  }

  ghost predicate KnownBetween(env: Env, from: nat, end: nat, known: set<Bytes>) {
    forall i: nat :: from <= i < end && i < env.l1.count ==> Known(env.l1.message(i), known)
  }

  lemma {:induction false} FeedIdeal(env: Env, ms: seq<DerivedMessage>, first: nat, stats: StatsMap)
    requires Consistent(env, stats)
    requires forall k :: 0 <= k < |ms| && ms[k].header.kind == KIND_BATCH_POSTING_REPORT ==>
        |ms[k].l2Msg| >= 84 && ms[k].l2Msg[52..84] in stats
    ensures FeedAll(ms, first, stats) == Ok(Numbered(IdealBodies(env, ms), first))
  {
    if ms != [] {
      var init, last := ms[..|ms| - 1], ms[|ms| - 1];
      FeedIdeal(env, init, first, stats);
      var bodies := IdealBodies(env, init);
      assert IdealBodies(env, ms)[..|ms| - 1] == bodies;
    }
  }

  lemma DecodedKnown(env: Env, brotli: Brotli, b: Resolved, before: nat, known: set<Bytes>, ms: seq<DerivedMessage>)
    requires Decodes(env, brotli) && before <= b.header.afterDelayedMessages
    requires env.decode(b, before, Full(env.l1)) == Ok(ms)
    requires KnownBetween(env, before, b.header.afterDelayedMessages, known)
    ensures forall k :: 0 <= k < |ms| && ms[k].header.kind == KIND_BATCH_POSTING_REPORT ==>
        |ms[k].l2Msg| >= 84 && ms[k].l2Msg[52..84] in known
  {
    forall k | 0 <= k < |ms| && ms[k].header.kind == KIND_BATCH_POSTING_REPORT
      ensures |ms[k].l2Msg| >= 84 && ms[k].l2Msg[52..84] in known
    {
      var index := DecodedElement(env, brotli, b, before, k);
      assert Known(env.l1.message(index), known);
    }
  }

  /** The source answers as L1 does between the cursors. */
  ghost predicate SourceAgrees(env: Env, delayed: Source, from: nat, end: nat) {
    forall i: nat :: from <= i < end ==> delayed(i) == Full(env.l1)(i)
  }

  /** Cursors never decrease. */
  predicate Ascending(bs: seq<Resolved>, start: nat) {
    if bs == [] then true
    else
      var init := bs[..|bs| - 1];
      Ascending(init, start) && Cursor(init, start) <= bs[|bs| - 1].header.afterDelayedMessages
  }

  lemma {:induction false} AscendingFromStart(bs: seq<Resolved>, start: nat)
    requires Ascending(bs, start)
    ensures start <= Cursor(bs, start)
  {
    if bs != [] {
      AscendingFromStart(bs[..|bs| - 1], start);
    }
  }

  /** Every report of the list names a seeded hash or a batch no later than the one that reads it. */
  ghost predicate ReportsKnown(env: Env, bs: seq<Resolved>, start: nat, seed: set<Bytes>) {
    if bs == [] then true
    else
      var init := bs[..|bs| - 1];
      && ReportsKnown(env, init, start, seed)
      && KnownBetween(env, Cursor(init, start), Cursor(bs, start), seed + InRange(env, bs))
  }

  /** What an assembly must look like to match the ideal derivation. */
  ghost predicate Matches(env: Env, r: Result<Assembly, DeriveError>, ideal: Result<seq<FeedBody>, DeriveError>,
      cursor: nat, known: set<Bytes>)
  {
    if ideal.Err? then r == Err(ideal.error)
    else
      && r.Ok? && r.value.out == Numbered(ideal.value, 0) && r.value.next == |ideal.value| && r.value.before == cursor
      && Consistent(env, r.value.stats) && r.value.stats.Keys == known
  }

  lemma StatsStep(env: Env, stats: StatsMap, b: Resolved, known: set<Bytes>)
    requires Injective(env) && Consistent(env, stats) && stats.Keys == known
    ensures var t := stats[DataHash(env, b) := StatsOf(env.serialize(b))];
            Consistent(env, t) && t.Keys == known + {DataHash(env, b)}
  {
    BatchConsistent(env, b, StatsOf(env.serialize(b)));
  }

  lemma StepIdeal(env: Env, brotli: Brotli, delayed: Source, a: Assembly, bodies: seq<FeedBody>, b: Resolved,
      known: set<Bytes>)
    requires Decodes(env, brotli) && Injective(env)
    requires Matches(env, Ok(a), Ok(bodies), a.before, known)
    requires a.before <= b.header.afterDelayedMessages
    requires SourceAgrees(env, delayed, a.before, b.header.afterDelayedMessages)
    requires KnownBetween(env, a.before, b.header.afterDelayedMessages, known + {DataHash(env, b)})
    ensures Matches(env, AssembleStep(env, delayed, a, b), IdealNext(env, bodies, b, a.before),
        b.header.afterDelayedMessages, known + {DataHash(env, b)})
  {
    DecodeReads(env, brotli, b, a.before, delayed);
    var stats := a.stats[DataHash(env, b) := StatsOf(env.serialize(b))];
    StatsStep(env, a.stats, b, known);
    var ms := env.decode(b, a.before, Full(env.l1));
    if ms.Ok? {
      DecodedKnown(env, brotli, b, a.before, stats.Keys, ms.value);
      FeedIdeal(env, ms.value, a.next, stats);
      NumberedConcat(bodies, IdealBodies(env, ms.value), 0);
    }
  }

  lemma {:induction false} AssembleIdeal(env: Env, brotli: Brotli, bs: seq<Resolved>, delayed: Source, start: nat,
      seed: StatsMap)
    requires Decodes(env, brotli) && Injective(env) && Consistent(env, seed)
    requires Ascending(bs, start) && SourceAgrees(env, delayed, start, Cursor(bs, start))
    requires ReportsKnown(env, bs, start, seed.Keys)
    ensures Matches(env, Assemble(env, bs, delayed, start, seed), Ideal(env, bs, start), Cursor(bs, start),
        seed.Keys + InRange(env, bs))
  {
    if bs != [] {
      var init, last := bs[..|bs| - 1], bs[|bs| - 1];
      AscendingFromStart(init, start);
      AssembleIdeal(env, brotli, init, delayed, start, seed);
      var ideal := Ideal(env, init, start);
      if ideal.Ok? {
        var a := Assemble(env, init, delayed, start, seed).value;
        assert seed.Keys + InRange(env, init) + {DataHash(env, last)} == seed.Keys + InRange(env, bs);
        StepIdeal(env, brotli, delayed, a, ideal.value, last, seed.Keys + InRange(env, init));
      }
    }
  }

  // ---------------------------------------------------------------- what the batch list must satisfy

  lemma {:induction false} InRangeConcat(env: Env, a: seq<Resolved>, b: seq<Resolved>)
    ensures InRange(env, a + b) == InRange(env, a) + InRange(env, b)
    decreases |b|
  {
    if b == [] {
      assert a + b == a;
    } else {
      var init, last := b[..|b| - 1], b[|b| - 1];
      assert (a + b)[..|a + b| - 1] == a + init && (a + b)[|a + b| - 1] == last;
      InRangeConcat(env, a, init);
    }
  }

  /** A report names no later batch, and one that names no batch of the list can be looked up on L1. */
  predicate Fine(env: Env, earlier: set<Bytes>, later: set<Bytes>, m: DelayedMessage) {
    IsReport(m) ==>
      |m.data| >= 84 && m.data[52..84] !in later &&
      (m.data[52..84] in earlier || ReportedStats(env, m, m.data[52..84]).Ok?)
  }

  ghost predicate FineAt(env: Env, bs: seq<Resolved>, start: nat, j: nat)
    requires j < |bs|
  {
    forall i: nat :: Cursor(bs[..j], start) <= i < bs[j].header.afterDelayedMessages && i < env.l1.count ==>
      Fine(env, InRange(env, bs[..j + 1]), InRange(env, bs[j + 1..]), env.l1.message(i))
  }

  ghost predicate ReportsFine(env: Env, bs: seq<Resolved>, start: nat) {
    forall j :: 0 <= j < |bs| ==> FineAt(env, bs, start, j)
  }

  lemma SlicesOf(p: seq<Resolved>, w: seq<Resolved>, r: seq<Resolved>, k: nat, start: nat)
    requires k < |w|
    ensures var all := p + w + r; var j := |p| + k;
            && j < |all| && all[j] == w[k]
            && all[..j] == p + w[..k] && all[..j + 1] == p + w[..k + 1] && all[j + 1..] == w[k + 1..] + r
            && Cursor(all[..j], start) == Cursor(w[..k], Cursor(p, start))
  {
  }

  lemma FineInWindow(env: Env, p: seq<Resolved>, w: seq<Resolved>, r: seq<Resolved>, start: nat, k: nat, i: nat)
    requires ReportsFine(env, p + w + r, start) && k < |w|
    requires Cursor(w[..k], Cursor(p, start)) <= i < w[k].header.afterDelayedMessages && i < env.l1.count
    ensures Fine(env, InRange(env, p + w[..k + 1]), InRange(env, w[k + 1..] + r), env.l1.message(i))
  {
    SlicesOf(p, w, r, k, start);
    assert FineAt(env, p + w + r, start, |p| + k);
  }

  lemma WindowRanges(env: Env, p: seq<Resolved>, w: seq<Resolved>, r: seq<Resolved>, k: nat, hash: Bytes)
    requires k < |w| && hash !in InRange(env, w[k + 1..] + r)
    ensures hash in InRange(env, w) ==> hash in InRange(env, w[..k + 1])
    ensures hash in InRange(env, p + w[..k + 1]) ==> hash in InRange(env, w) || hash in InRange(env, p)
  {
    InRangeConcat(env, p, w[..k + 1]);
    InRangeConcat(env, w[k + 1..], r);
    InRangeConcat(env, w[..k + 1], w[k + 1..]);
    assert w == w[..k + 1] + w[k + 1..];
  }

  /** What the list's hypothesis says about a batch of one window. */
  lemma WindowFine(env: Env, p: seq<Resolved>, w: seq<Resolved>, r: seq<Resolved>, start: nat, k: nat, i: nat)
    requires ReportsFine(env, p + w + r, start) && k < |w|
    requires Cursor(w[..k], Cursor(p, start)) <= i < w[k].header.afterDelayedMessages && i < env.l1.count &&
        IsReport(env.l1.message(i))
    ensures var m := env.l1.message(i);
            && |m.data| >= 84
            && (m.data[52..84] in InRange(env, w) ==> m.data[52..84] in InRange(env, w[..k + 1]))
            && (m.data[52..84] in InRange(env, w) || m.data[52..84] in InRange(env, p) ||
                ReportedStats(env, m, m.data[52..84]).Ok?)
  {
    FineInWindow(env, p, w, r, start, k, i);
    WindowRanges(env, p, w, r, k, env.l1.message(i).data[52..84]);
  }

  lemma {:induction false} CursorOfPrefix(w: seq<Resolved>, start: nat, n: nat)
    requires Ascending(w, start) && n <= |w|
    ensures Ascending(w[..n], start) && start <= Cursor(w[..n], start) <= Cursor(w, start)
    decreases |w|
  {
    if n == |w| {
      assert w[..n] == w;
      AscendingFromStart(w, start);
    } else {
      assert w[..|w| - 1][..n] == w[..n];
      CursorOfPrefix(w[..|w| - 1], start, n);
    }
  }

  /** The batch that reads delayed message `i`. */
  lemma {:induction false} Reader(w: seq<Resolved>, start: nat, i: nat) returns (k: nat)
    requires Ascending(w, start) && start <= i < Cursor(w, start)
    ensures k < |w| && Cursor(w[..k], start) <= i < w[k].header.afterDelayedMessages
  {
    var init := w[..|w| - 1];
    if i < Cursor(init, start) {
      k := Reader(init, start, i);
      assert init[..k] == w[..k];
    } else {
      k := |w| - 1;
    }
  }

  // ---------------------------------------------------------------- seeding

  predicate Seedable(env: Env, m: DelayedMessage, known: set<Bytes>) {
    IsReport(m) ==> |m.data| >= 84 && (m.data[52..84] in known || ReportedStats(env, m, m.data[52..84]).Ok?)
  }

  /** A seeding that ran through: consistent, and nothing forgotten. */
  ghost predicate SeedingOk(env: Env, s: Seeding) {
    s.error.None? && Consistent(env, s.seed) && Consistent(env, s.reports)
  }

  lemma SeedOneSucceeds(env: Env, m: DelayedMessage, inRange: set<Bytes>, s: Seeding)
    requires Injective(env) && SeedingOk(env, s) && Seedable(env, m, inRange + s.reports.Keys)
    ensures var t := SeedOne(env, m, inRange, s);
            && SeedingOk(env, t) && s.reports.Keys <= t.reports.Keys && s.seed.Keys <= t.seed.Keys
            && Known(m, inRange + t.seed.Keys)
  {
    if IsReport(m) && m.data[52..84] !in inRange && m.data[52..84] !in s.seed && m.data[52..84] !in s.reports {
      ReportedConsistent(env, m, m.data[52..84]);
    }
  }

  lemma {:induction false} SeedSucceeds(env: Env, delayed: Messages, from: nat, end: nat, inRange: set<Bytes>,
      s: Seeding)
    requires Injective(env) && SeedingOk(env, s)
    requires from <= end && forall i :: from <= i < end ==> i in delayed
    requires forall i :: from <= i < end ==> Seedable(env, delayed[i], inRange + s.reports.Keys)
    ensures var t := Seed(env, delayed, from, end, inRange, s);
            && SeedingOk(env, t) && s.reports.Keys <= t.reports.Keys && s.seed.Keys <= t.seed.Keys
            && forall i :: from <= i < end ==> Known(delayed[i], inRange + t.seed.Keys)
    decreases end - from
  {
    if from < end {
      var t := SeedOne(env, delayed[from], inRange, s);
      SeedOneSucceeds(env, delayed[from], inRange, s);
      SeedSucceeds(env, delayed, from + 1, end, inRange, t);
    }
  }

  lemma {:induction false} RecordedKeeps(env: Env, reports: StatsMap, w: seq<Resolved>)
    requires Injective(env) && Consistent(env, reports)
    ensures Consistent(env, Recorded(env, reports, w)) &&
        Recorded(env, reports, w).Keys == reports.Keys + InRange(env, w)
  {
    if w != [] {
      RecordedKeeps(env, reports, w[..|w| - 1]);
      BatchConsistent(env, w[|w| - 1], StatsOf(env.serialize(w[|w| - 1])));
    }
  }

  // ---------------------------------------------------------------- one window against the ideal

  lemma {:induction false} WindowKnown(env: Env, p: seq<Resolved>, w: seq<Resolved>, r: seq<Resolved>, start: nat,
      seed: set<Bytes>, n: nat)
    requires ReportsFine(env, p + w + r, start) && Ascending(w, Cursor(p, start)) && n <= |w|
    requires KnownBetween(env, Cursor(p, start), Cursor(w, Cursor(p, start)), InRange(env, w) + seed)
    ensures ReportsKnown(env, w[..n], Cursor(p, start), seed)
    decreases n
  {
    if n > 0 {
      var from := Cursor(p, start);
      WindowKnown(env, p, w, r, start, seed, n - 1);
      assert w[..n][..n - 1] == w[..n - 1];
      CursorOfPrefix(w, from, n - 1);
      CursorOfPrefix(w, from, n);
      forall i: nat | Cursor(w[..n - 1], from) <= i < Cursor(w[..n], from) && i < env.l1.count
        ensures Known(env.l1.message(i), seed + InRange(env, w[..n]))
      {
        if IsReport(env.l1.message(i)) {
          WindowFine(env, p, w, r, start, n - 1, i);
        }
      }
    }
  }

  lemma WindowSeedable(env: Env, p: seq<Resolved>, w: seq<Resolved>, r: seq<Resolved>, start: nat, i: nat,
      known: set<Bytes>)
    requires ReportsFine(env, p + w + r, start) && Ascending(w, Cursor(p, start))
    requires Cursor(p, start) <= i < Cursor(w, Cursor(p, start)) && i < env.l1.count
    requires InRange(env, p) + InRange(env, w) <= known
    ensures Seedable(env, env.l1.message(i), known)
  {
    if IsReport(env.l1.message(i)) {
      var k := Reader(w, Cursor(p, start), i);
      WindowFine(env, p, w, r, start, k, i);
    }
  }

  /** The caches after the batches `p`. */
  ghost predicate Ready(env: Env, c: Caches, p: seq<Resolved>, start: nat, floor: nat) {
    && Inv(env.l1, c.delayed, floor) && floor <= Cursor(p, start)
    && Consistent(env, c.reports) && InRange(env, p) <= c.reports.Keys
  }

  ghost predicate WindowMatches(r: Result<Derived, DeriveError>, ideal: Result<seq<FeedBody>, DeriveError>,
      cursor: nat, batches: nat)
  {
    if ideal.Err? then r == Err(ideal.error) else r == Ok(Derived(Numbered(ideal.value, 0), cursor, batches))
  }

  /** No delayed message is read in the window, so none is looked for. */
  lemma QuietWindow(env: Env, brotli: Brotli, p: seq<Resolved>, w: Window, r: seq<Resolved>, start: nat)
    requires Decodes(env, brotli) && Injective(env)
    requires ReportsFine(env, p + w.resolved + r, start) && Ascending(w.resolved, Cursor(p, start))
    requires Cursor(w.resolved, Cursor(p, start)) <= Cursor(p, start)
    ensures Matches(env, Assemble(env, w.resolved, NO_DELAYED, Cursor(p, start), map[]),
        Ideal(env, w.resolved, Cursor(p, start)), Cursor(w.resolved, Cursor(p, start)), InRange(env, w.resolved))
  {
    var from := Cursor(p, start);
    var empty: StatsMap := map[];
    WindowKnown(env, p, w.resolved, r, start, {}, |w.resolved|);
    assert w.resolved[..|w.resolved|] == w.resolved && empty.Keys == {};
    AssembleIdeal(env, brotli, w.resolved, NO_DELAYED, from, empty);
    assert {} + InRange(env, w.resolved) == InRange(env, w.resolved);
  }

  /** With the needed messages in hand, the window derives its ideal messages. */
  lemma CoveredWindow(env: Env, brotli: Brotli, p: seq<Resolved>, w: Window, r: seq<Resolved>, start: nat,
      delayed: Messages, c: Caches)
    requires Decodes(env, brotli) && Injective(env)
    requires ReportsFine(env, p + w.resolved + r, start) && Ascending(w.resolved, Cursor(p, start))
    requires var from, end := Cursor(p, start), Cursor(w.resolved, Cursor(p, start));
             from <= end <= env.l1.count && IsRange(env.l1, delayed, from, end)
    requires Consistent(env, c.reports) && InRange(env, p) + InRange(env, w.resolved) <= c.reports.Keys
    ensures var from, end := Cursor(p, start), Cursor(w.resolved, Cursor(p, start));
            var o := DeriveCovered(env, w, from, end, delayed, c);
            && WindowMatches(o.result, Ideal(env, w.resolved, from), end, |w.resolved|)
            && Consistent(env, o.caches.reports) && c.reports.Keys <= o.caches.reports.Keys
  {
    var from, end := Cursor(p, start), Cursor(w.resolved, Cursor(p, start));
    var inRange := InRange(env, w.resolved);
    var s := Seeding(map[], c.reports, None);
    forall i | from <= i < end ensures Seedable(env, delayed[i], inRange + s.reports.Keys) {
      WindowSeedable(env, p, w.resolved, r, start, i, inRange + s.reports.Keys);
    }
    SeedSucceeds(env, delayed, from, end, inRange, s);
    var t := Seed(env, delayed, from, end, inRange, s);
    forall i: nat | from <= i < end && i < env.l1.count ensures Known(env.l1.message(i), inRange + t.seed.Keys) {
      assert delayed[i] == env.l1.message(i);
    }
    WindowKnown(env, p, w.resolved, r, start, t.seed.Keys, |w.resolved|);
    assert w.resolved[..|w.resolved|] == w.resolved;
    AssembleIdeal(env, brotli, w.resolved, MapSource(delayed), from, t.seed);
  }

  /** The delayed messages a window reads are delivered no later than its last block. */
  ghost predicate DeliveredInTime(env: Env, w: Window, from: nat) {
    from < Cursor(w.resolved, from) ==> Delivered(env.l1, w.toBlock, from, Cursor(w.resolved, from))
  }

  /** One window, on caches left by the earlier ones: its ideal messages, and caches ready for the next. */
  lemma {:induction false} DeriveIdeal(env: Env, brotli: Brotli, c: Caches, p: seq<Resolved>, w: Window,
      r: seq<Resolved>, start: nat,
      floor: nat) returns (next: nat)
    requires Decodes(env, brotli) && Injective(env) && env.l1.Valid() && Ready(env, c, p, start, floor)
    requires ReportsFine(env, p + w.resolved + r, start) && Ascending(w.resolved, Cursor(p, start))
    requires DeliveredInTime(env, w, Cursor(p, start))
    ensures var o := Derive(env, c, w, Cursor(p, start));
            && WindowMatches(o.result, Ideal(env, w.resolved, Cursor(p, start)), Cursor(w.resolved, Cursor(p, start)),
                |w.resolved|)
            && Ready(env, o.caches, p + w.resolved, start, next)
  {
    next := floor;
    var from := Cursor(p, start);
    var end := Cursor(w.resolved, from);
    IdealSplits(env, p, w.resolved, start);
    InRangeConcat(env, p, w.resolved);
    RecordedKeeps(env, c.reports, w.resolved);
    AscendingFromStart(w.resolved, from);
    if w.resolved == [] {
      assert p + w.resolved == p;
    } else if end <= from {
      QuietWindow(env, brotli, p, w, r, start);
    } else {
      CoverMeans(env.l1, c.delayed, floor, w.toBlock, from, end, w.span);
      assert Delivered(env.l1, Top(c.delayed, w.toBlock), from, end);
      var answer := Cover(Fetching(env.l1), c.delayed, w.toBlock, from, end, w.span);
      next := from;
      CoveredWindow(env, brotli, p, w, r, start, answer.result.value, Caches(answer.cache, Recorded(env, c.reports,
          w.resolved)));
    }
  }

  // ---------------------------------------------------------------- many windows and one call

  const FRESH: Caches := Caches(EMPTY, map[])

  datatype Progress = Progress(bodies: seq<FeedBody>, cursor: nat, caches: Caches)

  function BodiesOf(ms: seq<FeedMessage>): seq<FeedBody> {
    if ms == [] then [] else BodiesOf(ms[..|ms| - 1]) + [ms[|ms| - 1].body]
  }

  lemma {:induction false} BodiesOfNumbered(bodies: seq<FeedBody>, first: nat)
    ensures BodiesOf(Numbered(bodies, first)) == bodies
  {
    if bodies != [] {
      BodiesOfNumbered(bodies[..|bodies| - 1], first);
      assert Numbered(bodies, first)[..|bodies| - 1] == Numbered(bodies[..|bodies| - 1], first);
    }
  }

  /** Consecutive windows on the same two caches, each starting at the cursor the last one left. */
  function RunWindows(env: Env, ws: seq<Window>, start: nat): (r: Result<Progress, DeriveError>)
    ensures r.Ok? && r.value.caches.delayed.hi.Some? ==> r.value.caches.delayed.lo.Some?
  {
    if ws == [] then Ok(Progress([], start, FRESH))
    else
      var p := RunWindows(env, ws[..|ws| - 1], start);
      if p.Err? then p
      else
        var o := Derive(env, p.value.caches, ws[|ws| - 1], p.value.cursor);
        if o.result.Err? then Err(o.result.error)
        else Ok(Progress(p.value.bodies + BodiesOf(o.result.value.messages), o.result.value.cursor, o.caches))
  }

  function Flat(ws: seq<Window>): seq<Resolved> {
    if ws == [] then [] else Flat(ws[..|ws| - 1]) + ws[|ws| - 1].resolved
  }

  ghost predicate AllDelivered(env: Env, ws: seq<Window>, start: nat) {
    if ws == [] then true
    else
      AllDelivered(env, ws[..|ws| - 1], start) &&
      DeliveredInTime(env, ws[|ws| - 1], Cursor(Flat(ws[..|ws| - 1]), start))
  }

  ghost predicate RunMatches(env: Env, r: Result<Progress, DeriveError>, ideal: Result<seq<FeedBody>, DeriveError>,
      p: seq<Resolved>, start: nat, floor: nat)
  {
    if ideal.Err? then r == Err(ideal.error)
    else
      r.Ok? && r.value.bodies == ideal.value && r.value.cursor == Cursor(p, start) &&
      Ready(env, r.value.caches, p, start, floor)
  }

  lemma {:induction false} AscendingParts(p: seq<Resolved>, w: seq<Resolved>, start: nat)
    requires Ascending(p + w, start)
    ensures Ascending(p, start) && Ascending(w, Cursor(p, start))
    decreases |w|
  {
    if w == [] {
      assert p + w == p;
    } else {
      var init := w[..|w| - 1];
      assert (p + w)[..|p + w| - 1] == p + init;
      AscendingParts(p, init, start);
      assert Cursor(p + init, start) == Cursor(init, Cursor(p, start));
    }
  }

  lemma NextWindow(env: Env, brotli: Brotli, done: Progress, p: seq<Resolved>, w: Window, r: seq<Resolved>, start: nat,
      floor: nat) returns (next: nat)
    requires Decodes(env, brotli) && Injective(env) && env.l1.Valid()
    requires RunMatches(env, Ok(done), Ideal(env, p, start), p, start, floor) && Ideal(env, p, start).Ok?
    requires Ascending(p + w.resolved, start) && ReportsFine(env, p + w.resolved + r, start) &&
        DeliveredInTime(env, w, Cursor(p, start))
    ensures var o := Derive(env, done.caches, w, done.cursor);
            var after := if o.result.Err? then Err(o.result.error)
                else Ok(Progress(done.bodies + BodiesOf(o.result.value.messages), o.result.value.cursor, o.caches));
            RunMatches(env, after, Ideal(env, p + w.resolved, start), p + w.resolved, start, next)
  {
    AscendingParts(p, w.resolved, start);
    next := DeriveIdeal(env, brotli, done.caches, p, w, r, start, floor);
    IdealSplits(env, p, w.resolved, start);
    var ideal := Ideal(env, w.resolved, Cursor(p, start));
    if ideal.Ok? {
      BodiesOfNumbered(ideal.value, 0);
    }
  }

  lemma {:induction false} WindowsIdeal(env: Env, brotli: Brotli, ws: seq<Window>, r: seq<Resolved>,
      start: nat) returns (floor: nat)
    requires Decodes(env, brotli) && Injective(env) && env.l1.Valid()
    requires Ascending(Flat(ws), start) && ReportsFine(env, Flat(ws) + r, start) && AllDelivered(env, ws, start)
    ensures RunMatches(env, RunWindows(env, ws, start), Ideal(env, Flat(ws), start), Flat(ws), start, floor)
    decreases |ws|
  {
    floor := 0;
    if ws != [] {
      var init, last := ws[..|ws| - 1], ws[|ws| - 1];
      var p := Flat(init);
      AscendingParts(p, last.resolved, start);
      assert p + last.resolved + r == p + (last.resolved + r);
      floor := WindowsIdeal(env, brotli, init, last.resolved + r, start);
      IdealSplits(env, p, last.resolved, start);
      if Ideal(env, p, start).Ok? {
        floor := NextWindow(env, brotli, RunWindows(env, init, start).value, p, last, r, start, floor);
      }
    }
  }

  lemma OneCallIdeal(env: Env, brotli: Brotli, w: Window, start: nat)
    requires Decodes(env, brotli) && Injective(env) && env.l1.Valid()
    requires Ascending(w.resolved, start) && ReportsFine(env, w.resolved, start) && DeliveredInTime(env, w, start)
    ensures WindowMatches(Derive(env, FRESH, w, start).result, Ideal(env, w.resolved, start), Cursor(w.resolved, start),
        |w.resolved|)
  {
    assert [] + w.resolved + [] == w.resolved;
    assert Cursor([], start) == start;
    var _ := DeriveIdeal(env, brotli, FRESH, [], w, [], start, 0);
  }

  lemma SameIdeal(env: Env, many: Result<Progress, DeriveError>, one: Result<Derived, DeriveError>,
      ideal: Result<seq<FeedBody>, DeriveError>, bs: seq<Resolved>, start: nat, floor: nat)
    requires RunMatches(env, many, ideal, bs, start, floor) && WindowMatches(one, ideal, Cursor(bs, start), |bs|)
    ensures if many.Err? then one == Err(many.error)
            else one.Ok? && BodiesOf(one.value.messages) == many.value.bodies && one.value.cursor == many.value.cursor
  {
    if ideal.Ok? {
      BodiesOfNumbered(ideal.value, 0);
    }
  }

  /**
    However a batch list is cut into consecutive windows, the messages apart from their numbering, the
    final cursor and the error, if any, are those of one call on the whole list.
  */
  lemma {:induction false} WindowsMatchOneCall(env: Env, brotli: Brotli, ws: seq<Window>, toBlock: nat, span: nat,
      start: nat)
    requires Decodes(env, brotli) && Injective(env) && env.l1.Valid()
    requires Ascending(Flat(ws), start) && ReportsFine(env, Flat(ws), start)
    requires AllDelivered(env, ws, start) && DeliveredInTime(env, Window(Flat(ws), toBlock, span), start)
    ensures var many, one :=
        RunWindows(env, ws, start), Derive(env, FRESH, Window(Flat(ws), toBlock, span), start).result;
            if many.Err? then one == Err(many.error)
            else one.Ok? && BodiesOf(one.value.messages) == many.value.bodies && one.value.cursor == many.value.cursor
  {
    assert Flat(ws) + [] == Flat(ws);
    var floor := WindowsIdeal(env, brotli, ws, [], start);
    var all := Window(Flat(ws), toBlock, span);
    OneCallIdeal(env, brotli, all, start);
    SameIdeal(env, RunWindows(env, ws, start), Derive(env, FRESH, all, start).result, Ideal(env, Flat(ws), start),
        Flat(ws), start, floor);
  }
}
