/**
  When one call does what successful windows did: exactly when everything it needs is delivered by its own
  last block and no report names a batch later than the one that reads it.
*/
module WindowSuccess {
  import opened Prelude
  import opened BatchFraming
  import opened Multiplexer
  import MultiplexerMeaning
  import opened DelayedCache
  import opened DelayedCacheRuns
  import opened Derivation
  import opened WindowDerivation
  import opened WindowEquivalence
  import opened ReportPrecedence

  // ---------------------------------------------------------------- an assembly that succeeded

  lemma {:induction false} SucceededKnown(env: Env, brotli: Brotli, bs: seq<Resolved>, delayed: Source, start: nat,
      seed: StatsMap)
    requires Decodes(env, brotli) && Assemble(env, bs, delayed, start, seed).Ok?
    requires Ascending(bs, start) && SourceAgrees(env, delayed, start, Cursor(bs, start))
    ensures ReportsKnown(env, bs, start, seed.Keys)
  {
    if bs != [] {
      var init := bs[..|bs| - 1];
      CursorOfPrefix(bs, start, |bs| - 1);
      PrefixAssembles(env, bs, delayed, start, seed, |bs| - 1);
      SucceededKnown(env, brotli, init, delayed, start, seed);
      forall i: nat | Cursor(init, start) <= i < Cursor(bs, start) && i < env.l1.count
        ensures Known(env.l1.message(i), seed.Keys + InRange(env, bs))
      {
        assert delayed(i) == Full(env.l1)(i);
        if IsReport(env.l1.message(i)) {
          AssembledReportsAreKnown(env, brotli, bs, delayed, start, seed, |bs| - 1, i);
          assert bs[..|bs|] == bs;
        }
      }
    }
  }

  /** An assembly that succeeds on consistent statistics has produced the ideal messages. */
  lemma {:induction false} SucceededIdeal(env: Env, brotli: Brotli, bs: seq<Resolved>, delayed: Source, start: nat,
      seed: StatsMap)
    requires Decodes(env, brotli) && Injective(env) && Consistent(env, seed)
    requires Ascending(bs, start) && SourceAgrees(env, delayed, start, Cursor(bs, start))
    requires Assemble(env, bs, delayed, start, seed).Ok?
    ensures Ideal(env, bs, start).Ok?
    ensures Assemble(env, bs, delayed, start, seed).value.out == Numbered(Ideal(env, bs, start).value, 0)
  {
    SucceededKnown(env, brotli, bs, delayed, start, seed);
    AssembleIdeal(env, brotli, bs, delayed, start, seed);
  }

  // ---------------------------------------------------------------- where a report's statistics come from

  predicate Names(m: DelayedMessage, hash: Bytes) {
    IsReport(m) && |m.data| >= 84 && m.data[52..84] == hash
  }

  /** One of the messages `from..end` is a report on `hash` that L1 can answer. */
  ghost predicate Answered(env: Env, from: nat, end: nat, hash: Bytes) {
    exists k: nat :: from <= k < end && Names(env.l1.message(k), hash) &&
        ReportedStats(env, env.l1.message(k), hash).Ok?
  }

  lemma AnsweredWider(env: Env, from: nat, end: nat, lower: nat, higher: nat, hash: Bytes)
    requires lower <= from && end <= higher && Answered(env, from, end, hash)
    ensures Answered(env, lower, higher, hash)
  {
  }

  /** The report at `i` can be parsed and its hash is known, or was answered at `i` or before. */
  ghost predicate Sourced(env: Env, from: nat, i: nat, known: set<Bytes>) {
    var m := env.l1.message(i);
    IsReport(m) ==> |m.data| >= 84 && (m.data[52..84] in known || Answered(env, from, i + 1, m.data[52..84]))
  }

  /** The messages are L1's own. */
  ghost predicate OwnMessages(env: Env, delayed: Messages, from: nat, end: nat) {
    from <= end && forall i: nat :: from <= i < end ==> i in delayed && delayed[i] == env.l1.message(i)
  }

  lemma {:induction false} SeedConsistent(env: Env, delayed: Messages, from: nat, end: nat, inRange: set<Bytes>,
      s: Seeding)
    requires Injective(env) && OwnMessages(env, delayed, from, end)
    requires Consistent(env, s.seed) && Consistent(env, s.reports)
    ensures var t := Seed(env, delayed, from, end, inRange, s); Consistent(env, t.seed) && Consistent(env, t.reports)
    decreases end - from
  {
    if from < end && s.error.None? {
      var m := delayed[from];
      if IsReport(m) && |m.data| >= 84 && ReportedStats(env, m, m.data[52..84]).Ok? {
        ReportedConsistent(env, m, m.data[52..84]);
      }
      SeedConsistent(env, delayed, from + 1, end, inRange, SeedOne(env, m, inRange, s));
    }
  }

  function KnownTo(inRange: set<Bytes>, s: Seeding): set<Bytes> {
    inRange + s.seed.Keys + s.reports.Keys
  }

  lemma SeedOneLearns(env: Env, from: nat, inRange: set<Bytes>, s: Seeding, hash: Bytes)
    requires s.error.None? && SeedOne(env, env.l1.message(from), inRange, s).error.None?
    ensures var t := SeedOne(env, env.l1.message(from), inRange, s);
            && (hash in t.reports ==> hash in s.reports || Answered(env, from, from + 1, hash))
            && (hash in KnownTo(inRange, t) ==> hash in KnownTo(inRange, s) || Answered(env, from, from + 1, hash))
  {
    var m := env.l1.message(from);
    assert Names(m, hash) && ReportedStats(env, m, hash).Ok? ==> Answered(env, from, from + 1, hash);
  }

  /** What a seeding that ran through says about one report, and about what it learned. */
  lemma {:induction false} SeedAnswers(env: Env, delayed: Messages, from: nat, end: nat, inRange: set<Bytes>,
      s: Seeding, i: nat)
    requires OwnMessages(env, delayed, from, end) && Seed(env, delayed, from, end, inRange, s).error.None?
    requires from <= i < end
    ensures Sourced(env, from, i, KnownTo(inRange, s))
    decreases end - from
  {
    var m := env.l1.message(from);
    assert delayed[from] == m;
    var t := SeedOne(env, m, inRange, s);
    if i == from {
      assert IsReport(m) ==> |m.data| >= 84;
      if IsReport(m) {
        SeedOneLearns(env, from, inRange, s, m.data[52..84]);
      }
    } else {
      SeedAnswers(env, delayed, from + 1, end, inRange, t, i);
      var n := env.l1.message(i);
      if IsReport(n) {
        SeedOneLearns(env, from, inRange, s, n.data[52..84]);
      }
    }
  }

  lemma {:induction false} SeedLearns(env: Env, delayed: Messages, from: nat, end: nat, inRange: set<Bytes>,
      s: Seeding, hash: Bytes)
    requires OwnMessages(env, delayed, from, end) && Seed(env, delayed, from, end, inRange, s).error.None?
    requires hash in Seed(env, delayed, from, end, inRange, s).reports
    ensures hash in s.reports || Answered(env, from, end, hash)
    decreases end - from
  {
    if from < end {
      assert delayed[from] == env.l1.message(from);
      var t := SeedOne(env, env.l1.message(from), inRange, s);
      SeedLearns(env, delayed, from + 1, end, inRange, t, hash);
      SeedOneLearns(env, from, inRange, s, hash);
    }
  }

  // ---------------------------------------------------------------- a window that succeeded

  /** Every report of the list can be parsed, and names a batch of the list or was answered by then. */
  ghost predicate AllSourced(env: Env, bs: seq<Resolved>, start: nat) {
    && Cursor(bs, start) <= Max(start, env.l1.count)
    && forall i: nat :: start <= i < Cursor(bs, start) ==> Sourced(env, start, i, InRange(env, bs))
  }

  /** The caches after the batches `p`: every hash is a batch of `p` or was answered. */
  ghost predicate Learned(env: Env, c: Caches, p: seq<Resolved>, start: nat, floor: nat) {
    && Inv(env.l1, c.delayed, floor) && floor <= Cursor(p, start) && Consistent(env, c.reports)
    && forall hash :: hash in c.reports ==> hash in InRange(env, p) || Answered(env, start, Cursor(p, start), hash)
  }

  lemma SourcedFrom(env: Env, start: nat, from: nat, i: nat, known: set<Bytes>, wider: set<Bytes>)
    requires start <= from <= i && Sourced(env, from, i, known)
    requires forall hash <- known :: hash in wider || Answered(env, start, from, hash)
    ensures Sourced(env, start, i, wider)
  {
    var m := env.l1.message(i);
    if IsReport(m) {
      if Answered(env, from, i + 1, m.data[52..84]) {
        AnsweredWider(env, from, i + 1, start, i + 1, m.data[52..84]);
      }
    }
  }

  lemma SourcedWider(env: Env, start: nat, i: nat, known: set<Bytes>, wider: set<Bytes>)
    requires Sourced(env, start, i, known) && known <= wider
    ensures Sourced(env, start, i, wider)
  {
  }

  /** The reports read in one window are sourced, and so is what it added to the cache. */
  lemma {:induction false} CoveredLearns(env: Env, c: Caches, p: seq<Resolved>, w: seq<Resolved>, start: nat, from: nat,
      end: nat, delayed: Messages)
    requires start <= from < end && OwnMessages(env, delayed, from, end)
    requires forall hash :: hash in c.reports ==> hash in InRange(env, p + w) || Answered(env, start, from, hash)
    requires InRange(env, w) <= InRange(env, p + w)
    requires Seed(env, delayed, from, end, InRange(env, w), Seeding(map[], c.reports, None)).error.None?
    ensures forall i: nat :: from <= i < end ==> Sourced(env, start, i, InRange(env, p + w))
    ensures forall hash ::
        hash in Seed(env, delayed, from, end, InRange(env, w), Seeding(map[], c.reports, None)).reports ==>
              hash in InRange(env, p + w) || Answered(env, start, end, hash)
  {
    var s := Seeding(map[], c.reports, None);
    var t := Seed(env, delayed, from, end, InRange(env, w), s);
    forall i: nat | from <= i < end ensures Sourced(env, start, i, InRange(env, p + w)) {
      SeedAnswers(env, delayed, from, end, InRange(env, w), s, i);
      SourcedFrom(env, start, from, i, KnownTo(InRange(env, w), s), InRange(env, p + w));
    }
    forall hash | hash in t.reports ensures hash in InRange(env, p + w) || Answered(env, start, end, hash) {
      SeedLearns(env, delayed, from, end, InRange(env, w), s, hash);
      if Answered(env, start, from, hash) {
        AnsweredWider(env, start, from, start, end, hash);
      }
      if Answered(env, from, end, hash) {
        AnsweredWider(env, from, end, start, end, hash);
      }
    }
  }

  lemma AllSourcedJoins(env: Env, p: seq<Resolved>, w: seq<Resolved>, start: nat, from: nat, end: nat)
    requires AllSourced(env, p, start) && from == Cursor(p, start) && end == Cursor(p + w, start)
    requires end <= Max(start, env.l1.count)
    requires forall i: nat :: from <= i < end ==> Sourced(env, start, i, InRange(env, p + w))
    ensures AllSourced(env, p + w, start)
  {
    InRangeConcat(env, p, w);
    forall i: nat | start <= i < end ensures Sourced(env, start, i, InRange(env, p + w)) {
      if i < from {
        SourcedWider(env, start, i, InRange(env, p), InRange(env, p + w));
      }
    }
  }

  /** What a window's success leaves behind. */
  ghost predicate Succeeded(env: Env, o: Outcome, p: seq<Resolved>, w: seq<Resolved>, start: nat, next: nat) {
    && o.result.Ok? && Ideal(env, w, Cursor(p, start)).Ok?
    && o.result.value.messages == Numbered(Ideal(env, w, Cursor(p, start)).value, 0)
    && o.result.value.cursor == Cursor(p + w, start)
    && AllSourced(env, p + w, start) && Learned(env, o.caches, p + w, start, next)
  }

  lemma RecordedLearned(env: Env, c: Caches, p: seq<Resolved>, w: seq<Resolved>, start: nat, floor: nat)
    requires Injective(env) && Learned(env, c, p, start, floor)
    ensures var reports := Recorded(env, c.reports, w);
            && Consistent(env, reports) && InRange(env, w) <= InRange(env, p + w)
            && forall hash :: hash in reports ==>
                 hash in InRange(env, p + w) || Answered(env, start, Cursor(p, start), hash)
  {
    InRangeConcat(env, p, w);
    RecordedKeeps(env, c.reports, w);
  }

  lemma QuietSucceeded(env: Env, brotli: Brotli, c: Caches, p: seq<Resolved>, w: Window, start: nat, floor: nat)
    requires Decodes(env, brotli) && Injective(env) && AllSourced(env, p, start) && Learned(env, c, p, start, floor)
    requires Ascending(w.resolved, Cursor(p, start)) && w.resolved != []
    requires Cursor(w.resolved, Cursor(p, start)) <= Cursor(p, start) == Cursor(p + w.resolved, start)
    requires Derive(env, c, w, Cursor(p, start)).result.Ok?
    ensures Succeeded(env, Derive(env, c, w, Cursor(p, start)), p, w.resolved, start, floor)
  {
    var from := Cursor(p, start);
    RecordedLearned(env, c, p, w.resolved, start, floor);
    SucceededIdeal(env, brotli, w.resolved, NO_DELAYED, from, map[]);
    AllSourcedJoins(env, p, w.resolved, start, from, from);
  }

  lemma RangeIsOwn(env: Env, delayed: Messages, from: nat, end: nat)
    requires from <= end && IsRange(env.l1, delayed, from, end)
    ensures OwnMessages(env, delayed, from, end) && SourceAgreesBelow(env, delayed, from, end)
  {
  }

  ghost predicate SourceAgreesBelow(env: Env, delayed: Messages, from: nat, end: nat) {
    end <= env.l1.count ==> SourceAgrees(env, MapSource(delayed), from, end)
  }

  lemma CoveredSucceeded(env: Env, brotli: Brotli, c: Caches, p: seq<Resolved>, w: Window, start: nat, from: nat,
      end: nat, delayed: Messages)
    requires Decodes(env, brotli) && Injective(env) && AllSourced(env, p, start) && Consistent(env, c.reports)
    requires from == Cursor(p, start) && end == Cursor(w.resolved, from) == Cursor(p + w.resolved, start)
    requires start <= from < end <= env.l1.count && IsRange(env.l1, delayed, from, end)
    requires Ascending(w.resolved, from) && InRange(env, w.resolved) <= InRange(env, p + w.resolved)
    requires forall hash :: hash in c.reports ==>
        hash in InRange(env, p + w.resolved) || Answered(env, start, from, hash)
    requires Inv(env.l1, c.delayed, from) && DeriveCovered(env, w, from, end, delayed, c).result.Ok?
    ensures Succeeded(env, DeriveCovered(env, w, from, end, delayed, c), p, w.resolved, start, from)
  {
    var inRange, s := InRange(env, w.resolved), Seeding(map[], c.reports, None);
    var t := Seed(env, delayed, from, end, inRange, s);
    RangeIsOwn(env, delayed, from, end);
    SeedConsistent(env, delayed, from, end, inRange, s);
    SucceededIdeal(env, brotli, w.resolved, MapSource(delayed), from, t.seed);
    CoveredLearns(env, c, p, w.resolved, start, from, end, delayed);
    AllSourcedJoins(env, p, w.resolved, start, from, end);
  }

  lemma {:induction false} WindowSucceeded(env: Env, brotli: Brotli, c: Caches, p: seq<Resolved>, w: Window, start: nat,
      floor: nat) returns (next: nat)
    requires Decodes(env, brotli) && Injective(env) && AllSourced(env, p, start) && Learned(env, c, p, start, floor)
    requires Ascending(p + w.resolved, start) && Derive(env, c, w, Cursor(p, start)).result.Ok?
    ensures Succeeded(env, Derive(env, c, w, Cursor(p, start)), p, w.resolved, start, next)
  {
    next := floor;
    var from := Cursor(p, start);
    var end := Cursor(w.resolved, from);
    AscendingParts(p, w.resolved, start);
    AscendingFromStart(p, start);
    IdealSplits(env, p, w.resolved, start);
    if w.resolved == [] {
      assert p + w.resolved == p;
    } else if end <= from {
      AscendingFromStart(w.resolved, from);
      QuietSucceeded(env, brotli, c, p, w, start, floor);
    } else {
      next := from;
      var answer := Cover(Fetching(env.l1), c.delayed, w.toBlock, from, end, w.span);
      SuccessIsCovered(env, c, w, from, end, answer);
      CoverMeans(env.l1, c.delayed, floor, w.toBlock, from, end, w.span);
      RecordedLearned(env, c, p, w.resolved, start, floor);
      CoveredSucceeded(env, brotli, Caches(answer.cache, Recorded(env, c.reports, w.resolved)), p, w, start, from, end,
          answer.result.value);
    }
  }

  /** Windows that succeed derive the ideal messages, and every report they read is sourced. */
  lemma {:induction false} WindowsSucceeded(env: Env, brotli: Brotli, ws: seq<Window>, start: nat) returns (floor: nat)
    requires Decodes(env, brotli) && Injective(env) && Ascending(Flat(ws), start) && RunWindows(env, ws, start).Ok?
    ensures var done := RunWindows(env, ws, start).value;
            && Ideal(env, Flat(ws), start) == Ok(done.bodies) && done.cursor == Cursor(Flat(ws), start)
            && AllSourced(env, Flat(ws), start) && Learned(env, done.caches, Flat(ws), start, floor)
    decreases |ws|
  {
    floor := 0;
    if ws != [] {
      var init, last := ws[..|ws| - 1], ws[|ws| - 1];
      var p := Flat(init);
      AscendingParts(p, last.resolved, start);
      floor := WindowsSucceeded(env, brotli, init, start);
      var done := RunWindows(env, init, start).value;
      floor := WindowSucceeded(env, brotli, done.caches, p, last, start, floor);
      IdealSplits(env, p, last.resolved, start);
      BodiesOfNumbered(Ideal(env, last.resolved, Cursor(p, start)).value, 0);
    }
  }

  // ---------------------------------------------------------------- one call

  /** Every report batch `j` reads precedes: it names no batch of the list after `j`. */
  ghost predicate PrecedeAt(env: Env, bs: seq<Resolved>, start: nat, j: nat)
    requires j < |bs|
  {
    forall i: nat :: Cursor(bs[..j], start) <= i < bs[j].header.afterDelayedMessages && IsReport(env.l1.message(i)) ==>
      Precedes(env, bs, j, env.l1.message(i))
  }

  ghost predicate AllPrecede(env: Env, bs: seq<Resolved>, start: nat) {
    forall j :: 0 <= j < |bs| ==> PrecedeAt(env, bs, start, j)
  }

  lemma {:induction false} PrecedeKnown(env: Env, bs: seq<Resolved>, start: nat, seed: set<Bytes>, n: nat)
    requires Ascending(bs, start) && AllPrecede(env, bs, start) && n <= |bs|
    requires KnownBetween(env, start, Cursor(bs, start), InRange(env, bs) + seed)
    ensures ReportsKnown(env, bs[..n], start, seed)
    decreases n
  {
    if n > 0 {
      PrecedeKnown(env, bs, start, seed, n - 1);
      assert bs[..n][..n - 1] == bs[..n - 1];
      CursorOfPrefix(bs, start, n - 1);
      CursorOfPrefix(bs, start, n);
      assert PrecedeAt(env, bs, start, n - 1);
      forall i: nat | Cursor(bs[..n - 1], start) <= i < Cursor(bs[..n], start) && i < env.l1.count
        ensures Known(env.l1.message(i), seed + InRange(env, bs[..n]))
      {
        assert Known(env.l1.message(i), InRange(env, bs) + seed);
      }
    }
  }

  lemma AnsweredHere(env: Env, from: nat, hash: Bytes)
    requires Answered(env, from, from + 1, hash)
    ensures ReportedStats(env, env.l1.message(from), hash).Ok?
  {
  }

  lemma AnsweredLater(env: Env, from: nat, end: nat, hash: Bytes)
    requires Answered(env, from, end, hash) && !Names(env.l1.message(from), hash)
    ensures Answered(env, from + 1, end, hash)
  {
  }

  /** Seeding runs through when every report is sourced. */
  lemma {:induction false} SourcedSeeds(env: Env, delayed: Messages, from: nat, end: nat, inRange: set<Bytes>,
      s: Seeding)
    requires Injective(env) && SeedingOk(env, s) && OwnMessages(env, delayed, from, end)
    requires forall i: nat :: from <= i < end ==> Sourced(env, from, i, KnownTo(inRange, s))
    ensures var t := Seed(env, delayed, from, end, inRange, s);
            && SeedingOk(env, t) && s.seed.Keys <= t.seed.Keys
            && forall i: nat :: from <= i < end ==> Known(env.l1.message(i), inRange + t.seed.Keys)
    decreases end - from
  {
    if from < end {
      var m := env.l1.message(from);
      assert delayed[from] == m && Sourced(env, from, from, KnownTo(inRange, s));
      if IsReport(m) && m.data[52..84] !in KnownTo(inRange, s) {
        AnsweredHere(env, from, m.data[52..84]);
      }
      SeedOneSourced(env, m, inRange, s);
      var t, next := SeedOne(env, m, inRange, s), from + 1;
      forall i: nat | next <= i < end ensures Sourced(env, next, i, KnownTo(inRange, t)) {
        assert Sourced(env, from, i, KnownTo(inRange, s));
        SourcedPastFirst(env, from, i, inRange, s, t);
      }
      SourcedSeeds(env, delayed, next, end, inRange, t);
    }
  }

  lemma SeedOneSourced(env: Env, m: DelayedMessage, inRange: set<Bytes>, s: Seeding)
    requires Injective(env) && SeedingOk(env, s) && Seedable(env, m, KnownTo(inRange, s))
    ensures var t := SeedOne(env, m, inRange, s);
            && SeedingOk(env, t) && s.seed.Keys <= t.seed.Keys && KnownTo(inRange, s) <= KnownTo(inRange, t)
            && Known(m, inRange + t.seed.Keys)
  {
    if IsReport(m) && m.data[52..84] !in KnownTo(inRange, s) {
      ReportedConsistent(env, m, m.data[52..84]);
    }
  }

  lemma SourcedPastFirst(env: Env, from: nat, i: nat, inRange: set<Bytes>, s: Seeding, t: Seeding)
    requires from < i && Sourced(env, from, i, KnownTo(inRange, s)) && KnownTo(inRange, s) <= KnownTo(inRange, t)
    requires Known(env.l1.message(from), inRange + t.seed.Keys)
    ensures Sourced(env, from + 1, i, KnownTo(inRange, t))
  {
    var n := env.l1.message(i);
    if IsReport(n) && n.data[52..84] !in KnownTo(inRange, t) {
      AnsweredLater(env, from, i + 1, n.data[52..84]);
    }
  }

  lemma CoveredCall(env: Env, brotli: Brotli, w: Window, start: nat, end: nat, delayed: Messages, cache: Cache)
    requires Decodes(env, brotli) && Injective(env) && Ascending(w.resolved, start)
    requires AllSourced(env, w.resolved, start) && AllPrecede(env, w.resolved, start)
    requires end == Cursor(w.resolved, start) && start < end <= env.l1.count && IsRange(env.l1, delayed, start, end)
    ensures WindowMatches(
                DeriveCovered(env, w, start, end, delayed, Caches(cache, Recorded(env, map[], w.resolved))).result,
                Ideal(env, w.resolved, start), end, |w.resolved|)
  {
    var bs, inRange := w.resolved, InRange(env, w.resolved);
    var s := Seeding(map[], Recorded(env, map[], bs), None);
    RecordedKeeps(env, map[], bs);
    RangeIsOwn(env, delayed, start, end);
    forall i: nat | start <= i < end ensures Sourced(env, start, i, KnownTo(inRange, s)) {
      SourcedWider(env, start, i, inRange, KnownTo(inRange, s));
    }
    SourcedSeeds(env, delayed, start, end, inRange, s);
    var t := Seed(env, delayed, start, end, inRange, s);
    PrecedeKnown(env, bs, start, t.seed.Keys, |bs|);
    assert bs[..|bs|] == bs;
    AssembleIdeal(env, brotli, bs, MapSource(delayed), start, t.seed);
  }

  lemma QuietCall(env: Env, brotli: Brotli, w: Window, start: nat)
    requires Decodes(env, brotli) && Injective(env) && Ascending(w.resolved, start)
    requires AllPrecede(env, w.resolved, start) && Cursor(w.resolved, start) <= start
    ensures Matches(env, Assemble(env, w.resolved, NO_DELAYED, start, map[]), Ideal(env, w.resolved, start),
                Cursor(w.resolved, start), InRange(env, w.resolved))
  {
    var bs, none: StatsMap := w.resolved, map[];
    assert bs[..|bs|] == bs && none.Keys == {} && {} + InRange(env, bs) == InRange(env, bs);
    PrecedeKnown(env, bs, start, {}, |bs|);
    AssembleIdeal(env, brotli, bs, NO_DELAYED, start, none);
  }

  lemma CoveredIs(env: Env, w: Window, start: nat, end: nat, answer: Answer)
    requires w.resolved != [] && start < end == Cursor(w.resolved, start)
    requires answer == Cover(Fetching(env.l1), EMPTY, w.toBlock, start, end, w.span) && answer.result.Ok?
    ensures Derive(env, FRESH, w, start) ==
            DeriveCovered(env, w, start, end, answer.result.value,
                Caches(answer.cache, Recorded(env, map[], w.resolved)))
  {
  }

  /** With everything delivered and sourced and no report ahead of its batch, one call derives the ideal. */
  lemma {:induction false} OneCallSucceeds(env: Env, brotli: Brotli, w: Window, start: nat)
    requires Decodes(env, brotli) && Injective(env) && Ascending(w.resolved, start)
    requires AllSourced(env, w.resolved, start) && AllPrecede(env, w.resolved, start) && DeliveredInTime(env, w, start)
    ensures WindowMatches(Derive(env, FRESH, w, start).result, Ideal(env, w.resolved, start),
                Cursor(w.resolved, start), |w.resolved|)
  {
    var end := Cursor(w.resolved, start);
    AscendingFromStart(w.resolved, start);
    if w.resolved != [] && end <= start {
      QuietCall(env, brotli, w, start);
    } else if w.resolved != [] {
      CoverMeans(env.l1, EMPTY, 0, w.toBlock, start, end, w.span);
      var answer := Cover(Fetching(env.l1), EMPTY, w.toBlock, start, end, w.span);
      CoveredCall(env, brotli, w, start, end, answer.result.value, answer.cache);
      CoveredIs(env, w, start, end, answer);
    }
  }

  lemma SuccessIsDelivered(env: Env, w: Window, start: nat)
    requires Derive(env, FRESH, w, start).result.Ok?
    ensures DeliveredInTime(env, w, start)
  {
    var end := Cursor(w.resolved, start);
    if start < end {
      SuccessIsCovered(env, FRESH, w, start, end, Cover(Fetching(env.l1), EMPTY, w.toBlock, start, end, w.span));
      CoverMeans(env.l1, EMPTY, 0, w.toBlock, start, end, w.span);
    }
  }

  /**
    However a batch list was cut into windows that succeeded: one call on the whole list succeeds if and
    only if everything it needs is delivered by its last block and every report precedes, and then it
    derives the same messages and ends at the same cursor.
  */
  lemma {:induction false} OneCallAgreesIff(env: Env, brotli: Brotli, ws: seq<Window>, toBlock: nat, span: nat,
      start: nat)
    requires Decodes(env, brotli) && Injective(env) && Ascending(Flat(ws), start) && RunWindows(env, ws, start).Ok?
    ensures var all := Window(Flat(ws), toBlock, span);
            var many, one := RunWindows(env, ws, start).value, Derive(env, FRESH, all, start).result;
            && (one.Ok? <==> DeliveredInTime(env, all, start) && AllPrecede(env, Flat(ws), start))
            && (one.Ok? ==> BodiesOf(one.value.messages) == many.bodies && one.value.cursor == many.cursor)
  {
    var all := Window(Flat(ws), toBlock, span);
    var floor := WindowsSucceeded(env, brotli, ws, start);
    if Derive(env, FRESH, all, start).result.Ok? {
      SuccessIsDelivered(env, all, start);
      SuccessPrecedes(env, brotli, all, start);
    }
    if DeliveredInTime(env, all, start) && AllPrecede(env, Flat(ws), start) {
      OneCallSucceeds(env, brotli, all, start);
      BodiesOfNumbered(Ideal(env, Flat(ws), start).value, 0);
    }
  }

  lemma SuccessPrecedes(env: Env, brotli: Brotli, w: Window, start: nat)
    requires Decodes(env, brotli) && Ascending(w.resolved, start) && Derive(env, FRESH, w, start).result.Ok?
    ensures AllPrecede(env, w.resolved, start)
  {
    EmptyInv(env.l1);
    forall j, i: nat | 0 <= j < |w.resolved| &&
        Cursor(w.resolved[..j], start) <= i < w.resolved[j].header.afterDelayedMessages
        && IsReport(env.l1.message(i))
      ensures Precedes(env, w.resolved, j, env.l1.message(i))
    {
      SuccessNeedsPrecedence(env, brotli, FRESH, 0, w, start, j, i);
    }
  }

  // ---------------------------------------------------------------- a report on a later batch

  /** The one delayed message, read by `b`, is a report on the next batch `c`, which L1 can look up. */
  ghost predicate ReportsAhead(env: Env, b: Resolved, c: Resolved) {
    && env.l1.count == 1 && env.l1.block(0) == 0
    && b.header.afterDelayedMessages == 1 && c.header.afterDelayedMessages == 1 && b.payload == [] && c.payload == []
    && DataHash(env, b) != DataHash(env, c)
    && Names(env.l1.message(0), DataHash(env, c)) && ReportedStats(env, env.l1.message(0), DataHash(env, c)).Ok?
  }

  /** A batch without segments emits the delayed messages up to its cursor. */
  lemma EmptyBatchDecodes(env: Env, brotli: Brotli, b: Resolved, before: nat, delayed: Source)
    requires Decodes(env, brotli) && b.payload == []
    requires forall i: nat :: before <= i < b.header.afterDelayedMessages ==> delayed(i).Some?
    ensures env.decode(b, before, delayed).Ok?
    ensures b.header.afterDelayedMessages <= before ==> env.decode(b, before, delayed).value == []
  {
    assert env.decode(b, before, delayed) == BatchMessages(brotli, b, before, delayed);
    MultiplexerMeaning.ExtractMeans(Batch(b.header, brotli, delayed), before, Actions(brotli, []));
  }

  lemma SingleBatch(env: Env, b: Resolved, start: nat)
    ensures Cursor([b], start) == b.header.afterDelayedMessages && InRange(env, [b]) == {DataHash(env, b)}
    ensures Ascending([b], start) <==> start <= b.header.afterDelayedMessages
    ensures Ideal(env, [b], start) == IdealNext(env, [], b, start)
  {
    assert [b][..0] == [];
    assert InRange(env, []) == {};
  }

  lemma EarlierSourced(env: Env, b: Resolved, c: Resolved)
    requires ReportsAhead(env, b, c)
    ensures AllSourced(env, [b], 0) && AllPrecede(env, [b], 0) && DeliveredInTime(env, Window([b], 0, 1), 0)
  {
    SingleBatch(env, b, 0);
    assert [b][..1] == [b];
    assert Answered(env, 0, 1, DataHash(env, c));
  }

  lemma EarlierWindow(env: Env, brotli: Brotli, b: Resolved, c: Resolved)
    requires Decodes(env, brotli) && Injective(env) && ReportsAhead(env, b, c)
    ensures var o := Derive(env, FRESH, Window([b], 0, 1), 0); o.result.Ok? && o.result.value.cursor == 1
  {
    EarlierSourced(env, b, c);
    SingleBatch(env, b, 0);
    EmptyBatchDecodes(env, brotli, b, 0, Full(env.l1));
    OneCallSucceeds(env, brotli, Window([b], 0, 1), 0);
  }

  lemma LaterWindow(env: Env, brotli: Brotli, c: Resolved, caches: Caches)
    requires Decodes(env, brotli) && c.payload == [] && c.header.afterDelayedMessages == 1
    requires caches.delayed.hi.Some? ==> caches.delayed.lo.Some?
    ensures Derive(env, caches, Window([c], 0, 1), 1).result.Ok?
  {
    EmptyBatchDecodes(env, brotli, c, 1, NO_DELAYED);
    assert [c][..0] == [];
    var a := Assembly(map[], 1, 0, []);
    assert Assemble(env, [], NO_DELAYED, 1, map[]) == Ok(a);
    assert AssembleStep(env, NO_DELAYED, a, c).Ok?;
  }

  lemma OneMoreWindow(env: Env, ws: seq<Window>, w: Window, start: nat, done: Progress, o: Outcome)
    requires RunWindows(env, ws, start) == Ok(done) && o.result.Ok?
    requires (done.caches.delayed.hi.Some? ==> done.caches.delayed.lo.Some?) &&
        o == Derive(env, done.caches, w, done.cursor)
    ensures RunWindows(env, ws + [w], start) ==
            Ok(Progress(done.bodies + BodiesOf(o.result.value.messages), o.result.value.cursor, o.caches))
    ensures Flat(ws + [w]) == Flat(ws) + w.resolved
  {
    var all := ws + [w];
    assert all[..|all| - 1] == ws && all[|all| - 1] == w;
  }

  lemma TwoWindows(env: Env, first: Window, second: Window, o: Outcome)
    requires o == Derive(env, FRESH, first, 0) && o.result.Ok? && o.result.value.cursor == 1
    requires Derive(env, o.caches, second, 1).result.Ok?
    ensures RunWindows(env, [first, second], 0).Ok? && Flat([first, second]) == first.resolved + second.resolved
  {
    assert [] + [first] == [first] && [first] + [second] == [first, second] && [] + first.resolved == first.resolved;
    OneMoreWindow(env, [], first, 0, Progress([], 0, FRESH), o);
    OneMoreWindow(env, [first], second, 0, Progress([] + BodiesOf(o.result.value.messages), 1, o.caches),
        Derive(env, o.caches, second, 1));
  }

  lemma AheadNotPreceding(env: Env, b: Resolved, c: Resolved)
    requires ReportsAhead(env, b, c)
    ensures Ascending([b, c], 0) && !AllPrecede(env, [b, c], 0)
  {
    var bs := [b, c];
    assert bs[..1] == [b] && bs[..0] == [];
    SingleBatch(env, b, 0);
    assert DataHash(env, c) in InRange(env, bs);
    assert !Precedes(env, bs, 0, env.l1.message(0));
    assert !PrecedeAt(env, bs, 0, 0);
  }

  /** Two windows succeed where one call on the same two batches does not: the first window reads the
      reported batch from L1, the one call expects it among the batches it has already passed. */
  lemma {:induction false} WindowsSucceedWhereOneCallFails(env: Env, brotli: Brotli, b: Resolved, c: Resolved)
    requires Decodes(env, brotli) && Injective(env) && ReportsAhead(env, b, c)
    ensures RunWindows(env, [Window([b], 0, 1), Window([c], 0, 1)], 0).Ok?
    ensures Derive(env, FRESH, Window([b, c], 0, 1), 0).result.Err?
  {
    var first, second := Window([b], 0, 1), Window([c], 0, 1);
    EarlierWindow(env, brotli, b, c);
    LaterWindow(env, brotli, c, Derive(env, FRESH, first, 0).caches);
    TwoWindows(env, first, second, Derive(env, FRESH, first, 0));
    AheadNotPreceding(env, b, c);
    assert [b] + [c] == [b, c];
    OneCallAgreesIff(env, brotli, [first, second], 0, 1, 0);
  }

  const ZEROS: Bytes := seq(32, _ => 0)
  const EARLIER: Resolved := Resolved(BatchHeader(0, 0, 0, 0, 1), NoData, [])
  const LATER: Resolved := Resolved(BatchHeader(0, 0, 0, 0, 1), Calldata(ZEROS), [])
  const REPORT: DelayedMessage := DelayedMessage(KIND_BATCH_POSTING_REPORT, 0, 0, 0, 0, 0, seq(116, _ => 0))

  /** Such a case, with the bytes themselves for their hash. */
  lemma {:induction false} ReportAheadExists(brotli: Brotli) returns (env: Env)
    ensures Decodes(env, brotli) && Injective(env) && env.l1.Valid() && ReportsAhead(env, EARLIER, LATER)
  {
    env := Env((b, before, delayed) => BatchMessages(brotli, b, before, delayed),
        (b: Resolved) => Footprint(b.location),
        s => s, L1(1, _ => 0, _ => REPORT), (_, _) => Some(ZEROS));
    assert REPORT.data[52..84] == ZEROS;
  }
}
