/**
  Deriving the feed messages of one L1 window from its resolved batches: batch statistics for posting
  reports, assembly in batch order, and the two caches threaded from window to window.
*/
module Derivation {
  import opened Prelude
  import opened Rlp
  import opened BatchFraming
  import opened Multiplexer
  import opened DelayedCache

  const KIND_BATCH_POSTING_REPORT: byte := 13
  const BLOB_HASHES_FLAG: byte := 0x50

  datatype Location = Calldata(data: Bytes) | BlobHashes(hashes: seq<Bytes>) | NoData

  /** A delivered batch with its resolved payload. */
  datatype Resolved = Resolved(header: BatchHeader, location: Location, payload: Bytes)

  datatype Stats = Stats(length: nat, nonZeros: nat)

  type StatsMap = map<Bytes, Stats>

  datatype FeedBody = FeedBody(message: DerivedMessage, stats: Option<Stats>)

  datatype FeedMessage = FeedMessage(sequence: nat, body: FeedBody)

  datatype DeriveError =
    | Framing(framing: FramingError)
    | Extraction(mux: MuxError)
    | Coverage(cover: CoverError)
    | ReportHashMissing
    | ReportNumberMissing
    | ReportStatsMissing
    | ReportedBatchMissing
    | ReportedHashMismatch

  type Source = nat -> Option<DelayedMessage>

  type Decoder = (Resolved, nat, Source) -> Result<seq<DerivedMessage>, DeriveError>

  /**
    What a window is derived with: the batch decoder and serializer, hashing, L1's delayed messages, and
    the batch posted at an L1 block under a given number.  `Decodes` says the decoder is the repository's;
    results hold for every serializer, of which `Serialize` is the repository's.
  */
  datatype Env = Env(
    decode: Decoder, serialize: Resolved -> Bytes, keccak: Bytes -> Bytes, l1: L1, posted: (nat, nat) -> Option<Bytes>)

  // ---------------------------------------------------------------- batch statistics

  function Flatten(hashes: seq<Bytes>): Bytes {
    if hashes == [] then [] else hashes[0] + Flatten(hashes[1..])
  }

  /** What a batch leaves on chain: its calldata, or the blob flag and the versioned hashes. */
  function Footprint(location: Location): Bytes {
    match location
    case Calldata(data) => data
    case BlobHashes(hashes) => [BLOB_HASHES_FLAG] + Flatten(hashes)
    case NoData => []
  }

  /** The bytes a posting report hashes. */
  function Serialize(b: Resolved): Bytes {
    SerializeHeader(b.header) + Footprint(b.location)
  }

  /** The serialized bytes determine header and footprint. */
  lemma {:induction false} SerializedIdentifies(a: Resolved, b: Resolved)
    requires Serialize(a) == Serialize(b)
    ensures a.header == b.header && Footprint(a.location) == Footprint(b.location)
  {
    HeaderRoundTrip(a.header, Footprint(a.location));
    HeaderRoundTrip(b.header, Footprint(b.location));
  }

  function NonZeros(s: Bytes): nat {
    if s == [] then 0 else (if s[0] != 0 then 1 else 0) + NonZeros(s[1..])
  }

  function StatsOf(s: Bytes): Stats {
    Stats(|s|, NonZeros(s))
  }

  function DataHash(env: Env, b: Resolved): Bytes {
    env.keccak(env.serialize(b))
  }

  function ReportDataHash(body: Bytes): Option<Bytes> {
    if |body| < 84 then None else Some(body[52..84])
  }

  function ReportBatchNum(body: Bytes): Option<nat> {
    if |body| < 116 then None else Some(FromBE(body[108..116]))
  }

  /** A report's body: time, poster, data hash, batch number, base fee, and optionally extra gas. */
  function ReportBody(time: Bytes, poster: Bytes, hash: Bytes, number: u64, baseFee: Bytes, extraGas: Bytes): Bytes {
    time + poster + hash + FixedBE(number, 32) + (baseFee + extraGas)
  }

  lemma {:induction false} LowBytes(n: nat, width: nat, low: nat)
    requires low <= width
    ensures FixedBE(n, width)[width - low..] == FixedBE(n, low)
    decreases low
  {
    if low > 0 {
      LowBytes(n / 256, width - 1, low - 1);
      var all := FixedBE(n, width);
      assert all[width - low..] == FixedBE(n / 256, width - 1)[width - low..] + [n % 256];
    }
  }

  /** The hash and the batch number are found where a report carries them. */
  lemma {:induction false} ReportFields(time: Bytes, poster: Bytes, hash: Bytes, number: u64, baseFee: Bytes,
      extraGas: Bytes)
    requires |time| == 32 && |poster| == 20 && |hash| == 32
    ensures var body := ReportBody(time, poster, hash, number, baseFee, extraGas);
            ReportDataHash(body) == Some(hash) && ReportBatchNum(body) == Some(number)
  {
    var word, tail := FixedBE(number, 32), baseFee + extraGas;
    var body := time + poster + hash + word + tail;
    assert body[52..84] == hash;
    LowBytes(number, 32, 8);
    assert body[108..116] == word[24..];
    EightBytes();
    FixedRoundTrip(number, 8);
  }

  /** The statistics of the batch a report names, read from L1 and checked against the report's hash. */
  function ReportedStats(env: Env, m: DelayedMessage, hash: Bytes): Result<Stats, DeriveError> {
    match ReportBatchNum(m.data)
    case None => Err(ReportNumberMissing)
    case Some(number) =>
      match env.posted(m.blockNumber, number)
      case None => Err(ReportedBatchMissing)
      case Some(s) => if env.keccak(s) != hash then Err(ReportedHashMismatch) else Ok(StatsOf(s))
  }

  // ---------------------------------------------------------------- one batch

  function ToFeed(m: DerivedMessage, sequence: nat, stats: StatsMap): Result<FeedMessage, DeriveError> {
    if m.header.kind != KIND_BATCH_POSTING_REPORT then Ok(FeedMessage(sequence, FeedBody(m, None)))
    else
      match ReportDataHash(m.l2Msg)
      case None => Err(ReportHashMissing)
      case Some(hash) => if hash in stats then Ok(FeedMessage(sequence, FeedBody(m, Some(stats[hash]))))
          else Err(ReportStatsMissing)
  }

  function FeedAll(ms: seq<DerivedMessage>, first: nat, stats: StatsMap): Result<seq<FeedMessage>, DeriveError> {
    if ms == [] then Ok([])
    else
      var init := FeedAll(ms[..|ms| - 1], first, stats);
      if init.Err? then init
      else
        var last := ToFeed(ms[|ms| - 1], first + |ms| - 1, stats);
        if last.Err? then Err(last.error) else Ok(init.value + [last.value])
  }

  function MapSource(m: Messages): Source {
    i => if i in m then Some(m[i]) else None
  }

  const NO_DELAYED: Source := i => None

  /** Payload to derived messages: framing, then the multiplexer. */
  function BatchMessages(brotli: Brotli, b: Resolved, before: nat, delayed: Source): Result<seq<DerivedMessage>,
      DeriveError> {
    var segments := PayloadSegments(brotli, b.payload);
    if segments.Err? then Err(Framing(segments.error))
    else
      var ms := Extract(Batch(b.header, brotli, delayed), before, Actions(brotli, segments.value));
      if ms.Err? then Err(Extraction(ms.error)) else Ok(ms.value)
  }

  ghost predicate Decodes(env: Env, brotli: Brotli) {
    forall b, before, delayed :: env.decode(b, before, delayed) == BatchMessages(brotli, b, before, delayed)
  }

  function BatchToFeed(env: Env, b: Resolved, before: nat, delayed: Source, stats: StatsMap,
      first: nat): Result<seq<FeedMessage>, DeriveError>
  {
    var ms := env.decode(b, before, delayed);
    if ms.Err? then Err(ms.error) else FeedAll(ms.value, first, stats)
  }

  lemma {:induction false} FeedFailureStays(ms: seq<DerivedMessage>, first: nat, stats: StatsMap, n: nat)
    requires n <= |ms| && FeedAll(ms[..n], first, stats).Err?
    ensures FeedAll(ms, first, stats) == FeedAll(ms[..n], first, stats)
    decreases |ms|
  {
    if n == |ms| {
      assert ms[..n] == ms;
    } else {
      assert ms[..|ms| - 1][..n] == ms[..n];
      FeedFailureStays(ms[..|ms| - 1], first, stats, n);
    }
  }

  method BatchToFeedMessages(env: Env, b: Resolved, before: nat, delayed: Source, stats: StatsMap,
      first: nat) returns (r: Result<seq<FeedMessage>, DeriveError>)
    ensures r == BatchToFeed(env, b, before, delayed, stats, first)
  {
    var derived := env.decode(b, before, delayed);
    if derived.Err? {
      return Err(derived.error);
    }
    var ms, out := derived.value, [];
    for i := 0 to |ms|
      invariant FeedAll(ms[..i], first, stats) == Ok(out)
    {
      assert ms[..i + 1][..i] == ms[..i];
      var m := ToFeed(ms[i], first + i, stats);
      if m.Err? {
        FeedFailureStays(ms, first, stats, i + 1);
        return Err(m.error);
      }
      out := out + [m.value];
    }
    assert ms[..|ms|] == ms;
    r := Ok(out);
  }

  // ---------------------------------------------------------------- a run of batches

  datatype Assembly = Assembly(stats: StatsMap, before: nat, next: nat, out: seq<FeedMessage>)

  function AssembleStep(env: Env, delayed: Source, a: Assembly, b: Resolved): Result<Assembly, DeriveError> {
    var stats := a.stats[DataHash(env, b) := StatsOf(env.serialize(b))];
    var ms := BatchToFeed(env, b, a.before, delayed, stats, a.next);
    if ms.Err? then Err(ms.error)
    else Ok(Assembly(stats, b.header.afterDelayedMessages, a.next + |ms.value|, a.out + ms.value))
  }

  function Assemble(env: Env, resolved: seq<Resolved>, delayed: Source, start: nat,
      seed: StatsMap): Result<Assembly, DeriveError>
  {
    if resolved == [] then Ok(Assembly(seed, start, 0, []))
    else
      var a := Assemble(env, resolved[..|resolved| - 1], delayed, start, seed);
      if a.Err? then a else AssembleStep(env, delayed, a.value, resolved[|resolved| - 1])
  }

  lemma {:induction false} AssembleFailureStays(env: Env, resolved: seq<Resolved>, delayed: Source, start: nat,
      seed: StatsMap, n: nat)
    requires n <= |resolved| && Assemble(env, resolved[..n], delayed, start, seed).Err?
    ensures Assemble(env, resolved, delayed, start, seed) == Assemble(env, resolved[..n], delayed, start, seed)
    decreases |resolved|
  {
    if n == |resolved| {
      assert resolved[..n] == resolved;
    } else {
      assert resolved[..|resolved| - 1][..n] == resolved[..n];
      AssembleFailureStays(env, resolved[..|resolved| - 1], delayed, start, seed, n);
    }
  }

  lemma AssembleUnfolds(env: Env, resolved: seq<Resolved>, delayed: Source, start: nat, seed: StatsMap, n: nat,
      a: Assembly, step: Result<Assembly, DeriveError>)
    requires n < |resolved| && Assemble(env, resolved[..n], delayed, start, seed) == Ok(a)
    requires step == AssembleStep(env, delayed, a, resolved[n])
    ensures Assemble(env, resolved[..n + 1], delayed, start, seed) == step
    ensures step.Err? ==> Assemble(env, resolved, delayed, start, seed) == step
  {
    assert resolved[..n + 1][..n] == resolved[..n];
    if step.Err? {
      AssembleFailureStays(env, resolved, delayed, start, seed, n + 1);
    }
  }

  function Assembled(a: Result<Assembly, DeriveError>): Result<seq<FeedMessage>, DeriveError> {
    if a.Err? then Err(a.error) else Ok(a.value.out)
  }

  method AssembleFeedMessages(env: Env, resolved: seq<Resolved>, delayed: Source, start: nat,
      seed: StatsMap) returns (r: Result<seq<FeedMessage>, DeriveError>)
    ensures r == Assembled(Assemble(env, resolved, delayed, start, seed))
  {
    var stats: StatsMap, before: nat, next: nat, out := seed, start, 0, [];
    for i := 0 to |resolved|
      invariant Assemble(env, resolved[..i], delayed, start, seed) == Ok(Assembly(stats, before, next, out))
    {
      var b := resolved[i];
      ghost var a := Assembly(stats, before, next, out);
      stats := stats[DataHash(env, b) := StatsOf(env.serialize(b))];
      var ms := BatchToFeedMessages(env, b, before, delayed, stats, next);
      AssembleUnfolds(env, resolved, delayed, start, seed, i, a, AssembleStep(env, delayed, a, b));
      if ms.Err? {
        return Err(ms.error);
      }
      next, out, before := next + |ms.value|, out + ms.value, b.header.afterDelayedMessages;
    }
    assert resolved[..|resolved|] == resolved;
    r := Ok(out);
  }

  // ---------------------------------------------------------------- statistics for reports on earlier batches

  /** The seed being built, the report cache, and the error that stopped the loop. */
  datatype Seeding = Seeding(seed: StatsMap, reports: StatsMap, error: Option<DeriveError>)

  function SeedOne(env: Env, m: DelayedMessage, inRange: set<Bytes>, s: Seeding): Seeding {
    if m.kind != KIND_BATCH_POSTING_REPORT then s
    else
      match ReportDataHash(m.data)
      case None => s.(error := Some(ReportHashMissing))
      case Some(hash) =>
        if hash in inRange || hash in s.seed then s
        else if hash in s.reports then s.(seed := s.seed[hash := s.reports[hash]])
        else
          match ReportedStats(env, m, hash)
          case Err(error) => s.(error := Some(error))
          case Ok(stats) => s.(seed := s.seed[hash := stats], reports := s.reports[hash := stats])
  }

  /** Over the delayed messages `from..end`, ascending. */
  function Seed(env: Env, delayed: Messages, from: nat, end: nat, inRange: set<Bytes>, s: Seeding): Seeding
    requires from <= end && forall i :: from <= i < end ==> i in delayed
    decreases end - from
  {
    if from == end || s.error.Some? then s
    else Seed(env, delayed, from + 1, end, inRange, SeedOne(env, delayed[from], inRange, s))
  }

  class ReportCache {
    var stats: StatsMap

    constructor ()
      ensures stats == map[]
    {
      stats := map[];
    }

    /** What the cache learned is kept even when a later report fails. */
    method SeedReportStats(env: Env, delayed: Messages, from: nat, end: nat,
        inRange: set<Bytes>) returns (r: Result<StatsMap, DeriveError>)
      requires from <= end && forall i :: from <= i < end ==> i in delayed
      modifies this
      ensures var s := Seed(env, delayed, from, end, inRange, Seeding(map[], old(stats), None));
              stats == s.reports && r == if s.error.Some? then Err(s.error.value) else Ok(s.seed)
    {
      var seed: StatsMap := map[];
      for i := from to end
        invariant Seed(env, delayed, i, end, inRange, Seeding(seed, stats, None)) ==
            Seed(env, delayed, from, end, inRange, Seeding(map[], old(stats), None))
      {
        var m := delayed[i];
        if m.kind == KIND_BATCH_POSTING_REPORT {
          var hash := ReportDataHash(m.data);
          if hash.None? {
            return Err(ReportHashMissing);
          }
          if hash.value !in inRange && hash.value !in seed {
            if hash.value in stats {
              seed := seed[hash.value := stats[hash.value]];
            } else {
              var reported := ReportedStats(env, m, hash.value);
              if reported.Err? {
                return Err(reported.error);
              }
              stats := stats[hash.value := reported.value];
              seed := seed[hash.value := reported.value];
            }
          }
        }
      }
      r := Ok(seed);
    }

    /** Records a window's own batches; known hashes are left alone. */
    method Record(env: Env, resolved: seq<Resolved>) returns (inRange: set<Bytes>)
      modifies this
      ensures stats == Recorded(env, old(stats), resolved) && inRange == InRange(env, resolved)
    {
      inRange := {};
      for i := 0 to |resolved|
        invariant stats == Recorded(env, old(stats), resolved[..i]) && inRange == InRange(env, resolved[..i])
      {
        assert resolved[..i + 1][..i] == resolved[..i];
        var hash := DataHash(env, resolved[i]);
        if hash !in stats {
          stats := stats[hash := StatsOf(env.serialize(resolved[i]))];
        }
        inRange := inRange + {hash};
      }
      assert resolved[..|resolved|] == resolved;
    }
  }

  // ---------------------------------------------------------------- one window

  function Recorded(env: Env, reports: StatsMap, resolved: seq<Resolved>): StatsMap {
    if resolved == [] then reports
    else
      var init := Recorded(env, reports, resolved[..|resolved| - 1]);
      var b := resolved[|resolved| - 1];
      if DataHash(env, b) in init then init else init[DataHash(env, b) := StatsOf(env.serialize(b))]
  }

  function InRange(env: Env, resolved: seq<Resolved>): set<Bytes> {
    if resolved == [] then {} else InRange(env, resolved[..|resolved| - 1]) + {DataHash(env, resolved[|resolved| - 1])}
  }

  datatype Window = Window(resolved: seq<Resolved>, toBlock: nat, span: nat)

  datatype Caches = Caches(delayed: Cache, reports: StatsMap)

  datatype Derived = Derived(messages: seq<FeedMessage>, cursor: nat, batches: nat)

  datatype Outcome = Outcome(result: Result<Derived, DeriveError>, caches: Caches)

  function Finish(a: Result<Assembly, DeriveError>, cursor: nat, batches: nat): Result<Derived, DeriveError> {
    if a.Err? then Err(a.error) else Ok(Derived(a.value.out, cursor, batches))
  }

  function DeriveCovered(env: Env, w: Window, start: nat, cursor: nat, delayed: Messages, c: Caches): (r: Outcome)
    requires start <= cursor && forall i :: start <= i < cursor ==> i in delayed
    ensures r.caches.delayed == c.delayed
  {
    var s := Seed(env, delayed, start, cursor, InRange(env, w.resolved), Seeding(map[], c.reports, None));
    Outcome(
      if s.error.Some? then Err(s.error.value)
      else Finish(Assemble(env, w.resolved, MapSource(delayed), start, s.seed), cursor, |w.resolved|),
      Caches(c.delayed, s.reports))
  }

  /** The result of a window and the caches it leaves. */
  function Derive(env: Env, c: Caches, w: Window, start: nat): (r: Outcome)
    requires c.delayed.hi.Some? ==> c.delayed.lo.Some?
    ensures r.caches.delayed.hi.Some? ==> r.caches.delayed.lo.Some?
  {
    if w.resolved == [] then Outcome(Ok(Derived([], start, 0)), c)
    else
      var cursor := w.resolved[|w.resolved| - 1].header.afterDelayedMessages;
      var reports := Recorded(env, c.reports, w.resolved);
      if cursor <= start then
        Outcome(Finish(Assemble(env, w.resolved, NO_DELAYED, start, map[]), cursor, |w.resolved|),
            Caches(c.delayed, reports))
      else
        var answer := Cover(Fetching(env.l1), c.delayed, w.toBlock, start, cursor, w.span);
        if answer.result.Err? then Outcome(Err(Coverage(answer.result.error)), Caches(answer.cache, reports))
        else DeriveCovered(env, w, start, cursor, answer.result.value, Caches(answer.cache, reports))
  }

  method DeriveFromResolved(env: Env, w: Window, start: nat, cache: DelayedCache,
      reports: ReportCache) returns (r: Result<Derived, DeriveError>)
    requires cache.scannedHi.Some? ==> cache.scannedLo.Some?
    modifies cache, reports
    ensures Outcome(r, Caches(cache.View(), reports.stats)) ==
        Derive(env, Caches(old(cache.View()), old(reports.stats)), w, start)
  {
    if w.resolved == [] {
      return Ok(Derived([], start, 0));
    }
    var cursor: nat := w.resolved[|w.resolved| - 1].header.afterDelayedMessages;
    var inRange := reports.Record(env, w.resolved);
    var messages;
    if cursor <= start {
      messages := AssembleFeedMessages(env, w.resolved, NO_DELAYED, start, map[]);
    } else {
      var delayed := cache.CoverIndices(Fetching(env.l1), w.toBlock, start, cursor, w.span);
      if delayed.Err? {
        return Err(Coverage(delayed.error));
      }
      var seed := reports.SeedReportStats(env, delayed.value, start, cursor, inRange);
      if seed.Err? {
        return Err(seed.error);
      }
      messages := AssembleFeedMessages(env, w.resolved, MapSource(delayed.value), start, seed.value);
    }
    if messages.Err? {
      return Err(messages.error);
    }
    r := Ok(Derived(messages.value, cursor, |w.resolved|));
  }
}
