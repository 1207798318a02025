/**
  The ideal derivation of a batch list: it reads L1's delayed messages directly and takes a report's
  statistics from the only bytes with the reported hash.
*/
module WindowDerivation {
  import opened Prelude
  import opened BatchFraming
  import opened Multiplexer
  import MultiplexerMeaning
  import opened DelayedCache
  import opened Derivation

  // ---------------------------------------------------------------- statistics follow the hash

  ghost predicate Injective(env: Env) {
    forall a: Bytes, b: Bytes :: env.keccak(a) == env.keccak(b) ==> a == b
  }

  ghost predicate Hashed(env: Env, s: Bytes, hash: Bytes) {
    env.keccak(s) == hash
  }

  /** The statistics of the only bytes with this hash. */
  ghost function StatsFor(env: Env, hash: Bytes): Stats {
    if exists s: Bytes :: Hashed(env, s, hash) then
      var s: Bytes :| Hashed(env, s, hash);
      StatsOf(s)
    else Stats(0, 0)
  }

  lemma {:induction false} StatsForHashed(env: Env, s: Bytes)
    requires Injective(env)
    ensures StatsFor(env, env.keccak(s)) == StatsOf(s)
  {
    assert Hashed(env, s, env.keccak(s));
  }

  ghost predicate Consistent(env: Env, m: StatsMap) {
    forall hash :: hash in m ==> m[hash] == StatsFor(env, hash)
  }

  lemma ReportedConsistent(env: Env, m: DelayedMessage, hash: Bytes)
    requires Injective(env) && ReportedStats(env, m, hash).Ok?
    ensures ReportedStats(env, m, hash).value == StatsFor(env, hash)
  {
    var s := env.posted(m.blockNumber, ReportBatchNum(m.data).value).value;
    StatsForHashed(env, s);
  }

  lemma BatchConsistent(env: Env, b: Resolved, stats: Stats)
    requires Injective(env) && stats == StatsOf(env.serialize(b))
    ensures stats == StatsFor(env, DataHash(env, b))
  {
    StatsForHashed(env, env.serialize(b));
  }

  // ---------------------------------------------------------------- the ideal derivation

  function Full(l1: L1): Source {
    (i: nat) => if i < l1.count then Some(l1.message(i)) else None
  }

  function Cursor(bs: seq<Resolved>, start: nat): nat {
    if bs == [] then start else bs[|bs| - 1].header.afterDelayedMessages
  }

  ghost function IdealBody(env: Env, m: DerivedMessage): FeedBody {
    FeedBody(m, if m.header.kind == KIND_BATCH_POSTING_REPORT && |m.l2Msg| >= 84
        then Some(StatsFor(env, m.l2Msg[52..84])) else None)
  }

  ghost function IdealBodies(env: Env, ms: seq<DerivedMessage>): (r: seq<FeedBody>)
    ensures |r| == |ms|
  {
    if ms == [] then [] else IdealBodies(env, ms[..|ms| - 1]) + [IdealBody(env, ms[|ms| - 1])]
  }

  ghost function Ideal(env: Env, bs: seq<Resolved>, start: nat): Result<seq<FeedBody>, DeriveError> {
    if bs == [] then Ok([])
    else
      var init := bs[..|bs| - 1];
      var a := Ideal(env, init, start);
      if a.Err? then a else IdealNext(env, a.value, bs[|bs| - 1], Cursor(init, start))
  }

  ghost function IdealNext(env: Env, bodies: seq<FeedBody>, b: Resolved, before: nat): Result<seq<FeedBody>,
      DeriveError> {
    var ms := env.decode(b, before, Full(env.l1));
    if ms.Err? then Err(ms.error) else Ok(bodies + IdealBodies(env, ms.value))
  }

  function Numbered(bodies: seq<FeedBody>, first: nat): (r: seq<FeedMessage>)
    ensures |r| == |bodies|
  {
    if bodies == [] then []
    else Numbered(bodies[..|bodies| - 1], first) + [FeedMessage(first + |bodies| - 1, bodies[|bodies| - 1])]
  }

  lemma {:induction false} NumberedConcat(a: seq<FeedBody>, b: seq<FeedBody>, first: nat)
    ensures Numbered(a + b, first) == Numbered(a, first) + Numbered(b, first + |a|)
  {
    if b == [] {
      assert a + b == a;
    } else {
      var init, last := b[..|b| - 1], b[|b| - 1];
      assert (a + b)[..|a + b| - 1] == a + init && (a + b)[|a + b| - 1] == last;
      NumberedConcat(a, init, first);
    }
  }

  /** Deriving two lists one after the other is deriving their concatenation. */
  lemma {:induction false} IdealSplits(env: Env, p: seq<Resolved>, w: seq<Resolved>, start: nat)
    ensures var a, b := Ideal(env, p, start), Ideal(env, w, Cursor(p, start));
            Ideal(env, p + w, start) == if a.Err? then a else if b.Err? then b else Ok(a.value + b.value)
    ensures Cursor(p + w, start) == Cursor(w, Cursor(p, start))
    decreases |w|
  {
    if w == [] {
      assert p + w == p;
      var a := Ideal(env, p, start);
      assert a.Ok? ==> a.value + [] == a.value;
    } else {
      var init, last := w[..|w| - 1], w[|w| - 1];
      assert (p + w)[..|p + w| - 1] == p + init && (p + w)[|p + w| - 1] == last;
      IdealSplits(env, p, init, start);
      var a, b := Ideal(env, p, start), Ideal(env, init, Cursor(p, start));
      if a.Ok? && b.Ok? {
        var ms := env.decode(last, Cursor(p + init, start), Full(env.l1));
        if ms.Ok? {
          Assoc(a.value, b.value, IdealBodies(env, ms.value));
        }
      }
    }
  }

  // ---------------------------------------------------------------- what a batch can emit

  /** A message is a sequencer message or a delayed one from between the cursors. */
  lemma {:induction false} NamedElement(b: Batch, before: nat, actions: seq<Action>, k: nat) returns (index: nat)
    requires k < |MultiplexerMeaning.Named(b, before, actions)|
    ensures var m := MultiplexerMeaning.Named(b, before, actions)[k];
            m.header.kind == KIND_L2_MESSAGE ||
            (before <= index < before + MultiplexerMeaning.DelayedCount(actions) &&
                m == MultiplexerMeaning.DelayedAt(b, index))
  {
    var init, last := actions[..|actions| - 1], actions[|actions| - 1];
    if k < |MultiplexerMeaning.Named(b, before, init)| {
      index := NamedElement(b, before, init, k);
    } else {
      index := before + MultiplexerMeaning.DelayedCount(init);
    }
  }

  lemma MessageElement(b: Batch, before: nat, actions: seq<Action>, k: nat) returns (index: nat)
    requires MultiplexerMeaning.Complete(b, before, actions) && before <= b.header.afterDelayedMessages
    requires k < |MultiplexerMeaning.Messages(b, before, actions)|
    ensures var m := MultiplexerMeaning.Messages(b, before, actions)[k];
            m.header.kind == KIND_L2_MESSAGE ||
            (before <= index < b.header.afterDelayedMessages && m == MultiplexerMeaning.DelayedAt(b, index))
  {
    var named := MultiplexerMeaning.Named(b, before, actions);
    var read := before + MultiplexerMeaning.DelayedCount(actions);
    if k < |named| {
      index := NamedElement(b, before, actions, k);
    } else {
      MultiplexerMeaning.RangeAt(b, read, b.header.afterDelayedMessages, k - |named|);
      index := read + (k - |named|);
    }
  }

  lemma {:induction false} DecodedElement(env: Env, brotli: Brotli, b: Resolved, before: nat,
      k: nat) returns (index: nat)
    requires Decodes(env, brotli) && before <= b.header.afterDelayedMessages
    requires env.decode(b, before, Full(env.l1)).Ok? && k < |env.decode(b, before, Full(env.l1)).value|
    ensures var m := env.decode(b, before, Full(env.l1)).value[k];
            m.header.kind == KIND_L2_MESSAGE ||
            (before <= index < b.header.afterDelayedMessages && index < env.l1.count
             && m.header.kind == env.l1.message(index).kind && m.l2Msg == env.l1.message(index).data)
  {
    assert env.decode(b, before, Full(env.l1)) == BatchMessages(brotli, b, before, Full(env.l1));
    var batch := Batch(b.header, brotli, Full(env.l1));
    var actions := Actions(brotli, PayloadSegments(brotli, b.payload).value);
    MultiplexerMeaning.ExtractMeans(batch, before, actions);
    index := MessageElement(batch, before, actions, k);
  }

  lemma {:induction false} DecodeReads(env: Env, brotli: Brotli, b: Resolved, before: nat, delayed: Source)
    requires Decodes(env, brotli)
    requires forall i: nat :: before <= i < b.header.afterDelayedMessages ==> delayed(i) == Full(env.l1)(i)
    ensures env.decode(b, before, delayed) == env.decode(b, before, Full(env.l1))
  {
    assert env.decode(b, before, delayed) == BatchMessages(brotli, b, before, delayed);
    assert env.decode(b, before, Full(env.l1)) == BatchMessages(brotli, b, before, Full(env.l1));
    var segments := PayloadSegments(brotli, b.payload);
    if segments.Ok? {
      MultiplexerMeaning.ExtractReads(Batch(b.header, brotli, delayed), Batch(b.header, brotli, Full(env.l1)), before,
          Actions(brotli, segments.value));
    }
  }
}
