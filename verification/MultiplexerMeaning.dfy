/** What a successful extraction means, stated position by position, and exactly when it succeeds. */
module MultiplexerMeaning {
  import opened Prelude
  import opened Rlp
  import opened BatchFraming
  import opened Multiplexer

  // ---------------------------------------------------------------- closed forms

  /** The plain sum of the time advances. */
  function TimeSum(actions: seq<Action>): nat {
    if actions == [] then 0
    else
      var last := actions[|actions| - 1];
      TimeSum(actions[..|actions| - 1]) + if last.AdvanceTime? then last.delta else 0
  }

  function BlockSum(actions: seq<Action>): nat {
    if actions == [] then 0
    else
      var last := actions[|actions| - 1];
      BlockSum(actions[..|actions| - 1]) + if last.AdvanceBlock? then last.delta else 0
  }

  function DelayedCount(actions: seq<Action>): nat {
    if actions == [] then 0
    else DelayedCount(actions[..|actions| - 1]) + if actions[|actions| - 1].ReadDelayed? then 1 else 0
  }

  predicate WellFormed(actions: seq<Action>) {
    forall i :: 0 <= i < |actions| ==> !actions[i].Malformed?
  }

  /** The source holds every index of `[from, to)`. */
  ghost predicate Available(b: Batch, from: nat, end: nat) {
    forall i: nat :: from <= i < end ==> b.delayed(i).Some?
  }

  /** Delayed message `index` as emitted; the default stands for an absent one. */
  function DelayedAt(b: Batch, index: nat): DerivedMessage {
    match b.delayed(index)
    case Some(m) => ToDerived(m, index + 1)
    case None => L2Message(b.header, [], 0, 0, 0)
  }

  /** Delayed messages `from..to`, ascending, each with the cursor just past it. */
  function DelayedRange(b: Batch, from: nat, end: nat): (r: seq<DerivedMessage>)
    requires from <= end
    ensures |r| == end - from
    decreases end - from
  {
    if from == end then [] else [DelayedAt(b, from)] + DelayedRange(b, from + 1, end)
  }

  /** The message of `l2Msg` behind `earlier`: clamped sums modulo 2^64. */
  function MessageAfter(b: Batch, before: nat, earlier: seq<Action>, l2Msg: Bytes): DerivedMessage {
    L2Message(b.header, l2Msg, TimeSum(earlier) % U64_LIMIT, BlockSum(earlier) % U64_LIMIT,
        before + DelayedCount(earlier))
  }

  function Emitted(b: Batch, before: nat, earlier: seq<Action>, action: Action): seq<DerivedMessage> {
    match action
    case Message(l2Msg) => [MessageAfter(b, before, earlier, l2Msg)]
    case ReadDelayed => [DelayedAt(b, before + DelayedCount(earlier))]
    case _ => []
  }

  function Named(b: Batch, before: nat, actions: seq<Action>): seq<DerivedMessage> {
    if actions == [] then []
    else
      var init := actions[..|actions| - 1];
      Named(b, before, init) + Emitted(b, before, init, actions[|actions| - 1])
  }

  function Walked(b: Batch, before: nat, actions: seq<Action>): Mux {
    Mux(TimeSum(actions) % U64_LIMIT, BlockSum(actions) % U64_LIMIT, before + DelayedCount(actions),
        Named(b, before, actions))
  }

  // ---------------------------------------------------------------- the walk

  /** The named reads stay below the promised count and can be answered. */
  ghost predicate ReadsFit(b: Batch, before: nat, count: nat) {
    && (count == 0 || before + count <= b.header.afterDelayedMessages)
    && Available(b, before, before + count)
  }

  ghost predicate Good(b: Batch, before: nat, actions: seq<Action>) {
    WellFormed(actions) && ReadsFit(b, before, DelayedCount(actions))
  }

  lemma ReadsFitNext(b: Batch, before: nat, count: nat)
    ensures ReadsFit(b, before, count + 1) <==>
            ReadsFit(b, before, count) && before + count < b.header.afterDelayedMessages &&
                b.delayed(before + count).Some?
  {
  }

  lemma GoodUnfolds(b: Batch, before: nat, init: seq<Action>, last: Action)
    ensures Good(b, before, init + [last]) <==>
              && Good(b, before, init) && !last.Malformed?
              && (last.ReadDelayed? ==> ReadsFit(b, before, DelayedCount(init) + 1))
  {
    var actions := init + [last];
    assert actions[..|init|] == init;
    assert WellFormed(actions) <==> WellFormed(init) && !last.Malformed? by {
      if WellFormed(actions) {
        assert forall i :: 0 <= i < |init| ==> init[i] == actions[i];
        assert actions[|init|] == last;
      }
    }
    ReadsFitNext(b, before, DelayedCount(init));
  }

  lemma SumsUnfold(b: Batch, before: nat, init: seq<Action>, last: Action)
    ensures TimeSum(init + [last]) == TimeSum(init) + if last.AdvanceTime? then last.delta else 0
    ensures BlockSum(init + [last]) == BlockSum(init) + if last.AdvanceBlock? then last.delta else 0
    ensures DelayedCount(init + [last]) == DelayedCount(init) + if last.ReadDelayed? then 1 else 0
    ensures Named(b, before, init + [last]) == Named(b, before, init) + Emitted(b, before, init, last)
  {
    assert (init + [last])[..|init|] == init;
  }

  lemma WrapAdd(a: nat, b: nat)
    ensures (a % U64_LIMIT + b) % U64_LIMIT == (a + b) % U64_LIMIT
  {
  }

  lemma StepAdvances(b: Batch, before: nat, init: seq<Action>, last: Action)
    requires last.AdvanceTime? || last.AdvanceBlock?
    ensures Step(b, Walked(b, before, init), last) == Ok(Walked(b, before, init + [last]))
  {
    SumsUnfold(b, before, init, last);
    WrapAdd(TimeSum(init), last.delta);
    WrapAdd(BlockSum(init), last.delta);
    assert Named(b, before, init) + [] == Named(b, before, init);
  }

  lemma ReadEmits(b: Batch, s: Mux)
    ensures if b.delayed(s.read).Some?
        then Read(b, s) == Ok(Mux(s.timestamp, s.block, s.read + 1, s.out + [DelayedAt(b, s.read)]))
            else Read(b, s).Err?
  {
  }

  lemma WalkedReads(b: Batch, before: nat, init: seq<Action>)
    ensures var s := Walked(b, before, init);
            Walked(b, before, init + [ReadDelayed]) ==
                Mux(s.timestamp, s.block, s.read + 1, s.out + [DelayedAt(b, s.read)])
  {
    SumsUnfold(b, before, init, ReadDelayed);
  }

  lemma StepReads(b: Batch, s: Mux)
    requires s.read < b.header.afterDelayedMessages
    ensures if b.delayed(s.read).Some?
        then Step(b, s, ReadDelayed) == Ok(Mux(s.timestamp, s.block, s.read + 1, s.out + [DelayedAt(b, s.read)]))
            else Step(b, s, ReadDelayed).Err?
  {
    ReadEmits(b, s);
  }

  lemma StepOther(b: Batch, before: nat, init: seq<Action>, last: Action)
    requires last.Message? || last.Skip?
    ensures Step(b, Walked(b, before, init), last) == Ok(Walked(b, before, init + [last]))
  {
    SumsUnfold(b, before, init, last);
    assert Named(b, before, init) + [] == Named(b, before, init);
  }

  lemma StepMeans(b: Batch, before: nat, init: seq<Action>, last: Action)
    requires Good(b, before, init)
    ensures var step := Step(b, Walked(b, before, init), last);
            if Good(b, before, init + [last]) then step == Ok(Walked(b, before, init + [last])) else step.Err?
  {
    GoodUnfolds(b, before, init, last);
    match last
    case AdvanceTime(_) => StepAdvances(b, before, init, last);
    case AdvanceBlock(_) => StepAdvances(b, before, init, last);
    case ReadDelayed =>
      ReadsFitNext(b, before, DelayedCount(init));
      if before + DelayedCount(init) < b.header.afterDelayedMessages {
        StepReads(b, Walked(b, before, init));
        WalkedReads(b, before, init);
      }
    case Message(_) => StepOther(b, before, init, last);
    case Skip => StepOther(b, before, init, last);
    case Malformed(_) =>
  }

  lemma {:induction false} WalkMeans(b: Batch, before: nat, actions: seq<Action>)
    ensures if Good(b, before, actions) then Walk(b, before, actions) == Ok(Walked(b, before, actions))
        else Walk(b, before, actions).Err?
  {
    if actions != [] {
      var init, last := actions[..|actions| - 1], actions[|actions| - 1];
      assert actions == init + [last];
      WalkMeans(b, before, init);
      GoodUnfolds(b, before, init, last);
      if Good(b, before, init) {
        StepMeans(b, before, init, last);
      }
    }
  }

  // ---------------------------------------------------------------- the forced tail

  lemma {:induction false} DrainMeans(b: Batch, s: Mux)
    requires s.read <= b.header.afterDelayedMessages
    ensures var after := b.header.afterDelayedMessages;
            if Available(b, s.read, after)
              then Drain(b, s) == Ok(s.(read := after, out := s.out + DelayedRange(b, s.read, after)))
            else Drain(b, s).Err?
    decreases b.header.afterDelayedMessages - s.read
  {
    var after := b.header.afterDelayedMessages;
    if s.read == after {
      assert s.out + DelayedRange(b, s.read, after) == s.out;
    } else if b.delayed(s.read).Some? {
      var t := Read(b, s).value;
      DrainMeans(b, t);
      Assoc(s.out, [DelayedAt(b, s.read)], DelayedRange(b, t.read, after));
    }
  }

  // ---------------------------------------------------------------- the whole extraction

  /** Every segment decodes, the named reads fit, and every promised index can be read. */
  ghost predicate Complete(b: Batch, before: nat, actions: seq<Action>) {
    && WellFormed(actions)
    && (DelayedCount(actions) == 0 || before + DelayedCount(actions) <= b.header.afterDelayedMessages)
    && Available(b, before, b.header.afterDelayedMessages)
  }

  function Messages(b: Batch, before: nat, actions: seq<Action>): seq<DerivedMessage> {
    var read := before + DelayedCount(actions);
    Named(b, before, actions) + DelayedRange(b, read, Max(read, b.header.afterDelayedMessages))
  }

  /** Extraction succeeds exactly on complete batches, and then emits the named messages and the tail. */
  lemma {:induction false} ExtractMeans(b: Batch, before: nat, actions: seq<Action>)
    ensures Extract(b, before, actions) == Ok(Messages(b, before, actions)) <==> Complete(b, before, actions)
    ensures Extract(b, before, actions).Ok? <==> Complete(b, before, actions)
  {
    WalkMeans(b, before, actions);
    if Good(b, before, actions) {
      var s := Walked(b, before, actions);
      if s.read <= b.header.afterDelayedMessages {
        DrainMeans(b, s);
      } else {
        assert s.out + DelayedRange(b, s.read, s.read) == s.out;
      }
    }
  }

  // ---------------------------------------------------------------- delayed messages, once each

  function DelayedPart(out: seq<DerivedMessage>): seq<DerivedMessage> {
    if out == [] then [] else IfDelayed(out[0]) + DelayedPart(out[1..])
  }

  function IfDelayed(m: DerivedMessage): seq<DerivedMessage> {
    if m.header.requestId.Some? then [m] else []
  }

  lemma {:induction false} DelayedPartConcat(a: seq<DerivedMessage>, b: seq<DerivedMessage>)
    ensures DelayedPart(a + b) == DelayedPart(a) + DelayedPart(b)
  {
    if a == [] {
      assert a + b == b;
      assert [] + DelayedPart(b) == DelayedPart(b);
    } else {
      DelayedPartConcat(a[1..], b);
      assert (a + b)[0] == a[0] && (a + b)[1..] == a[1..] + b;
      Assoc(IfDelayed(a[0]), DelayedPart(a[1..]), DelayedPart(b));
    }
  }

  lemma {:induction false} RangeIsDelayed(b: Batch, from: nat, end: nat)
    requires Available(b, from, end) && from <= end
    ensures DelayedPart(DelayedRange(b, from, end)) == DelayedRange(b, from, end)
    decreases end - from
  {
    if from < end {
      RangeIsDelayed(b, from + 1, end);
      var range := DelayedRange(b, from, end);
      assert range[1..] == DelayedRange(b, from + 1, end);
    }
  }

  lemma {:induction false} RangesJoin(b: Batch, from: nat, mid: nat, end: nat)
    requires from <= mid <= end
    ensures DelayedRange(b, from, mid) + DelayedRange(b, mid, end) == DelayedRange(b, from, end)
    decreases mid - from
  {
    if from < mid {
      RangesJoin(b, from + 1, mid, end);
      Assoc([DelayedAt(b, from)], DelayedRange(b, from + 1, mid), DelayedRange(b, mid, end));
    } else {
      assert [] + DelayedRange(b, mid, end) == DelayedRange(b, mid, end);
    }
  }

  lemma OneDelayed(b: Batch, index: nat)
    requires b.delayed(index).Some?
    ensures DelayedRange(b, index, index + 1) == [DelayedAt(b, index)] &&
        DelayedPart([DelayedAt(b, index)]) == [DelayedAt(b, index)]
  {
    assert DelayedRange(b, index + 1, index + 1) == [];
    assert [DelayedAt(b, index)][1..] == [];
  }

  lemma EmittedDelayed(b: Batch, before: nat, init: seq<Action>, last: Action)
    requires Available(b, before, before + DelayedCount(init + [last]))
    ensures DelayedPart(Emitted(b, before, init, last)) ==
        DelayedRange(b, before + DelayedCount(init), before + DelayedCount(init + [last]))
  {
    SumsUnfold(b, before, init, last);
    if last.ReadDelayed? {
      OneDelayed(b, before + DelayedCount(init));
    }
  }

  lemma NamedDelayedStep(b: Batch, from: nat, named: seq<DerivedMessage>, emitted: seq<DerivedMessage>, mid: nat,
      end: nat)
    requires from <= mid <= end
    requires DelayedPart(named) == DelayedRange(b, from, mid) && DelayedPart(emitted) == DelayedRange(b, mid, end)
    ensures DelayedPart(named + emitted) == DelayedRange(b, from, end)
  {
    DelayedPartConcat(named, emitted);
    RangesJoin(b, from, mid, end);
  }

  lemma {:induction false} NamedDelayed(b: Batch, before: nat, actions: seq<Action>)
    requires Available(b, before, before + DelayedCount(actions))
    ensures DelayedPart(Named(b, before, actions)) == DelayedRange(b, before, before + DelayedCount(actions))
  {
    if actions != [] {
      var init, last := actions[..|actions| - 1], actions[|actions| - 1];
      assert actions == init + [last];
      NamedDelayed(b, before, init);
      EmittedDelayed(b, before, init, last);
      NamedDelayedStep(b, before, Named(b, before, init), Emitted(b, before, init, last), before + DelayedCount(init),
          before + DelayedCount(actions));
    }
  }

  /** The delayed messages of a batch are exactly the indices it moves the cursor over. */
  lemma {:induction false} DelayedOnceEach(b: Batch, before: nat, actions: seq<Action>)
    requires before <= b.header.afterDelayedMessages && Complete(b, before, actions)
    ensures DelayedPart(Messages(b, before, actions)) == DelayedRange(b, before, b.header.afterDelayedMessages)
  {
    var read, after := before + DelayedCount(actions), b.header.afterDelayedMessages;
    NamedDelayed(b, before, actions);
    RangeIsDelayed(b, read, after);
    NamedDelayedStep(b, before, Named(b, before, actions), DelayedRange(b, read, after), read, after);
  }

  // ---------------------------------------------------------------- the read cursor

  /** Cursors never decrease and stay within the bounds. */
  predicate Ascends(out: seq<DerivedMessage>, lo: nat, hi: nat) {
    && (forall k :: 0 <= k < |out| ==> lo <= out[k].delayedMessagesRead <= hi)
    && (forall j, k :: 0 <= j < k < |out| ==> out[j].delayedMessagesRead <= out[k].delayedMessagesRead)
  }

  lemma AscendsConcat(a: seq<DerivedMessage>, b: seq<DerivedMessage>, lo: nat, mid: nat, hi: nat)
    requires lo <= mid <= hi && Ascends(a, lo, mid) && Ascends(b, mid, hi)
    ensures Ascends(a + b, lo, hi)
  {
  }

  lemma {:induction false} NamedAscends(b: Batch, before: nat, actions: seq<Action>)
    requires Available(b, before, before + DelayedCount(actions))
    ensures Ascends(Named(b, before, actions), before, before + DelayedCount(actions))
  {
    if actions != [] {
      var init, last := actions[..|actions| - 1], actions[|actions| - 1];
      NamedAscends(b, before, init);
      AscendsConcat(Named(b, before, init), Emitted(b, before, init, last), before, before + DelayedCount(init),
          before + DelayedCount(actions));
    }
  }

  lemma {:induction false} RangeAscends(b: Batch, from: nat, end: nat)
    requires Available(b, from, end) && from <= end
    ensures Ascends(DelayedRange(b, from, end), from, end)
    decreases end - from
  {
    if from < end {
      RangeAscends(b, from + 1, end);
      AscendsConcat([DelayedAt(b, from)], DelayedRange(b, from + 1, end), from, from + 1, end);
    }
  }

  /** The cursor of the messages never decreases and never leaves the batch's own range. */
  lemma {:induction false} CursorAscends(b: Batch, before: nat, actions: seq<Action>)
    requires before <= b.header.afterDelayedMessages && Complete(b, before, actions)
    ensures Ascends(Messages(b, before, actions), before, b.header.afterDelayedMessages)
  {
    var read, after := before + DelayedCount(actions), b.header.afterDelayedMessages;
    NamedAscends(b, before, actions);
    RangeAscends(b, read, after);
    AscendsConcat(Named(b, before, actions), DelayedRange(b, read, after), before, read, after);
  }

  // ---------------------------------------------------------------- sequencer messages

  lemma {:induction false} NamedPrefix(b: Batch, before: nat, actions: seq<Action>, n: nat)
    requires n <= |actions|
    ensures Named(b, before, actions[..n]) <= Named(b, before, actions)
    decreases |actions|
  {
    if n == |actions| {
      assert actions[..n] == actions;
    } else {
      var init := actions[..|actions| - 1];
      NamedPrefix(b, before, init, n);
      assert init[..n] == actions[..n];
    }
  }

  lemma MessageStands(b: Batch, before: nat, actions: seq<Action>, i: nat)
    requires i < |actions| && actions[i].Message?
    ensures var k := |Named(b, before, actions[..i])|; var out := Messages(b, before, actions);
            k < |out| && out[k] == MessageAfter(b, before, actions[..i], actions[i].l2Msg)
  {
    NamedPrefix(b, before, actions, i + 1);
    assert actions[..i + 1] == actions[..i] + [actions[i]];
    SumsUnfold(b, before, actions[..i], actions[i]);
  }

  /**
    The message of position `i` stands right after those of the earlier segments; its time and L1 block
    are the sums, modulo 2^64, of the advances in front of it, clamped to the header's bounds.
  */
  lemma {:induction false} SequencerMessage(b: Batch, before: nat, actions: seq<Action>, i: nat)
    requires i < |actions| && actions[i].Message?
    ensures var k := |Named(b, before, actions[..i])|; var out := Messages(b, before, actions); var h := b.header;
            && k < |out|
            && out[k].l2Msg == actions[i].l2Msg
            && out[k].header.timestamp == Clamp(TimeSum(actions[..i]) % U64_LIMIT, h.minTimestamp, h.maxTimestamp)
            && out[k].header.blockNumber == Clamp(BlockSum(actions[..i]) % U64_LIMIT, h.minL1Block, h.maxL1Block)
            && out[k].header.kind == KIND_L2_MESSAGE && out[k].header.poster == BATCH_POSTER &&
                out[k].header.requestId.None?
            && out[k].delayedMessagesRead == before + DelayedCount(actions[..i])
  {
    MessageStands(b, before, actions, i);
  }

  lemma {:induction false} RangeAt(b: Batch, from: nat, end: nat, k: nat)
    requires from + k < end
    ensures DelayedRange(b, from, end)[k] == DelayedAt(b, from + k)
    decreases k
  {
    if k > 0 {
      RangeAt(b, from + 1, end, k - 1);
    }
  }

  lemma {:induction false} PartIsIncluded(out: seq<DerivedMessage>, k: nat) returns (j: nat)
    requires k < |DelayedPart(out)|
    ensures j < |out| && out[j] == DelayedPart(out)[k]
  {
    var kept := IfDelayed(out[0]);
    if k < |kept| {
      j := 0;
    } else {
      j := PartIsIncluded(out[1..], k - |kept|);
      j := j + 1;
    }
  }

  /** Every delayed message between the cursors is emitted with its own sender, block, time, data and request id. */
  lemma {:induction false} DelayedIsEmitted(b: Batch, before: nat, actions: seq<Action>, i: nat) returns (k: nat)
    requires Complete(b, before, actions) && before <= i < b.header.afterDelayedMessages
    ensures k < |Messages(b, before, actions)|
    ensures b.delayed(i).Some?
    ensures var m, d := Messages(b, before, actions)[k], b.delayed(i).value;
            && m.l2Msg == d.data && m.delayedMessagesRead == i + 1
            && m.header == MessageHeader(d.kind, d.sender, d.blockNumber, d.timestamp, Some(RequestId(d.inboxSeqNum)),
                d.baseFeeL1)
  {
    DelayedOnceEach(b, before, actions);
    RangeAt(b, before, b.header.afterDelayedMessages, i - before);
    k := PartIsIncluded(Messages(b, before, actions), i - before);
  }

  /** The 32-byte request id names one index. */
  lemma {:induction false} RequestIdIdentifies(i: u64, j: u64)
    requires RequestId(i) == RequestId(j)
    ensures i == j
  {
    EightBytes();
    PowMonotone(8, 32);
    FixedRoundTrip(i, 32);
    FixedRoundTrip(j, 32);
  }

  // ---------------------------------------------------------------- what the source is asked

  ghost predicate SameOn(b: Batch, c: Batch, from: nat, end: nat) {
    && b.header == c.header && b.brotli == c.brotli
    && forall i: nat :: from <= i < end ==> b.delayed(i) == c.delayed(i)
  }

  lemma {:induction false} WalkReads(b: Batch, c: Batch, before: nat, actions: seq<Action>)
    requires SameOn(b, c, before, b.header.afterDelayedMessages)
    ensures Walk(b, before, actions) == Walk(c, before, actions)
    ensures Walk(b, before, actions).Ok? ==> before <= Walk(b, before, actions).value.read
  {
    if actions != [] {
      WalkReads(b, c, before, actions[..|actions| - 1]);
    }
  }

  lemma {:induction false} DrainReads(b: Batch, c: Batch, before: nat, s: Mux)
    requires SameOn(b, c, before, b.header.afterDelayedMessages) && before <= s.read
    ensures Drain(b, s) == Drain(c, s)
    decreases b.header.afterDelayedMessages - s.read
  {
    if s.read < b.header.afterDelayedMessages && Read(b, s).Ok? {
      DrainReads(b, c, before, Read(b, s).value);
    }
  }

  /** Outcome and messages depend on the delayed source only between the two cursors. */
  lemma {:induction false} ExtractReads(b: Batch, c: Batch, before: nat, actions: seq<Action>)
    requires SameOn(b, c, before, b.header.afterDelayedMessages)
    ensures Extract(b, before, actions) == Extract(c, before, actions)
  {
    WalkReads(b, c, before, actions);
    if Walk(b, before, actions).Ok? {
      DrainReads(b, c, before, Walk(b, before, actions).value);
    }
  }
}
