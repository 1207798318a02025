/**
  The batch multiplexer: walks the segments of one batch and emits its messages, then drains the
  delayed messages the batch promises but does not name.  Time and L1 block accumulate modulo 2^64.
*/
module Multiplexer {
  import opened Prelude
  import opened Rlp
  import opened BatchFraming

  const L2_MESSAGE: byte := 0
  const L2_MESSAGE_BROTLI: byte := 1
  const DELAYED_MESSAGES: byte := 2
  const ADVANCE_TIMESTAMP: byte := 3
  const ADVANCE_L1_BLOCK: byte := 4

  const MAX_L2_MESSAGE_SIZE: nat := 262_144
  const KIND_L2_MESSAGE: byte := 3
  const BATCH_POSTER: nat := 0xA4B000000000000000000073657175656e636572

  datatype MessageHeader = MessageHeader(
    kind: byte, poster: nat, blockNumber: u64, timestamp: u64, requestId: Option<Bytes>, l1BaseFee: nat)

  datatype DerivedMessage = DerivedMessage(header: MessageHeader, l2Msg: Bytes, delayedMessagesRead: nat)

  datatype DelayedMessage = DelayedMessage(
    kind: byte, sender: nat, blockNumber: u64, timestamp: u64, inboxSeqNum: u64, baseFeeL1: nat, data: Bytes)

  datatype MuxError =
    | AdvanceTimestamp
    | AdvanceL1Block
    | MessageCompression
    | OversizeL2Message
    | DelayedMissing(index: nat)
    | DelayedPastCount(read: nat, after: u64)

  /**
    What one call is given besides the segments and the starting cursor.  Cursors are plain numbers:
    a read happens only below the header's 64-bit count, so they cannot overflow.
  */
  datatype Batch = Batch(header: BatchHeader, brotli: Brotli, delayed: nat -> Option<DelayedMessage>)

  function RequestId(index: nat): Bytes {
    FixedBE(index, 32)
  }

  function ToDerived(m: DelayedMessage, read: nat): DerivedMessage {
    DerivedMessage(MessageHeader(m.kind, m.sender, m.blockNumber, m.timestamp, Some(RequestId(m.inboxSeqNum)),
        m.baseFeeL1), m.data, read)
  }

  function Clamp(v: u64, lo: u64, hi: u64): u64 {
    Min(Max(v, lo), hi)
  }

  function L2Message(h: BatchHeader, l2Msg: Bytes, timestamp: u64, block: u64, read: nat): DerivedMessage {
    DerivedMessage(
      MessageHeader(KIND_L2_MESSAGE, BATCH_POSTER, Clamp(block, h.minL1Block, h.maxL1Block),
          Clamp(timestamp, h.minTimestamp, h.maxTimestamp), None, 0),
      l2Msg, read)
  }

  // ---------------------------------------------------------------- what a segment asks for

  datatype Action =
    | AdvanceTime(delta: u64)
    | AdvanceBlock(delta: u64)
    | Message(l2Msg: Bytes)
    | ReadDelayed
    | Skip
    | Malformed(error: MuxError)

  function ActionOf(brotli: Brotli, seg: Segment): Action {
    if seg.kind == ADVANCE_TIMESTAMP then
      var delta := DecodeU64(seg.data);
      if delta.Err? then Malformed(AdvanceTimestamp) else AdvanceTime(delta.value)
    else if seg.kind == ADVANCE_L1_BLOCK then
      var delta := DecodeU64(seg.data);
      if delta.Err? then Malformed(AdvanceL1Block) else AdvanceBlock(delta.value)
    else if seg.kind == L2_MESSAGE then Message(seg.data)
    else if seg.kind == L2_MESSAGE_BROTLI then
      match brotli.decompress(seg.data)
      case None => Malformed(MessageCompression)
      case Some(l2) => if |l2| > MAX_L2_MESSAGE_SIZE then Malformed(OversizeL2Message) else Message(l2)
    else if seg.kind == DELAYED_MESSAGES then ReadDelayed
    else Skip
  }

  function Actions(brotli: Brotli, segments: seq<Segment>): (r: seq<Action>)
    ensures |r| == |segments|
    ensures forall i :: 0 <= i < |r| ==> r[i] == ActionOf(brotli, segments[i])
  {
    seq(|segments|, i requires 0 <= i < |segments| => ActionOf(brotli, segments[i]))
  }

  // ---------------------------------------------------------------- the loops as folds

  datatype Mux = Mux(timestamp: u64, block: u64, read: nat, out: seq<DerivedMessage>)

  function Read(b: Batch, s: Mux): Result<Mux, MuxError> {
    match b.delayed(s.read)
    case None => Err(DelayedMissing(s.read))
    case Some(m) => Ok(s.(read := s.read + 1, out := s.out + [ToDerived(m, s.read + 1)]))
  }

  function Step(b: Batch, s: Mux, action: Action): Result<Mux, MuxError> {
    match action
    case AdvanceTime(delta) => Ok(s.(timestamp := (s.timestamp + delta) % U64_LIMIT))
    case AdvanceBlock(delta) => Ok(s.(block := (s.block + delta) % U64_LIMIT))
    case Message(l2Msg) => Ok(s.(out := s.out + [L2Message(b.header, l2Msg, s.timestamp, s.block, s.read)]))
    case ReadDelayed =>
      if s.read >= b.header.afterDelayedMessages then Err(DelayedPastCount(s.read, b.header.afterDelayedMessages))
      else Read(b, s)
    case Skip => Ok(s)
    case Malformed(error) => Err(error)
  }

  function Walk(b: Batch, before: nat, actions: seq<Action>): Result<Mux, MuxError> {
    if actions == [] then Ok(Mux(0, 0, before, []))
    else
      var s := Walk(b, before, actions[..|actions| - 1]);
      if s.Err? then s else Step(b, s.value, actions[|actions| - 1])
  }

  function Drain(b: Batch, s: Mux): Result<Mux, MuxError>
    decreases b.header.afterDelayedMessages - s.read
  {
    if s.read >= b.header.afterDelayedMessages then Ok(s)
    else
      var t := Read(b, s);
      if t.Err? then t else Drain(b, t.value)
  }

  function Extract(b: Batch, before: nat, actions: seq<Action>): Result<seq<DerivedMessage>, MuxError> {
    var s := Walk(b, before, actions);
    if s.Err? then Err(s.error)
    else
      var t := Drain(b, s.value);
      if t.Err? then Err(t.error) else Ok(t.value.out)
  }

  lemma {:induction false} FailureStays(b: Batch, before: nat, actions: seq<Action>, n: nat)
    requires n <= |actions| && Walk(b, before, actions[..n]).Err?
    ensures Walk(b, before, actions) == Walk(b, before, actions[..n])
    decreases |actions|
  {
    if n == |actions| {
      assert actions[..n] == actions;
    } else {
      var init := actions[..|actions| - 1];
      assert init[..n] == actions[..n];
      FailureStays(b, before, init, n);
    }
  }

  lemma WalkUnfolds(b: Batch, before: nat, actions: seq<Action>, n: nat, s: Mux)
    requires n < |actions| && Walk(b, before, actions[..n]) == Ok(s)
    ensures Walk(b, before, actions[..n + 1]) == Step(b, s, actions[n])
    ensures Step(b, s, actions[n]).Err? ==> Walk(b, before, actions) == Step(b, s, actions[n])
  {
    assert actions[..n + 1][..n] == actions[..n];
    if Step(b, s, actions[n]).Err? {
      FailureStays(b, before, actions, n + 1);
    }
  }

  /** One turn of the segment loop. */
  method TakeSegment(b: Batch, s: Mux, seg: Segment) returns (r: Result<Mux, MuxError>)
    ensures r == Step(b, s, ActionOf(b.brotli, seg))
  {
    if seg.kind == ADVANCE_TIMESTAMP {
      var delta := DecodeU64(seg.data);
      if delta.Err? {
        return Err(AdvanceTimestamp);
      }
      return Ok(s.(timestamp := (s.timestamp + delta.value) % U64_LIMIT));
    } else if seg.kind == ADVANCE_L1_BLOCK {
      var delta := DecodeU64(seg.data);
      if delta.Err? {
        return Err(AdvanceL1Block);
      }
      return Ok(s.(block := (s.block + delta.value) % U64_LIMIT));
    } else if seg.kind == L2_MESSAGE {
      return Ok(s.(out := s.out + [L2Message(b.header, seg.data, s.timestamp, s.block, s.read)]));
    } else if seg.kind == L2_MESSAGE_BROTLI {
      var l2 := b.brotli.decompress(seg.data);
      if l2.None? {
        return Err(MessageCompression);
      }
      if |l2.value| > MAX_L2_MESSAGE_SIZE {
        return Err(OversizeL2Message);
      }
      return Ok(s.(out := s.out + [L2Message(b.header, l2.value, s.timestamp, s.block, s.read)]));
    } else if seg.kind == DELAYED_MESSAGES {
      if s.read >= b.header.afterDelayedMessages {
        return Err(DelayedPastCount(s.read, b.header.afterDelayedMessages));
      }
      r := Read(b, s);
    } else {
      r := Ok(s);
    }
  }

  method ExtractMessages(b: Batch, before: u64, segments: seq<Segment>) returns (r: Result<seq<DerivedMessage>,
      MuxError>)
    ensures r == Extract(b, before, Actions(b.brotli, segments))
  {
    ghost var actions := Actions(b.brotli, segments);
    var s := Mux(0, 0, before, []);
    for i := 0 to |segments|
      invariant Walk(b, before, actions[..i]) == Ok(s)
    {
      WalkUnfolds(b, before, actions, i, s);
      var t := TakeSegment(b, s, segments[i]);
      if t.Err? {
        return Err(t.error);
      }
      s := t.value;
    }
    assert actions[..|segments|] == actions;
    ghost var walked := s;
    while s.read < b.header.afterDelayedMessages
      invariant Drain(b, s) == Drain(b, walked)
      decreases b.header.afterDelayedMessages - s.read
    {
      var t := Read(b, s);
      if t.Err? {
        return Err(t.error);
      }
      s := t.value;
    }
    r := Ok(s.out);
  }
}
