/**
  L2 messages: signed transactions and length-framed batches of messages, nested at most 16 deep.
  A batch ends quietly at the first frame that is cut off or too large.
*/
module L2Message {
  import opened Prelude
  import opened Rlp
  import opened BatchFraming

  const UNSIGNED_USER_TX: byte := 0
  const CONTRACT_TX: byte := 1
  const BATCH: byte := 3
  const SIGNED_TX: byte := 4
  const SIGNED_COMPRESSED_TX: byte := 7

  const MAX_L2_MESSAGE_SIZE: nat := 262_144
  const MAX_BATCH_DEPTH: nat := 16

  datatype L2Error = BatchTooDeep | Compression

  datatype Parsed = Parsed(signed: seq<Bytes>, unsigned: nat)

  /** What has been collected, and the error that stopped the parser. */
  datatype Outcome = Outcome(error: Option<L2Error>, out: Parsed)

  /** A frame the parser stops at: cut off or too large. */
  predicate Stops(rd: Bytes) {
    |rd| < 8 || FromBE(rd[..8]) > MAX_L2_MESSAGE_SIZE || FromBE(rd[..8]) > |rd| - 8
  }

  function Parse(brotli: Brotli, data: Bytes, depth: nat, out: Parsed): Outcome
    decreases |data|, 1
  {
    if data == [] then Outcome(None, out)
    else
      var kind, body := data[0], data[1..];
      if kind == SIGNED_TX then Outcome(None, out.(signed := out.signed + [body]))
      else if kind == SIGNED_COMPRESSED_TX then
        match brotli.decompress(body)
        case None => Outcome(Some(Compression), out)
        case Some(tx) => Outcome(None, out.(signed := out.signed + [tx]))
      else if kind == BATCH then
        if depth >= MAX_BATCH_DEPTH then Outcome(Some(BatchTooDeep), out) else ParseFrames(brotli, body, depth + 1, out)
      else if kind == UNSIGNED_USER_TX || kind == CONTRACT_TX then Outcome(None, out.(unsigned := out.unsigned + 1))
      else Outcome(None, out)
  }

  function ParseFrames(brotli: Brotli, rd: Bytes, depth: nat, out: Parsed): Outcome
    decreases |rd|, 0
  {
    if Stops(rd) then Outcome(None, out)
    else
      var length := FromBE(rd[..8]);
      var o := Parse(brotli, rd[8..][..length], depth, out);
      if o.error.Some? then o else ParseFrames(brotli, rd[8..][length..], depth, o.out)
  }

  /** The collector the recursion appends to. */
  class ParsedL2 {
    var signedTxs: seq<Bytes>
    var unsignedCount: nat

    ghost function View(): Parsed
      reads this
    {
      Parsed(signedTxs, unsignedCount)
    }

    constructor ()
      ensures View() == Parsed([], 0)
    {
      signedTxs, unsignedCount := [], 0;
    }

    method ParseInto(brotli: Brotli, data: Bytes, depth: nat) returns (error: Option<L2Error>)
      modifies this
      ensures Outcome(error, View()) == Parse(brotli, data, depth, old(View()))
      decreases |data|, 1
    {
      if data == [] {
        return None;
      }
      var kind, body := data[0], data[1..];
      if kind == SIGNED_TX {
        signedTxs := signedTxs + [body];
      } else if kind == SIGNED_COMPRESSED_TX {
        var tx := brotli.decompress(body);
        if tx.None? {
          return Some(Compression);
        }
        signedTxs := signedTxs + [tx.value];
      } else if kind == BATCH {
        if depth >= MAX_BATCH_DEPTH {
          return Some(BatchTooDeep);
        }
        error := ParseBatch(brotli, body, depth + 1);
        return;
      } else if kind == UNSIGNED_USER_TX || kind == CONTRACT_TX {
        unsignedCount := unsignedCount + 1;
      }
      error := None;
    }

    method ParseBatch(brotli: Brotli, body: Bytes, depth: nat) returns (error: Option<L2Error>)
      modifies this
      ensures Outcome(error, View()) == ParseFrames(brotli, body, depth, old(View()))
      decreases |body|, 0
    {
      var rd := body;
      while !Stops(rd)
        invariant |rd| <= |body|
        invariant ParseFrames(brotli, rd, depth, View()) == ParseFrames(brotli, body, depth, old(View()))
        decreases |rd|
      {
        var length := FromBE(rd[..8]);
        var framed, rest := rd[8..][..length], rd[8..][length..];
        error := ParseInto(brotli, framed, depth);
        if error.Some? {
          return;
        }
        rd := rest;
      }
      error := None;
    }
  }

  // ---------------------------------------------------------------- messages as trees

  datatype Message =
    | Empty
    | Signed(tx: Bytes)
    | Compressed(body: Bytes)
    | Constructed(contract: bool, body: Bytes)
    | Ignored(kind: byte, body: Bytes)
    | Group(children: seq<Message>, tail: Bytes)

  function Encode(m: Message): Bytes
    decreases m
  {
    match m
    case Empty => []
    case Signed(tx) => [SIGNED_TX] + tx
    case Compressed(body) => [SIGNED_COMPRESSED_TX] + body
    case Constructed(contract, body) => [if contract then CONTRACT_TX else UNSIGNED_USER_TX] + body
    case Ignored(kind, body) => [kind] + body
    case Group(children, tail) => [BATCH] + (EncodeAll(children) + tail)
  }

  function Frame(message: Bytes): Bytes {
    FixedBE(|message|, 8) + message
  }

  function EncodeAll(ms: seq<Message>): Bytes
    decreases ms
  {
    if ms == [] then [] else Frame(Encode(ms[0])) + EncodeAll(ms[1..])
  }

  predicate Known(kind: byte) {
    kind in {UNSIGNED_USER_TX, CONTRACT_TX, BATCH, SIGNED_TX, SIGNED_COMPRESSED_TX}
  }

  /** Children fit in a frame; what follows them is where the parser stops. */
  predicate WellFormed(m: Message)
    decreases m
  {
    match m
    case Ignored(kind, _) => !Known(kind)
    case Group(children, tail) => AllWellFormed(children) && Stops(tail)
    case _ => true
  }

  predicate AllWellFormed(ms: seq<Message>)
    decreases ms
  {
    ms == [] || (WellFormed(ms[0]) && |Encode(ms[0])| <= MAX_L2_MESSAGE_SIZE && AllWellFormed(ms[1..]))
  }

  /** The meaning of a message: its leaves from left to right. */
  function Meaning(brotli: Brotli, m: Message, depth: nat, out: Parsed): Outcome
    decreases m
  {
    match m
    case Signed(tx) => Outcome(None, out.(signed := out.signed + [tx]))
    case Compressed(body) =>
      (match brotli.decompress(body)
       case None => Outcome(Some(Compression), out)
       case Some(tx) => Outcome(None, out.(signed := out.signed + [tx])))
    case Constructed(_, _) => Outcome(None, out.(unsigned := out.unsigned + 1))
    case Group(children, _) =>
      if depth >= MAX_BATCH_DEPTH then Outcome(Some(BatchTooDeep), out)
      else MeaningAll(brotli, children, depth + 1, out)
    case _ => Outcome(None, out)
  }

  function MeaningAll(brotli: Brotli, ms: seq<Message>, depth: nat, out: Parsed): Outcome
    decreases ms
  {
    if ms == [] then Outcome(None, out)
    else
      var o := Meaning(brotli, ms[0], depth, out);
      if o.error.Some? then o else MeaningAll(brotli, ms[1..], depth, o.out)
  }

  // ---------------------------------------------------------------- parsing gives the meaning

  lemma LengthReads(length: nat)
    requires length <= MAX_L2_MESSAGE_SIZE
    ensures FromBE(FixedBE(length, 8)) == length
  {
    EightBytes();
    FixedRoundTrip(length, 8);
  }

  lemma FrameReads(message: Bytes, rest: Bytes)
    requires |message| <= MAX_L2_MESSAGE_SIZE
    ensures var rd := Frame(message) + rest;
            && !Stops(rd) && FromBE(rd[..8]) == |message|
            && rd[8..][..|message|] == message && rd[8..][|message|..] == rest
  {
    LengthReads(|message|);
    var rd := Frame(message) + rest;
    assert rd[..8] == FixedBE(|message|, 8);
    assert rd[8..] == message + rest;
  }

  lemma FramesUnfold(brotli: Brotli, message: Bytes, rest: Bytes, depth: nat, out: Parsed)
    requires |message| <= MAX_L2_MESSAGE_SIZE
    ensures var o := Parse(brotli, message, depth, out);
            ParseFrames(brotli, Frame(message) + rest, depth, out) == if o.error.Some? then o
                else ParseFrames(brotli, rest, depth, o.out)
  {
    FrameReads(message, rest);
  }

  /** Parsing the encoding of any message gives its meaning, errors included. */
  lemma {:induction false} ParseMeans(brotli: Brotli, m: Message, depth: nat, out: Parsed)
    requires WellFormed(m)
    ensures Parse(brotli, Encode(m), depth, out) == Meaning(brotli, m, depth, out)
    decreases m
  {
    if m.Group? {
      var data := Encode(m);
      assert data[0] == BATCH && data[1..] == EncodeAll(m.children) + m.tail;
      if depth < MAX_BATCH_DEPTH {
        FramesMean(brotli, m.children, m.tail, depth + 1, out);
      }
    } else if !m.Empty? {
      var data := Encode(m);
      assert data[1..] ==
          match m
          case Signed(tx) => tx
          case Compressed(body) => body
          case Constructed(_, body) => body
          case Ignored(_, body) => body;
    }
  }

  lemma {:induction false} FramesMean(brotli: Brotli, ms: seq<Message>, tail: Bytes, depth: nat, out: Parsed)
    requires AllWellFormed(ms) && Stops(tail)
    ensures ParseFrames(brotli, EncodeAll(ms) + tail, depth, out) == MeaningAll(brotli, ms, depth, out)
    decreases ms
  {
    if ms == [] {
      assert EncodeAll(ms) + tail == tail;
    } else {
      var rest := EncodeAll(ms[1..]) + tail;
      Assoc(Frame(Encode(ms[0])), EncodeAll(ms[1..]), tail);
      FramesUnfold(brotli, Encode(ms[0]), rest, depth, out);
      ParseMeans(brotli, ms[0], depth, out);
      var o := Meaning(brotli, ms[0], depth, out);
      if o.error.None? {
        FramesMean(brotli, ms[1..], tail, depth, o.out);
      }
    }
  }

  // ---------------------------------------------------------------- every input is a message

  lemma {:induction false} FixedOfBE(s: Bytes)
    ensures FixedBE(FromBE(s), |s|) == s
  {
    if s != [] {
      var init := s[..|s| - 1];
      FixedOfBE(init);
      assert s == init + [s[|s| - 1]];
    }
  }

  lemma FrameOf(rd: Bytes)
    requires !Stops(rd)
    ensures var length := FromBE(rd[..8]); rd == Frame(rd[8..][..length]) + rd[8..][length..]
  {
    FixedOfBE(rd[..8]);
    assert rd == rd[..8] + rd[8..];
  }

  /** Every byte string is the encoding of a well-formed message, so `ParseMeans` covers every input. */
  lemma {:induction false} EveryInput(data: Bytes) returns (m: Message)
    ensures WellFormed(m) && Encode(m) == data
    decreases |data|, 1
  {
    if data == [] {
      m := Empty;
    } else {
      var kind, body := data[0], data[1..];
      assert data == [kind] + body;
      if kind == SIGNED_TX {
        m := Signed(body);
      } else if kind == SIGNED_COMPRESSED_TX {
        m := Compressed(body);
      } else if kind == UNSIGNED_USER_TX || kind == CONTRACT_TX {
        m := Constructed(kind == CONTRACT_TX, body);
      } else if kind == BATCH {
        var ms, tail := EveryFrames(body);
        m := Group(ms, tail);
      } else {
        m := Ignored(kind, body);
      }
    }
  }

  lemma {:induction false} EveryFrames(rd: Bytes) returns (ms: seq<Message>, tail: Bytes)
    ensures AllWellFormed(ms) && Stops(tail) && EncodeAll(ms) + tail == rd
    decreases |rd|, 0
  {
    if Stops(rd) {
      ms, tail := [], rd;
    } else {
      var length := FromBE(rd[..8]);
      var framed, rest := rd[8..][..length], rd[8..][length..];
      FrameOf(rd);
      var first := EveryInput(framed);
      var more;
      more, tail := EveryFrames(rest);
      ms := [first] + more;
      assert ms[1..] == more;
      Assoc(Frame(framed), EncodeAll(more), tail);
    }
  }

  // ---------------------------------------------------------------- flattening and the depth limit

  /** Batches nested inside each other along the deepest path. */
  function Height(m: Message): nat
    decreases m
  {
    if m.Group? then 1 + HeightAll(m.children) else 0
  }

  function HeightAll(ms: seq<Message>): (r: nat)
    decreases ms
  {
    if ms == [] then 0 else Max(Height(ms[0]), HeightAll(ms[1..]))
  }

  /** Every compressed transaction decompresses. */
  predicate Clean(brotli: Brotli, m: Message)
    decreases m
  {
    match m
    case Compressed(body) => brotli.decompress(body).Some?
    case Group(children, _) => AllClean(brotli, children)
    case _ => true
  }

  predicate AllClean(brotli: Brotli, ms: seq<Message>)
    decreases ms
  {
    ms == [] || (Clean(brotli, ms[0]) && AllClean(brotli, ms[1..]))
  }

  /** Signed transactions from left to right. */
  function Transactions(brotli: Brotli, m: Message): seq<Bytes>
    requires Clean(brotli, m)
    decreases m
  {
    match m
    case Signed(tx) => [tx]
    case Compressed(body) => [brotli.decompress(body).value]
    case Group(children, _) => TransactionsAll(brotli, children)
    case _ => []
  }

  function TransactionsAll(brotli: Brotli, ms: seq<Message>): seq<Bytes>
    requires AllClean(brotli, ms)
    decreases ms
  {
    if ms == [] then [] else Transactions(brotli, ms[0]) + TransactionsAll(brotli, ms[1..])
  }

  function Unsigned(m: Message): nat
    decreases m
  {
    match m
    case Constructed(_, _) => 1
    case Group(children, _) => UnsignedAll(children)
    case _ => 0
  }

  function UnsignedAll(ms: seq<Message>): nat
    decreases ms
  {
    if ms == [] then 0 else Unsigned(ms[0]) + UnsignedAll(ms[1..])
  }

  function Collected(brotli: Brotli, m: Message, out: Parsed): Parsed
    requires Clean(brotli, m)
  {
    Parsed(out.signed + Transactions(brotli, m), out.unsigned + Unsigned(m))
  }

  function CollectedAll(brotli: Brotli, ms: seq<Message>, out: Parsed): Parsed
    requires AllClean(brotli, ms)
  {
    Parsed(out.signed + TransactionsAll(brotli, ms), out.unsigned + UnsignedAll(ms))
  }

  /** Within the depth limit the meaning is the flattening; past it, and only there, the batch is refused. */
  lemma {:induction false} MeaningFlattens(brotli: Brotli, m: Message, depth: nat, out: Parsed)
    requires Clean(brotli, m) && depth <= MAX_BATCH_DEPTH
    ensures var o := Meaning(brotli, m, depth, out);
            if depth + Height(m) <= MAX_BATCH_DEPTH then o == Outcome(None, Collected(brotli, m, out))
            else o.error == Some(BatchTooDeep)
    decreases m
  {
    if m.Group? {
      if depth < MAX_BATCH_DEPTH {
        MeaningFlattensAll(brotli, m.children, depth + 1, out);
      }
    } else {
      assert out.signed + [] == out.signed;
    }
  }

  lemma {:induction false} MeaningFlattensAll(brotli: Brotli, ms: seq<Message>, depth: nat, out: Parsed)
    requires AllClean(brotli, ms) && depth <= MAX_BATCH_DEPTH
    ensures var o := MeaningAll(brotli, ms, depth, out);
            if depth + HeightAll(ms) <= MAX_BATCH_DEPTH then o == Outcome(None, CollectedAll(brotli, ms, out))
            else o.error == Some(BatchTooDeep)
    decreases ms
  {
    if ms == [] {
      assert out.signed + [] == out.signed;
    } else {
      MeaningFlattens(brotli, ms[0], depth, out);
      if depth + Height(ms[0]) <= MAX_BATCH_DEPTH {
        MeaningFlattensAll(brotli, ms[1..], depth, Collected(brotli, ms[0], out));
        Assoc(out.signed, Transactions(brotli, ms[0]), TransactionsAll(brotli, ms[1..]));
      }
    }
  }

  /** The parser on the encoding of any tree of readable transactions. */
  lemma {:induction false} ParseFlattens(brotli: Brotli, m: Message)
    requires WellFormed(m) && Clean(brotli, m)
    ensures var o := Parse(brotli, Encode(m), 0, Parsed([], 0));
            if Height(m) <= MAX_BATCH_DEPTH then o == Outcome(None, Parsed(Transactions(brotli, m), Unsigned(m)))
            else o.error == Some(BatchTooDeep)
  {
    ParseMeans(brotli, m, 0, Parsed([], 0));
    MeaningFlattens(brotli, m, 0, Parsed([], 0));
    assert [] + Transactions(brotli, m) == Transactions(brotli, m);
  }
}
