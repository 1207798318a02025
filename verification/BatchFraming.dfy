/**
  Framing of a sequencer batch: a 40-byte time-bounds header, a compression flag and a stream of RLP
  byte strings, each one segment.  Compression is a parameter.
*/
module BatchFraming {
  import opened Prelude
  import opened Rlp
  import opened BlobCodec

  const BROTLI_FLAG: byte := 0x00
  const HEADER_LENGTH: nat := 40

  /** Decompression is partial. */
  datatype Brotli = Brotli(compress: Bytes -> Bytes, decompress: Bytes -> Option<Bytes>)
  {
    ghost predicate LeftInverse() {
      forall b :: decompress(compress(b)) == Some(b)
    }
  }

  datatype Segment = Segment(kind: byte, data: Bytes)

  datatype FramingError =
    | Truncated
    | UnsupportedFlag(flag: byte)
    | BadCompression
    | SegmentHeader
    | SegmentIsList
    | BlobFailure(error: BlobError)

  // ---------------------------------------------------------------- segments

  /** An empty item yields no segment. */
  function SegmentOf(item: Bytes): seq<Segment> {
    if item == [] then [] else [Segment(item[0], item[1..])]
  }

  function Prepend(init: seq<Segment>, r: Result<seq<Segment>, FramingError>): Result<seq<Segment>, FramingError> {
    if r.Ok? then Ok(init + r.value) else r
  }

  function Failure(error: RlpError): FramingError {
    if error.UnexpectedList? then SegmentIsList else SegmentHeader
  }

  function Segments(buf: Bytes): Result<seq<Segment>, FramingError>
    decreases |buf|
  {
    if buf == [] then Ok([])
    else
      match DecodeString(buf)
      case Err(error) => Err(Failure(error))
      case Ok(item) => Prepend(SegmentOf(item.payload), Segments(item.rest))
  }

  lemma PrependNothing(r: Result<seq<Segment>, FramingError>)
    ensures Prepend([], r) == r
  {
    if r.Ok? {
      assert [] + r.value == r.value;
    }
  }

  lemma PrependTwice(a: seq<Segment>, b: seq<Segment>, r: Result<seq<Segment>, FramingError>)
    ensures Prepend(a, Prepend(b, r)) == Prepend(a + b, r)
  {
    if r.Ok? {
      Assoc(a, b, r.value);
    }
  }

  lemma Unfolds(buf: Bytes, item: Item)
    requires buf != [] && DecodeString(buf) == Ok(item)
    ensures Segments(buf) == Prepend(SegmentOf(item.payload), Segments(item.rest))
  {
  }

  /** The buffer shrinks item by item. */
  method ParseSegments(input: Bytes) returns (r: Result<seq<Segment>, FramingError>)
    ensures r == Segments(input)
  {
    var buf, segs := input, [];
    PrependNothing(Segments(input));
    while buf != []
      invariant Prepend(segs, Segments(buf)) == Segments(input)
      decreases |buf|
    {
      var next := DecodeString(buf);
      if next.Err? {
        return Err(Failure(next.error));
      }
      var item := next.value;
      Unfolds(buf, item);
      PrependTwice(segs, SegmentOf(item.payload), Segments(item.rest));
      segs, buf := segs + SegmentOf(item.payload), item.rest;
    }
    assert segs + [] == segs;
    r := Ok(segs);
  }

  // ---------------------------------------------------------------- the encoder's side

  predicate Fits(items: seq<Bytes>) {
    forall i :: 0 <= i < |items| ==> |items[i]| < U64_LIMIT
  }

  function Concatenated(items: seq<Bytes>): Bytes
    requires Fits(items)
  {
    if items == [] then [] else EncodeString(items[0]) + Concatenated(items[1..])
  }

  function Kept(items: seq<Bytes>): seq<Segment> {
    if items == [] then [] else SegmentOf(items[0]) + Kept(items[1..])
  }

  /** Parsing a concatenation returns its non-empty items in order. */
  lemma {:induction false} ParsesConcatenation(items: seq<Bytes>)
    requires Fits(items)
    ensures Segments(Concatenated(items)) == Ok(Kept(items))
  {
    if items != [] {
      var rest := Concatenated(items[1..]);
      ParsesConcatenation(items[1..]);
      StringRoundTrip(items[0], rest);
      Unfolds(Concatenated(items), Item(items[0], rest));
    }
  }

  /** Whatever parses is a concatenation of canonical strings: nothing else is accepted. */
  lemma {:induction false} ParsedIsConcatenation(buf: Bytes) returns (items: seq<Bytes>)
    requires Segments(buf).Ok?
    ensures Fits(items) && buf == Concatenated(items) && Segments(buf) == Ok(Kept(items))
    decreases |buf|
  {
    if buf == [] {
      items := [];
    } else {
      var item := DecodeString(buf).value;
      Unfolds(buf, item);
      DecodesIffEncoded(buf, item.payload, item.rest);
      var more := ParsedIsConcatenation(item.rest);
      items := [item.payload] + more;
      assert items[1..] == more;
    }
  }

  function ItemsOf(segments: seq<Segment>): (items: seq<Bytes>)
    ensures |items| == |segments|
    ensures forall i :: 0 <= i < |items| ==> items[i] == [segments[i].kind] + segments[i].data
  {
    seq(|segments|, i requires 0 <= i < |segments| => [segments[i].kind] + segments[i].data)
  }

  lemma {:induction false} KeepsSegments(segments: seq<Segment>)
    ensures Kept(ItemsOf(segments)) == segments
  {
    if segments != [] {
      KeepsSegments(segments[1..]);
      var items := ItemsOf(segments);
      assert items[1..] == ItemsOf(segments[1..]);
      assert items[0][1..] == segments[0].data;
      assert [segments[0]] + segments[1..] == segments;
    }
  }

  // ---------------------------------------------------------------- payloads

  function DecompressPayload(brotli: Brotli, payload: Bytes): Result<Bytes, FramingError> {
    if payload == [] then Err(Truncated)
    else if payload[0] != BROTLI_FLAG then Err(UnsupportedFlag(payload[0]))
    else
      match brotli.decompress(payload[1..])
      case None => Err(BadCompression)
      case Some(data) => Ok(data)
  }

  /** An empty payload is a valid message without segments. */
  function PayloadSegments(brotli: Brotli, payload: Bytes): Result<seq<Segment>, FramingError> {
    if payload == [] then Ok([])
    else
      var data := DecompressPayload(brotli, payload);
      if data.Err? then Err(data.error) else Segments(data.value)
  }

  /** From blobs to segments. */
  function DecodeBatch(brotli: Brotli, blobs: seq<Blob>): Result<seq<Segment>, FramingError> {
    var payload := DecodeData(AllData(blobs));
    if payload.Err? then Err(BlobFailure(payload.error)) else PayloadSegments(brotli, payload.value)
  }

  function EncodePayload(brotli: Brotli, segments: seq<Segment>): Bytes
    requires Fits(ItemsOf(segments))
  {
    [BROTLI_FLAG] + brotli.compress(Concatenated(ItemsOf(segments)))
  }

  /** Any list of segments survives concatenation, compression, blob packing and decoding. */
  lemma {:induction false} BatchRoundTrip(brotli: Brotli, segments: seq<Segment>)
    requires brotli.LeftInverse()
    requires Fits(ItemsOf(segments)) && |EncodePayload(brotli, segments)| < U64_LIMIT
    ensures DecodeBatch(brotli, EncodeBlobs(EncodePayload(brotli, segments))) == Ok(segments)
  {
    var payload := EncodePayload(brotli, segments);
    BlobsRoundTrip(payload);
    assert payload[0] == BROTLI_FLAG && payload[1..] == brotli.compress(Concatenated(ItemsOf(segments)));
    ParsesConcatenation(ItemsOf(segments));
    KeepsSegments(segments);
  }

  // ---------------------------------------------------------------- the time-bounds header

  datatype BatchHeader = BatchHeader(
    minTimestamp: u64, maxTimestamp: u64, minL1Block: u64, maxL1Block: u64, afterDelayedMessages: u64)

  function FixedBE(n: nat, width: nat): (s: Bytes)
    ensures |s| == width
  {
    if width == 0 then [] else FixedBE(n / 256, width - 1) + [n % 256]
  }

  lemma {:induction false} FixedRoundTrip(n: nat, width: nat)
    requires n < Pow256(width)
    ensures FromBE(FixedBE(n, width)) == n
  {
    if width > 0 {
      FixedRoundTrip(n / 256, width - 1);
      assert FixedBE(n, width)[..width - 1] == FixedBE(n / 256, width - 1);
    }
  }

  function ReadU64(data: Bytes, offset: nat): u64
    requires offset + 8 <= |data|
  {
    ShortLength(data[offset..offset + 8]);
    FromBE(data[offset..offset + 8])
  }

  function ParseHeader(data: Bytes): Result<(BatchHeader, Bytes), FramingError> {
    if |data| < HEADER_LENGTH then Err(Truncated)
    else Ok((BatchHeader(ReadU64(data, 0), ReadU64(data, 8), ReadU64(data, 16), ReadU64(data, 24), ReadU64(data, 32)),
        data[HEADER_LENGTH..]))
  }

  function SerializeHeader(h: BatchHeader): (s: Bytes)
    ensures |s| == HEADER_LENGTH
  {
    FixedBE(h.minTimestamp, 8) + FixedBE(h.maxTimestamp, 8) + FixedBE(h.minL1Block, 8) + FixedBE(h.maxL1Block, 8) +
        FixedBE(h.afterDelayedMessages, 8)
  }

  lemma ReadsField(data: Bytes, offset: nat, n: u64)
    requires offset + 8 <= |data| && data[offset..offset + 8] == FixedBE(n, 8)
    ensures ReadU64(data, offset) == n
  {
    EightBytes();
    FixedRoundTrip(n, 8);
  }

  lemma FiveFields(a: Bytes, b: Bytes, c: Bytes, d: Bytes, e: Bytes, rest: Bytes)
    requires |a| == 8 && |b| == 8 && |c| == 8 && |d| == 8 && |e| == 8
    ensures var data := a + b + c + d + e + rest;
            && data[0..8] == a && data[8..16] == b && data[16..24] == c && data[24..32] == d && data[32..40] == e
            && data[40..] == rest
  {
  }

  lemma {:induction false} HeaderRoundTrip(h: BatchHeader, payload: Bytes)
    ensures ParseHeader(SerializeHeader(h) + payload) == Ok((h, payload))
  {
    var data := SerializeHeader(h) + payload;
    FiveFields(FixedBE(h.minTimestamp, 8), FixedBE(h.maxTimestamp, 8), FixedBE(h.minL1Block, 8), FixedBE(h.maxL1Block,
        8), FixedBE(h.afterDelayedMessages, 8), payload);
    ReadsField(data, 0, h.minTimestamp);
    ReadsField(data, 8, h.maxTimestamp);
    ReadsField(data, 16, h.minL1Block);
    ReadsField(data, 24, h.maxL1Block);
    ReadsField(data, 32, h.afterDelayedMessages);
  }
}
