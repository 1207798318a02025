/** The primitive fields and the records of a full-snapshot stream: how each is written and read. */
module SnapshotCodec {
  import opened Prelude
  import opened Rlp

  type B256 = s: Bytes | |s| == 32 witness seq(32, i => 0)
  type Address = s: Bytes | |s| == 20 witness seq(20, i => 0)
  /** Fits in 32 big-endian bytes. */
  type U256 = n: nat | |ToBE(n)| <= 32 witness 0

  datatype StreamError =
    | ShortRead
    | BadMagic
    | ExpectedManifest(tag: byte)
    | ExpectedBlocks(tag: byte)
    | InvalidTag(tag: byte)
    | VarintOverflow
    | IntegerTooWide(length: nat)
    | BadCodeHashLength(length: nat)
    | CodeHashMismatch
    | HeaderHashMismatch(block: nat)
    | AboveConvertPoint(block: nat)
    | BadHeader
    | BlocksJump(from: nat, block: nat)
    | BadParent(block: nat)
    | HistoryVersion(version: byte)
    | HistoryDoesNotAdvance(block: nat)
    | HistoryChainBroken(block: nat)
    | NoHistory
    | HistoryEndsAtBlock(block: nat)
    | HistoryEndsAtRoot(root: B256)

  /** A value read from the front of the input, or a failure. */
  datatype Read<+T> = Got(value: T, rest: Bytes) | Failed(error: StreamError)
  {
    predicate IsFailure() {
      Failed?
    }

    function PropagateFailure<U>(): Read<U>
      requires Failed?
    {
      Failed(error)
    }

    function Extract(): (T, Bytes)
      requires Got?
    {
      (value, rest)
    }
  }

  // ---------------------------------------------------------------- fixed-size fields

  function Take(s: Bytes, n: nat): (r: Read<Bytes>)
    ensures r.Got? ==> |r.value| == n && |r.rest| == |s| - n
  {
    if |s| < n then Failed(ShortRead) else Got(s[..n], s[n..])
  }

  lemma TakesBack(b: Bytes, rest: Bytes)
    ensures Take(b + rest, |b|) == Got(b, rest)
  {
    assert (b + rest)[..|b|] == b && (b + rest)[|b|..] == rest;
  }

  function ReadU8(s: Bytes): (r: Read<byte>)
    ensures r.Got? ==> |r.rest| < |s|
  {
    if s == [] then Failed(ShortRead) else Got(s[0], s[1..])
  }

  lemma ByteBack(b: byte, rest: Bytes)
    ensures ReadU8([b] + rest) == Got(b, rest)
  {
    assert ([b] + rest)[1..] == rest;
  }

  function ReadB256(s: Bytes): (r: Read<B256>)
    ensures r.Got? ==> |r.rest| < |s|
  {
    var b :- Take(s, 32);
    Got(b.0, b.1)
  }

  lemma B256Back(b: B256, rest: Bytes)
    ensures ReadB256(b + rest) == Got(b, rest)
  {
    TakesBack(b, rest);
  }

  // ---------------------------------------------------------------- variable-length integers

  /** Seven bits at a time, low bits first, the high bit marking that more follow. */
  function PutUvarint(v: nat): Bytes {
    if v < 0x80 then [v] else [v % 128 + 128] + PutUvarint(v / 128)
  }

  /** `v` shifted left by `7 * k` bits. */
  function Scale(v: nat, k: nat): nat {
    if k == 0 then v else 128 * Scale(v, k - 1)
  }

  /** `value` holds the bits below `7 * k`; bits past 64 are lost, and an eleventh byte is refused. */
  function ReadUvarintFrom(s: Bytes, k: nat, value: nat): (r: Read<nat>)
    ensures r.Got? ==> |r.rest| < |s|
    decreases |s|
  {
    var b :- ReadU8(s);
    var sum := value + Scale(b.0 % 128, k) % U64_LIMIT;
    if b.0 < 128 then Got(sum, b.1)
    else if 7 * (k + 1) >= 64 then Failed(VarintOverflow)
    else ReadUvarintFrom(b.1, k + 1, sum)
  }

  function ReadUvarint(s: Bytes): (r: Read<nat>)
    ensures r.Got? ==> |r.rest| < |s|
  {
    ReadUvarintFrom(s, 0, 0)
  }

  lemma {:induction false} ScaleAdds(a: nat, b: nat, k: nat)
    ensures Scale(128 * a + b, k) == Scale(a, k + 1) + Scale(b, k)
  {
    if k > 0 {
      ScaleAdds(a, b, k - 1);
    }
  }

  lemma {:induction false} ScaleGrows(a: nat, b: nat, k: nat)
    requires a <= b
    ensures Scale(a, k) <= Scale(b, k)
  {
    if k > 0 {
      ScaleGrows(a, b, k - 1);
    }
  }

  lemma TenBytesTooMany()
    ensures Scale(1, 10) >= U64_LIMIT
  {
    assert Scale(1, 4) == 0x1000_0000;
    assert Scale(1, 7) == 0x2_0000_0000_0000;
  }

  lemma {:induction false} ScaleExponent(j: nat, k: nat)
    requires j <= k
    ensures Scale(1, j) <= Scale(1, k)
    decreases k
  {
    if j < k {
      ScaleExponent(j, k - 1);
    }
  }

  lemma FitsInBytes(v: nat, k: nat)
    requires v >= 1 && Scale(v, k) < U64_LIMIT
    ensures 7 * k < 64
  {
    TenBytesTooMany();
    ScaleGrows(1, v, k);
    if k >= 10 {
      ScaleExponent(10, k);
    }
  }

  lemma UvarintUnfolds(b: byte, more: Bytes, k: nat, value: nat)
    ensures var sum := value + Scale(b % 128, k) % U64_LIMIT;
            ReadUvarintFrom([b] + more, k, value) ==
            if b < 128 then Got(sum, more) else if 7 * (k + 1) >= 64 then Failed(VarintOverflow)
            else ReadUvarintFrom(more, k + 1, sum)
  {
    ByteBack(b, more);
  }

  lemma DigitSplit(v: nat, k: nat, low: nat, high: nat)
    requires low == v % 128 && high == v / 128 && high >= 1 && Scale(v, k) < U64_LIMIT
    ensures Scale(v, k) == Scale(high, k + 1) + Scale(low, k) && 7 * (k + 1) < 64
  {
    assert v == 128 * high + low;
    ScaleAdds(high, low, k);
    FitsInBytes(high, k + 1);
  }

  lemma FirstByte(low: nat, more: Bytes, k: nat, value: nat)
    requires low < 128 && Scale(low, k) < U64_LIMIT && 7 * (k + 1) < 64
    ensures ReadUvarintFrom([low + 128] + more, k, value) == ReadUvarintFrom(more, k + 1, value + Scale(low, k))
  {
    assert (low + 128) % 128 == low;
    UvarintUnfolds(low + 128, more, k, value);
  }

  lemma PutUnfolds(v: nat, low: nat, high: nat, rest: Bytes)
    requires low == v % 128 && high == v / 128 && high >= 1
    ensures PutUvarint(v) + rest == [low + 128] + (PutUvarint(high) + rest)
  {
    Assoc([low + 128], PutUvarint(high), rest);
  }

  lemma {:induction false} UvarintBackFrom(v: nat, k: nat, value: nat, rest: Bytes)
    requires Scale(v, k) < U64_LIMIT
    ensures ReadUvarintFrom(PutUvarint(v) + rest, k, value) == Got(value + Scale(v, k), rest)
    decreases v
  {
    if v < 0x80 {
      UvarintUnfolds(v, rest, k, value);
    } else {
      var low, high := v % 128, v / 128;
      DigitSplit(v, k, low, high);
      PutUnfolds(v, low, high, rest);
      FirstByte(low, PutUvarint(high) + rest, k, value);
      UvarintBackFrom(high, k + 1, value + Scale(low, k), rest);
    }
  }

  /** Every 64-bit integer is read back, whatever follows it. */
  lemma {:induction false} UvarintBack(v: u64, rest: Bytes)
    ensures ReadUvarint(PutUvarint(v) + rest) == Got(v, rest)
  {
    UvarintBackFrom(v, 0, 0, rest);
  }

  method WriteUvarint(out: Bytes, v: u64) returns (r: Bytes)
    ensures r == out + PutUvarint(v)
  {
    r := out;
    var left: nat := v;
    while left >= 0x80
      invariant r + PutUvarint(left) == out + PutUvarint(v)
      decreases left
    {
      Assoc(r, [left % 128 + 128], PutUvarint(left / 128));
      r, left := r + [left % 128 + 128], left / 128;
    }
    r := r + [left];
  }

  method ParseUvarint(s: Bytes) returns (r: Read<nat>)
    ensures r == ReadUvarint(s)
  {
    var rest, k: nat, value: nat := s, 0, 0;
    while true
      invariant ReadUvarintFrom(rest, k, value) == ReadUvarint(s)
      decreases |rest|
    {
      if rest == [] {
        return Failed(ShortRead);
      }
      var b := rest[0];
      rest := rest[1..];
      value := value + Scale(b % 128, k) % U64_LIMIT;
      if b < 128 {
        return Got(value, rest);
      }
      if 7 * (k + 1) >= 64 {
        return Failed(VarintOverflow);
      }
      k := k + 1;
    }
  }

  // ---------------------------------------------------------------- short byte strings and blobs

  function PutShort(b: Bytes): Bytes
    requires |b| < 256
  {
    [|b|] + b
  }

  function ReadShort(s: Bytes): (r: Read<Bytes>)
    ensures r.Got? ==> |r.rest| < |s|
  {
    var length :- ReadU8(s);
    Take(length.1, length.0)
  }

  lemma ShortBack(b: Bytes, rest: Bytes)
    requires |b| < 256
    ensures ReadShort(PutShort(b) + rest) == Got(b, rest)
  {
    Assoc([|b|], b, rest);
    ByteBack(|b|, b + rest);
    TakesBack(b, rest);
  }

  /** Big-endian without leading zeros. */
  function PutU256(n: U256): Bytes {
    PutShort(ToBE(n))
  }

  lemma WideEnough(b: Bytes)
    requires |b| <= 32
    ensures |ToBE(FromBE(b))| <= 32
  {
    FromBEBound(b);
    BELength(FromBE(b), |b|);
  }

  function ReadU256(s: Bytes): (r: Read<U256>)
    ensures r.Got? ==> |r.rest| < |s|
  {
    var b :- ReadShort(s);
    if |b.0| > 32 then Failed(IntegerTooWide(|b.0|))
    else
      WideEnough(b.0);
      Got(FromBE(b.0), b.1)
  }

  lemma {:induction false} U256Back(n: U256, rest: Bytes)
    ensures ReadU256(PutU256(n) + rest) == Got(n, rest)
  {
    ShortBack(ToBE(n), rest);
    BERoundTrip(n);
  }

  function PutCodeHash(hash: Option<B256>): Bytes {
    if hash.Some? then PutShort(hash.value) else PutShort([])
  }

  function ReadCodeHash(s: Bytes): (r: Read<Option<B256>>)
    ensures r.Got? ==> |r.rest| < |s|
  {
    var b :- ReadShort(s);
    if b.0 == [] then Got(None, b.1)
    else if |b.0| != 32 then Failed(BadCodeHashLength(|b.0|))
    else Got(Some(b.0), b.1)
  }

  lemma CodeHashBack(hash: Option<B256>, rest: Bytes)
    ensures ReadCodeHash(PutCodeHash(hash) + rest) == Got(hash, rest)
  {
    ShortBack(if hash.Some? then hash.value else [], rest);
  }

  function PutBlob(b: Bytes): Bytes {
    PutUvarint(|b|) + b
  }

  function ReadBlob(s: Bytes): (r: Read<Bytes>)
    ensures r.Got? ==> |r.rest| < |s|
  {
    var length :- ReadUvarint(s);
    Take(length.1, length.0)
  }

  lemma BlobBack(b: Bytes, rest: Bytes)
    requires |b| < U64_LIMIT
    ensures ReadBlob(PutBlob(b) + rest) == Got(b, rest)
  {
    Assoc(PutUvarint(|b|), b, rest);
    UvarintBack(|b|, b + rest);
    TakesBack(b, rest);
  }
}
