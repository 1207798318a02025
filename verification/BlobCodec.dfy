/**
  Arbitrum batches in EIP-4844 blobs (section "Parameters" of EIP-4844: 4096 field elements of 32
  bytes).  Byte 0 of a field element carries 6 spare bits, bytes 1..32 carry 31 body bytes.
*/
module BlobCodec {
  import opened Prelude
  import opened Rlp

  const FIELD_ELEMENTS: nat := 4096
  const BODY_BYTES: nat := 126_976
  const BLOB_DATA: nat := 130_048

  type Blob = b: Bytes | |b| == 131_072 witness seq(131_072, i => 0)

  datatype BlobError = SpareBits(bits: nat) | BadRlp(error: RlpError)

  // ---------------------------------------------------------------- words of bits

  /** Left shift. */
  function Shl(x: nat, k: nat): nat {
    if k == 0 then x else 2 * Shl(x, k - 1)
  }

  /** Bitwise or. */
  function Or(a: nat, b: nat): nat {
    if a == 0 then b
    else if b == 0 then a
    else 2 * Or(a / 2, b / 2) + if a % 2 == 1 || b % 2 == 1 then 1 else 0
  }

  /** Or with a word shifted past the other one's bits is their sum. */
  lemma {:induction false} OrDisjoint(a: nat, b: nat, k: nat)
    requires a < Shl(1, k)
    ensures Or(a, Shl(b, k)) == a + Shl(b, k)
  {
    if a > 0 && b > 0 {
      OrDisjoint(a / 2, b, k - 1);
    } else if k > 0 {
      OrDisjoint(0, b, k - 1);
    }
    if b == 0 {
      ShlZero(k);
    }
  }

  lemma {:induction false} ShlZero(k: nat)
    ensures Shl(0, k) == 0
  {
    if k > 0 { ShlZero(k - 1); }
  }

  lemma SmallShifts(b: nat)
    ensures Shl(b, 0) == b && Shl(b, 2) == 4 * b && Shl(b, 4) == 16 * b && Shl(b, 6) == 64 * b
  {
    assert Shl(b, 1) == 2 * b;
    assert Shl(b, 3) == 8 * b;
    assert Shl(b, 5) == 32 * b;
  }

  // ---------------------------------------------------------------- spare bits

  /** The accumulator while spare bits are reassembled into bytes. */
  datatype Spare = Spare(acc: nat, bits: nat, out: Bytes)

  function AddSpare(s: Spare, head: byte): Spare
    requires s.bits < 8
  {
    var acc := Or(s.acc, Shl(head, s.bits));
    if s.bits + 6 >= 8 then Spare(acc / 256, s.bits - 2, s.out + [acc % 256])
    else Spare(acc, s.bits + 6, s.out)
  }

  function AddSpares(s: Spare, heads: Bytes): (r: Spare)
    requires s.bits < 8
    ensures r.bits < 8
    decreases |heads|
  {
    if heads == [] then s else AddSpares(AddSpare(s, heads[0]), heads[1..])
  }

  lemma {:induction false} AddSparesConcat(s: Spare, heads: Bytes, more: Bytes)
    requires s.bits < 8
    ensures AddSpares(s, heads + more) == AddSpares(AddSpares(s, heads), more)
    decreases |heads|
  {
    if heads == [] {
      assert heads + more == more;
    } else {
      assert (heads + more)[0] == heads[0] && (heads + more)[1..] == heads[1..] + more;
      AddSparesConcat(AddSpare(s, heads[0]), heads[1..], more);
    }
  }

  lemma AddFour(s: Spare, heads: Bytes, s1: Spare, s2: Spare, s3: Spare, s4: Spare)
    requires s.bits < 8 && s1.bits < 8 && s2.bits < 8 && s3.bits < 8 && |heads| == 4
    requires AddSpare(s, heads[0]) == s1 && AddSpare(s1, heads[1]) == s2
    requires AddSpare(s2, heads[2]) == s3 && AddSpare(s3, heads[3]) == s4
    ensures AddSpares(s, heads) == s4
  {
    assert heads[1..][0] == heads[1] && heads[1..][1..] == heads[2..];
    assert heads[2..][0] == heads[2] && heads[2..][1..] == heads[3..];
    assert heads[3..][0] == heads[3] && heads[3..][1..] == [];
    assert AddSpares(s4, []) == s4;
    assert AddSpares(s3, heads[3..]) == s4;
    assert AddSpares(s2, heads[2..]) == s4;
    assert AddSpares(s1, heads[1..]) == s4;
  }

  lemma FourSpares(s: Spare, heads: Bytes)
    requires s.bits == 0 && |heads| == 4
    ensures AddSpares(s, heads).bits == 0 && |AddSpares(s, heads).out| == |s.out| + 3
  {
    var s1 := AddSpare(s, heads[0]);
    var s2 := AddSpare(s1, heads[1]);
    var s3 := AddSpare(s2, heads[2]);
    AddFour(s, heads, s1, s2, s3, AddSpare(s3, heads[3]));
  }

  /** Every four field elements yield three bytes, whatever their contents. */
  lemma {:induction false} SparesDrain(s: Spare, heads: Bytes)
    requires s.bits == 0 && |heads| % 4 == 0
    ensures AddSpares(s, heads).bits == 0
    ensures |AddSpares(s, heads).out| == |s.out| + |heads| / 4 * 3
    decreases |heads|
  {
    if heads != [] {
      FourSpares(s, heads[..4]);
      AddSparesConcat(s, heads[..4], heads[4..]);
      assert heads == heads[..4] + heads[4..];
      SparesDrain(AddSpares(s, heads[..4]), heads[4..]);
    }
  }

  // ---------------------------------------------------------------- decoding

  function Heads(blob: Bytes, n: nat): (r: Bytes)
    requires 32 * n <= |blob|
    ensures |r| == n
  {
    seq(n, i requires 0 <= i < n => blob[32 * i])
  }

  function Bodies(blob: Bytes, n: nat): (r: Bytes)
    requires 32 * n <= |blob|
    ensures |r| == 31 * n
  {
    if n == 0 then [] else Bodies(blob, n - 1) + blob[32 * (n - 1) + 1..32 * n]
  }

  /** The bytes one blob carries: all bodies, then the bytes made of spare bits. */
  function BlobData(blob: Blob): (r: Bytes)
    ensures |r| == BLOB_DATA
  {
    SparesDrain(Spare(0, 0, []), Heads(blob, FIELD_ELEMENTS));
    Bodies(blob, FIELD_ELEMENTS) + AddSpares(Spare(0, 0, []), Heads(blob, FIELD_ELEMENTS)).out
  }

  function AllData(blobs: seq<Blob>): Bytes {
    if blobs == [] then [] else BlobData(blobs[0]) + AllData(blobs[1..])
  }

  function DecodeData(data: Bytes): Result<Bytes, BlobError> {
    var item := DecodeString(data);
    if item.Err? then Err(BadRlp(item.error)) else Ok(item.value.payload)
  }

  /** Both passes over one blob; `bits` is what the accumulator is left with. */
  method DecodeBlob(blob: Blob) returns (data: Bytes, bits: nat)
    ensures data == BlobData(blob) && bits == 0
  {
    data := [];
    for fe := 0 to FIELD_ELEMENTS
      invariant data == Bodies(blob, fe)
    {
      data := data + blob[32 * fe + 1..32 * fe + 32];
    }
    ghost var heads := Heads(blob, FIELD_ELEMENTS);
    var spare := Spare(0, 0, []);
    assert heads[0..] == heads;
    for fe := 0 to FIELD_ELEMENTS
      invariant spare.bits < 8
      invariant AddSpares(spare, heads[fe..]) == AddSpares(Spare(0, 0, []), heads)
    {
      assert heads[fe..][0] == blob[32 * fe] && heads[fe..][1..] == heads[fe + 1..];
      spare := AddSpare(spare, blob[32 * fe]);
    }
    SparesDrain(Spare(0, 0, []), heads);
    data, bits := data + spare.out, spare.bits;
  }

  /** The spare-bit error is in the code but no blob can raise it. */
  method DecodeBlobs(blobs: seq<Blob>) returns (r: Result<Bytes, BlobError>)
    ensures r == DecodeData(AllData(blobs))
    ensures r.Err? ==> r.error.BadRlp?
  {
    var data: Bytes := [];
    assert blobs[0..] == blobs && [] + AllData(blobs) == AllData(blobs);
    for i := 0 to |blobs|
      invariant data + AllData(blobs[i..]) == AllData(blobs)
    {
      var one, bits := DecodeBlob(blobs[i]);
      if bits != 0 {
        return Err(SpareBits(bits));
      }
      assert blobs[i..][0] == blobs[i] && blobs[i..][1..] == blobs[i + 1..];
      Assoc(data, one, AllData(blobs[i + 1..]));
      data := data + one;
    }
    assert data + [] == data;
    r := DecodeData(data);
  }

  // ---------------------------------------------------------------- encoding

  /** The accumulator while bytes are spread over 6-bit slots. */
  datatype Packer = Packer(acc: nat, bits: nat, spares: Bytes)

  function PackOne(p: Packer): (r: (byte, Packer))
    requires p.bits < 8
    ensures r.1.bits < 8
  {
    var load := p.bits < 6 && p.spares != [];
    var acc := if load then Or(p.acc, Shl(p.spares[0], p.bits)) else p.acc;
    var bits := if load then p.bits + 8 else p.bits;
    (acc % 64, Packer(acc / 64, if bits < 6 then 0 else bits - 6, if load then p.spares[1..] else p.spares))
  }

  function Pack(p: Packer, n: nat): (r: Bytes)
    requires p.bits < 8
    ensures |r| == n
    decreases n
  {
    if n == 0 then [] else [PackOne(p).0] + Pack(PackOne(p).1, n - 1)
  }

  /** One field element after another: a slot, then 31 body bytes. */
  function FieldElements(heads: Bytes, bodies: Bytes, n: nat): (r: Bytes)
    requires n <= |heads| && 31 * n <= |bodies|
    ensures |r| == 32 * n
  {
    if n == 0 then [] else FieldElements(heads, bodies, n - 1) + ([heads[n - 1]] + bodies[31 * (n - 1)..31 * n])
  }

  function EncodeBlob(chunk: Bytes): Blob
    requires |chunk| == BLOB_DATA
  {
    FieldElements(Pack(Packer(0, 0, chunk[BODY_BYTES..]), FIELD_ELEMENTS), chunk[..BODY_BYTES], FIELD_ELEMENTS)
  }

  function Zeros(n: nat): (r: Bytes)
    ensures |r| == n
  {
    seq(n, i => 0)
  }

  /** Splits into blob-sized chunks, the last one padded with zeros; at least one blob. */
  function EncodeChunks(data: Bytes): seq<Blob>
    decreases |data|
  {
    if |data| <= BLOB_DATA then [EncodeBlob(data + Zeros(BLOB_DATA - |data|))]
    else [EncodeBlob(data[..BLOB_DATA])] + EncodeChunks(data[BLOB_DATA..])
  }

  function EncodeBlobs(payload: Bytes): seq<Blob>
    requires |payload| < U64_LIMIT
  {
    EncodeChunks(EncodeString(payload))
  }

  /** As the repository's own round-trip encoder: always a length header. */
  function EncodeBlobsWithHeader(payload: Bytes): seq<Blob>
    requires |payload| < U64_LIMIT
  {
    EncodeChunks(LengthHeader(|payload|) + payload)
  }

  // ---------------------------------------------------------------- the 6-bit packing

  /** Packing steps with the accumulator below its bit count. */
  lemma PackLoads(acc: nat, bits: nat, spares: Bytes)
    requires bits < 6 && acc < Shl(1, bits) && spares != []
    ensures var sum := acc + Shl(spares[0], bits);
            PackOne(Packer(acc, bits, spares)) == (sum % 64, Packer(sum / 64, bits + 2, spares[1..]))
  {
    OrDisjoint(acc, spares[0], bits);
  }

  lemma SpareAdds(acc: nat, bits: nat, out: Bytes, head: byte)
    requires bits < 8 && acc < Shl(1, bits)
    ensures var sum := acc + Shl(head, bits);
            AddSpare(Spare(acc, bits, out), head) ==
            if bits >= 2 then Spare(sum / 256, bits - 2, out + [sum % 256]) else Spare(sum, bits + 6, out)
  {
    OrDisjoint(acc, head, bits);
  }

  /** The four slots of three bytes. */
  function Slots(x: byte, y: byte, z: byte): (r: Bytes)
    ensures |r| == 4
  {
    [x % 64, x / 64 + y % 16 * 4, y / 16 + z % 4 * 16, z / 4]
  }

  lemma PackFourSteps(p0: Packer, p1: Packer, p2: Packer, p3: Packer, p4: Packer, h: Bytes, n: nat)
    requires n >= 4 && p0.bits < 8 && |h| == 4
    requires PackOne(p0) == (h[0], p1) && PackOne(p1) == (h[1], p2) && PackOne(p2) == (h[2], p3) &&
        PackOne(p3) == (h[3], p4)
    ensures Pack(p0, n) == h + Pack(p4, n - 4)
  {
    assert Pack(p3, n - 3) == [h[3]] + Pack(p4, n - 4);
    assert Pack(p2, n - 2) == [h[2]] + Pack(p3, n - 3);
    assert Pack(p1, n - 1) == [h[1]] + Pack(p2, n - 2);
  }

  lemma Low64(high: nat, low: nat)
    requires low < 64
    ensures (64 * high + low) % 64 == low && (64 * high + low) / 64 == high
  {
  }

  lemma Low256(high: nat, low: nat)
    requires low < 256
    ensures (256 * high + low) % 256 == low && (256 * high + low) / 256 == high
  {
  }

  lemma PackFirst(spares: Bytes)
    requires spares != []
    ensures PackOne(Packer(0, 0, spares)) == (spares[0] % 64, Packer(spares[0] / 64, 2, spares[1..]))
  {
    SmallShifts(1);
    SmallShifts(spares[0]);
    PackLoads(0, 0, spares);
  }

  lemma PackSecond(x: byte, spares: Bytes)
    requires spares != []
    ensures PackOne(Packer(x / 64, 2, spares)) == (x / 64 + spares[0] % 16 * 4, Packer(spares[0] / 16, 4, spares[1..]))
  {
    SmallShifts(1);
    SmallShifts(spares[0]);
    PackLoads(x / 64, 2, spares);
    Low64(spares[0] / 16, x / 64 + spares[0] % 16 * 4);
  }

  lemma PackThird(y: byte, spares: Bytes)
    requires spares != []
    ensures PackOne(Packer(y / 16, 4, spares)) == (y / 16 + spares[0] % 4 * 16, Packer(spares[0] / 4, 6, spares[1..]))
  {
    SmallShifts(1);
    SmallShifts(spares[0]);
    PackLoads(y / 16, 4, spares);
    Low64(spares[0] / 4, y / 16 + spares[0] % 4 * 16);
  }

  lemma PackFourth(z: byte, spares: Bytes)
    ensures PackOne(Packer(z / 4, 6, spares)) == (z / 4, Packer(0, 0, spares))
  {
  }

  /** Packing three bytes fills four slots and leaves the accumulator empty. */
  lemma PackThree(x: byte, y: byte, z: byte, rest: Bytes, n: nat)
    requires n >= 4
    ensures Pack(Packer(0, 0, [x, y, z] + rest), n) == Slots(x, y, z) + Pack(Packer(0, 0, rest), n - 4)
  {
    var s0, s1, s2 := [x, y, z] + rest, [y, z] + rest, [z] + rest;
    PackFirst(s0);
    PackSecond(x, s1);
    PackThird(y, s2);
    PackFourth(z, rest);
    assert s0[1..] == s1 && s1[1..] == s2 && s2[1..] == rest;
    PackFourSteps(Packer(0, 0, s0), Packer(x / 64, 2, s1), Packer(y / 16, 4, s2), Packer(z / 4, 6, rest), Packer(0, 0,
        rest), Slots(x, y, z), n);
  }

  lemma UnpackFirst(out: Bytes, x: byte)
    ensures AddSpare(Spare(0, 0, out), x % 64) == Spare(x % 64, 6, out)
  {
    SmallShifts(1);
    SmallShifts(x % 64);
    SpareAdds(0, 0, out, x % 64);
  }

  lemma UnpackSecond(out: Bytes, x: byte, y: byte)
    ensures AddSpare(Spare(x % 64, 6, out), x / 64 + y % 16 * 4) == Spare(y % 16, 4, out + [x])
  {
    SmallShifts(1);
    SmallShifts(x / 64 + y % 16 * 4);
    SpareAdds(x % 64, 6, out, x / 64 + y % 16 * 4);
    Low256(y % 16, x);
  }

  lemma UnpackThird(out: Bytes, y: byte, z: byte)
    ensures AddSpare(Spare(y % 16, 4, out), y / 16 + z % 4 * 16) == Spare(z % 4, 2, out + [y])
  {
    SmallShifts(1);
    SmallShifts(y / 16 + z % 4 * 16);
    SpareAdds(y % 16, 4, out, y / 16 + z % 4 * 16);
    Low256(z % 4, y);
  }

  lemma UnpackFourth(out: Bytes, z: byte)
    ensures AddSpare(Spare(z % 4, 2, out), z / 4) == Spare(0, 0, out + [z])
  {
    SmallShifts(1);
    SmallShifts(z / 4);
    SpareAdds(z % 4, 2, out, z / 4);
  }

  /** Reading the four slots back restores the three bytes. */
  lemma UnpackFour(out: Bytes, x: byte, y: byte, z: byte)
    ensures AddSpares(Spare(0, 0, out), Slots(x, y, z)) == Spare(0, 0, out + [x] + [y] + [z])
  {
    UnpackFirst(out, x);
    UnpackSecond(out, x, y);
    UnpackThird(out + [x], y, z);
    UnpackFourth(out + [x] + [y], z);
    AddFour(Spare(0, 0, out), Slots(x, y, z), Spare(x % 64, 6, out), Spare(y % 16, 4, out + [x]), Spare(z % 4, 2,
        out + [x] + [y]), Spare(0, 0, out + [x] + [y] + [z]));
  }

  lemma GroupRoundTrip(out: Bytes, group: Bytes, rest: Bytes, n: nat)
    requires n >= 4 && |group| == 3
    requires AddSpares(Spare(0, 0, out + group), Pack(Packer(0, 0, rest), n - 4)) == Spare(0, 0, out + group + rest)
    ensures AddSpares(Spare(0, 0, out), Pack(Packer(0, 0, group + rest), n)) == Spare(0, 0, out + (group + rest))
  {
    var x, y, z := group[0], group[1], group[2];
    assert group == [x, y, z];
    assert out + [x] + [y] + [z] == out + group;
    PackThree(x, y, z, rest, n);
    UnpackFour(out, x, y, z);
    AddSparesConcat(Spare(0, 0, out), Slots(x, y, z), Pack(Packer(0, 0, rest), n - 4));
    Assoc(out, group, rest);
  }

  /** The 6-bit packing and its inverse agree for every payload of whole groups. */
  lemma {:induction false} SparesRoundTrip(out: Bytes, spares: Bytes, n: nat)
    requires 4 * |spares| == 3 * n
    ensures AddSpares(Spare(0, 0, out), Pack(Packer(0, 0, spares), n)) == Spare(0, 0, out + spares)
    decreases n
  {
    if n == 0 {
      assert out + spares == out;
    } else {
      assert |spares| >= 3;
      var group, rest := spares[..3], spares[3..];
      SparesRoundTrip(out + group, rest, n - 4);
      GroupRoundTrip(out, group, rest, n);
      assert spares == group + rest;
    }
  }

  // ---------------------------------------------------------------- whole blobs

  lemma {:induction false} PrefixParts(blob: Bytes, more: Bytes, n: nat)
    requires 32 * n <= |blob|
    ensures Heads(blob + more, n) == Heads(blob, n) && Bodies(blob + more, n) == Bodies(blob, n)
  {
    if n > 0 {
      PrefixParts(blob, more, n - 1);
      assert (blob + more)[32 * (n - 1) + 1..32 * n] == blob[32 * (n - 1) + 1..32 * n];
    }
  }

  lemma LastFieldElement(init: Bytes, head: byte, body: Bytes, n: nat)
    requires n > 0 && |init| == 32 * (n - 1) && |body| == 31
    ensures var blob := init + ([head] + body);
            && Heads(blob, n) == Heads(blob, n - 1) + [head]
            && Bodies(blob, n) == Bodies(blob, n - 1) + body
  {
    var blob := init + ([head] + body);
    assert blob[32 * (n - 1)] == head;
    assert blob[32 * (n - 1) + 1..32 * n] == body;
  }

  /** The decoder finds slots and bodies where the encoder put them. */
  lemma {:induction false} FieldElementParts(heads: Bytes, bodies: Bytes, n: nat)
    requires n <= |heads| && 31 * n <= |bodies|
    ensures var blob := FieldElements(heads, bodies, n);
            Heads(blob, n) == heads[..n] && Bodies(blob, n) == bodies[..31 * n]
  {
    if n > 0 {
      var init := FieldElements(heads, bodies, n - 1);
      var body := bodies[31 * (n - 1)..31 * n];
      FieldElementParts(heads, bodies, n - 1);
      PrefixParts(init, [heads[n - 1]] + body, n - 1);
      LastFieldElement(init, heads[n - 1], body, n);
      assert heads[..n] == heads[..n - 1] + [heads[n - 1]];
      assert bodies[..31 * n] == bodies[..31 * (n - 1)] + body;
    }
  }

  lemma BlobDataOf(blob: Blob, heads: Bytes, bodies: Bytes, spares: Bytes)
    requires Heads(blob, FIELD_ELEMENTS) == heads && Bodies(blob, FIELD_ELEMENTS) == bodies
    requires AddSpares(Spare(0, 0, []), heads) == Spare(0, 0, spares)
    ensures BlobData(blob) == bodies + spares
  {
  }

  lemma WholeFieldElements(heads: Bytes, bodies: Bytes, n: nat)
    requires |heads| == n && |bodies| == 31 * n
    ensures var blob := FieldElements(heads, bodies, n); Heads(blob, n) == heads && Bodies(blob, n) == bodies
  {
    FieldElementParts(heads, bodies, n);
    assert heads[..n] == heads && bodies[..31 * n] == bodies;
  }

  lemma SparesAlone(spares: Bytes, n: nat)
    requires 4 * |spares| == 3 * n
    ensures AddSpares(Spare(0, 0, []), Pack(Packer(0, 0, spares), n)) == Spare(0, 0, spares)
  {
    SparesRoundTrip([], spares, n);
    assert [] + spares == spares;
  }

  lemma BlobOfParts(blob: Blob, bodies: Bytes, spares: Bytes)
    requires |bodies| == BODY_BYTES && 4 * |spares| == 3 * FIELD_ELEMENTS
    requires blob == FieldElements(Pack(Packer(0, 0, spares), FIELD_ELEMENTS), bodies, FIELD_ELEMENTS)
    ensures BlobData(blob) == bodies + spares
  {
    var heads := Pack(Packer(0, 0, spares), FIELD_ELEMENTS);
    WholeFieldElements(heads, bodies, FIELD_ELEMENTS);
    SparesAlone(spares, FIELD_ELEMENTS);
    BlobDataOf(blob, heads, bodies, spares);
  }

  /** One blob gives back exactly the chunk it was made of. */
  lemma {:induction false} BlobRoundTrip(chunk: Bytes)
    requires |chunk| == BLOB_DATA
    ensures BlobData(EncodeBlob(chunk)) == chunk
  {
    BlobOfParts(EncodeBlob(chunk), chunk[..BODY_BYTES], chunk[BODY_BYTES..]);
    assert chunk[..BODY_BYTES] + chunk[BODY_BYTES..] == chunk;
  }

  /** Any number of blobs gives back the data, followed by zero padding only. */
  lemma {:induction false} ChunksRoundTrip(data: Bytes) returns (pad: nat)
    ensures AllData(EncodeChunks(data)) == data + Zeros(pad)
    decreases |data|
  {
    if |data| <= BLOB_DATA {
      pad := BLOB_DATA - |data|;
      BlobRoundTrip(data + Zeros(pad));
      assert EncodeChunks(data)[1..] == [];
    } else {
      var first, rest := data[..BLOB_DATA], data[BLOB_DATA..];
      pad := ChunksRoundTrip(rest);
      BlobRoundTrip(first);
      assert EncodeChunks(data)[1..] == EncodeChunks(rest);
      Assoc(first, rest, Zeros(pad));
      assert first + rest == data;
    }
  }

  /** Blob-packing and decoding returns every payload, over any number of blobs. */
  lemma {:induction false} BlobsRoundTrip(payload: Bytes)
    requires |payload| < U64_LIMIT
    ensures DecodeData(AllData(EncodeBlobs(payload))) == Ok(payload)
  {
    var pad := ChunksRoundTrip(EncodeString(payload));
    StringRoundTrip(payload, Zeros(pad));
  }

  /** With an unconditional length header the round trip fails exactly on one byte below 0x80. */
  lemma {:induction false} HeaderedRoundTripIff(payload: Bytes)
    requires |payload| < U64_LIMIT
    ensures DecodeData(AllData(EncodeBlobsWithHeader(payload))) == Ok(payload) <==>
        !(|payload| == 1 && payload[0] < 0x80)
  {
    if |payload| == 1 && payload[0] < 0x80 {
      var pad := ChunksRoundTrip(LengthHeader(1) + payload);
      assert payload == [payload[0]];
      HeaderedSmallByteIsRefused(payload[0], Zeros(pad));
    } else {
      BlobsRoundTrip(payload);
    }
  }
}
