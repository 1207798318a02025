/** RLP byte strings and integers, as in Appendix B of the Ethereum Yellow Paper, decoded strictly. */
module Rlp {
  import opened Prelude

  datatype RlpError =
    | InputTooShort
    | NonCanonicalSingleByte
    | NonCanonicalSize
    | LeadingZero
    | Overflow
    | UnexpectedList

  // ---------------------------------------------------------------- big-endian numbers

  function FromBE(s: Bytes): nat {
    if s == [] then 0 else FromBE(s[..|s| - 1]) * 256 + s[|s| - 1]
  }

  /** The shortest big-endian form; zero has none. */
  function ToBE(n: nat): (s: Bytes)
    ensures n == 0 <==> s == []
    ensures s != [] ==> s[0] != 0
  {
    if n == 0 then [] else ToBE(n / 256) + [n % 256]
  }

  function Pow256(k: nat): nat {
    if k == 0 then 1 else 256 * Pow256(k - 1)
  }

  lemma EightBytes()
    ensures Pow256(8) == U64_LIMIT
  {
    assert Pow256(4) == 0x1_0000_0000;
    assert Pow256(6) == 0x1_0000_0000_0000;
  }

  lemma {:induction false} BERoundTrip(n: nat)
    ensures FromBE(ToBE(n)) == n
  {
    if n > 0 {
      BERoundTrip(n / 256);
      assert ToBE(n)[..|ToBE(n)| - 1] == ToBE(n / 256);
    }
  }

  lemma {:induction false} BELength(n: nat, k: nat)
    requires n < Pow256(k)
    ensures |ToBE(n)| <= k
  {
    if n > 0 {
      BELength(n / 256, k - 1);
    }
  }

  lemma U64Length(n: nat)
    requires n < U64_LIMIT
    ensures |ToBE(n)| <= 8
  {
    EightBytes();
    BELength(n, 8);
  }

  lemma {:induction false} FromBEBound(s: Bytes)
    ensures FromBE(s) < Pow256(|s|)
  {
    if s != [] {
      FromBEBound(s[..|s| - 1]);
    }
  }

  // ---------------------------------------------------------------- headers

  datatype Header = Header(list: bool, length: nat, rest: Bytes)

  /** Reads an item header; `rest` starts at the payload, which is known to be complete. */
  function DecodeHeader(buf: Bytes): (r: Result<Header, RlpError>)
    ensures r.Ok? ==> r.value.length <= |r.value.rest| && buf != []
    ensures r.Ok? ==> |r.value.rest| <= |buf| && r.value.rest == buf[|buf| - |r.value.rest|..]
    ensures r.Ok? && r.value.length == 0 ==> |r.value.rest| < |buf|
  {
    if buf == [] then Err(InputTooShort)
    else
      var b, tail := buf[0], buf[1..];
      var h: Result<Header, RlpError> :=
        if b < 0x80 then Ok(Header(false, 1, buf))
        else if b <= 0xb7 then
          if b == 0x81 && tail == [] then Err(InputTooShort)
          else if b == 0x81 && tail[0] < 0x80 then Err(NonCanonicalSingleByte)
          else Ok(Header(false, b - 0x80, tail))
        else if b <= 0xbf then DecodeLongLength(false, b - 0xb7, tail)
        else if b <= 0xf7 then Ok(Header(true, b - 0xc0, tail))
        else DecodeLongLength(true, b - 0xf7, tail);
      if h.Ok? && |h.value.rest| < h.value.length then Err(InputTooShort) else h
  }

  function DecodeLongLength(list: bool, lenOfLen: nat, tail: Bytes): (r: Result<Header, RlpError>)
    requires 1 <= lenOfLen
    ensures r.Ok? ==>
              |r.value.rest| <= |tail| && r.value.rest == tail[|tail| - |r.value.rest|..] && r.value.length >= 56
  {
    if |tail| < lenOfLen then Err(InputTooShort)
    else if tail[0] == 0 then Err(LeadingZero)
    else
      var length := FromBE(tail[..lenOfLen]);
      if length < 56 then Err(NonCanonicalSize) else Ok(Header(list, length, tail[lenOfLen..]))
  }

  // ---------------------------------------------------------------- byte strings

  function LengthHeader(n: nat): Bytes
    requires n < U64_LIMIT
  {
    U64Length(n);
    if n < 56 then [0x80 + n] else [0xb7 + |ToBE(n)|] + ToBE(n)
  }

  /** The canonical encoding: a single byte below 0x80 is its own encoding. */
  function EncodeString(s: Bytes): Bytes
    requires |s| < U64_LIMIT
  {
    if |s| == 1 && s[0] < 0x80 then s else LengthHeader(|s|) + s
  }

  datatype Item = Item(payload: Bytes, rest: Bytes)

  function DecodeString(buf: Bytes): (r: Result<Item, RlpError>)
    ensures r.Ok? ==> |r.value.rest| < |buf|
  {
    var h := DecodeHeader(buf);
    if h.Err? then Err(h.error)
    else if h.value.list then Err(UnexpectedList)
    else Ok(Item(h.value.rest[..h.value.length], h.value.rest[h.value.length..]))
  }

  lemma DecodesShortHeader(n: nat, tail: Bytes)
    requires n < 56 && n <= |tail|
    requires n == 1 ==> tail[0] >= 0x80
    ensures DecodeHeader([0x80 + n] + tail) == Ok(Header(false, n, tail))
  {
    var buf := [0x80 + n] + tail;
    assert buf[0] == 0x80 + n && buf[1..] == tail;
  }

  lemma DecodesLongLength(be: Bytes, tail: Bytes)
    requires be != [] && be[0] != 0 && 56 <= FromBE(be)
    ensures DecodeLongLength(false, |be|, be + tail) == Ok(Header(false, FromBE(be), tail))
  {
    assert (be + tail)[..|be|] == be && (be + tail)[|be|..] == tail;
    assert (be + tail)[0] == be[0];
  }

  lemma DecodesLengthHeader(n: nat, tail: Bytes)
    requires n < U64_LIMIT && n <= |tail|
    requires n == 1 ==> tail[0] >= 0x80
    ensures DecodeHeader(LengthHeader(n) + tail) == Ok(Header(false, n, tail))
  {
    if n < 56 {
      DecodesShortHeader(n, tail);
    } else {
      U64Length(n);
      BERoundTrip(n);
      var be := ToBE(n);
      var buf := LengthHeader(n) + tail;
      DecodesLongLength(be, tail);
      assert buf[0] == 0xb7 + |be| && buf[1..] == be + tail;
    }
  }

  /** Decoding an encoded string gives it back, whatever follows it. */
  lemma StringRoundTrip(s: Bytes, rest: Bytes)
    requires |s| < U64_LIMIT
    ensures DecodeString(EncodeString(s) + rest) == Ok(Item(s, rest))
  {
    assert (s + rest)[..|s|] == s && (s + rest)[|s|..] == rest;
    if !(|s| == 1 && s[0] < 0x80) {
      assert LengthHeader(|s|) + s + rest == LengthHeader(|s|) + (s + rest);
      DecodesLengthHeader(|s|, s + rest);
    }
  }

  /** A header in front of a single byte below 0x80 is refused. */
  lemma HeaderedSmallByteIsRefused(b: byte, rest: Bytes)
    requires b < 0x80
    ensures DecodeString(LengthHeader(1) + [b] + rest) == Err(NonCanonicalSingleByte)
  {
    var buf := LengthHeader(1) + [b] + rest;
    assert buf[0] == 0x81 && buf[1..][0] == b;
  }

  lemma LastDigit(high: nat, low: byte)
    ensures (high * 256 + low) / 256 == high && (high * 256 + low) % 256 == low
  {
  }

  lemma {:induction false} BEIsShortest(be: Bytes)
    requires be != [] && be[0] != 0
    ensures ToBE(FromBE(be)) == be && FromBE(be) > 0
  {
    var init, last := be[..|be| - 1], be[|be| - 1];
    if init != [] {
      BEIsShortest(init);
    }
    LastDigit(FromBE(init), last);
    assert be == init + [last];
  }

  lemma ShortLength(be: Bytes)
    requires |be| <= 8
    ensures FromBE(be) < U64_LIMIT
  {
    EightBytes();
    FromBEBound(be);
    PowMonotone(|be|, 8);
  }

  lemma LongHeaderIsCanonical(lenOfLen: nat, tail: Bytes)
    requires 1 <= lenOfLen <= 8 && DecodeLongLength(false, lenOfLen, tail).Ok?
    ensures var h := DecodeLongLength(false, lenOfLen, tail).value;
            h.length < U64_LIMIT && [0xb7 + lenOfLen] + tail == LengthHeader(h.length) + h.rest
  {
    var be := tail[..lenOfLen];
    ShortLength(be);
    BEIsShortest(be);
    assert tail == be + tail[lenOfLen..];
  }

  lemma HeaderIsCanonical(buf: Bytes)
    requires DecodeHeader(buf).Ok? && !DecodeHeader(buf).value.list && buf[0] >= 0x80
    ensures var h := DecodeHeader(buf).value; h.length < U64_LIMIT && buf == LengthHeader(h.length) + h.rest
  {
    var b, tail := buf[0], buf[1..];
    assert buf == [b] + tail;
    if b > 0xb7 {
      LongHeaderIsCanonical(b - 0xb7, tail);
    }
  }

  lemma DecodedIsEncoded(buf: Bytes, s: Bytes, rest: Bytes)
    requires DecodeString(buf) == Ok(Item(s, rest))
    ensures |s| < U64_LIMIT && buf == EncodeString(s) + rest
  {
    var h := DecodeHeader(buf).value;
    assert h.rest == s + rest;
    if buf[0] >= 0x80 {
      HeaderIsCanonical(buf);
      assert LengthHeader(|s|) + (s + rest) == LengthHeader(|s|) + s + rest;
      if |s| == 1 {
        assert buf[1..][0] == s[0];
      }
    }
  }

  /** The decoder accepts canonical encodings and nothing else. */
  lemma {:induction false} DecodesIffEncoded(buf: Bytes, s: Bytes, rest: Bytes)
    ensures DecodeString(buf) == Ok(Item(s, rest)) <==> |s| < U64_LIMIT && buf == EncodeString(s) + rest
  {
    if |s| < U64_LIMIT && buf == EncodeString(s) + rest {
      StringRoundTrip(s, rest);
    }
    if DecodeString(buf) == Ok(Item(s, rest)) {
      DecodedIsEncoded(buf, s, rest);
    }
  }

  // ---------------------------------------------------------------- integers

  function EncodeU64(n: u64): Bytes {
    U64Length(n);
    EncodeString(ToBE(n))
  }

  function DecodeU64(buf: Bytes): (r: Result<u64, RlpError>) {
    var item := DecodeString(buf);
    if item.Err? then Err(item.error)
    else
      var s := item.value.payload;
      if |s| > 8 then Err(Overflow)
      else if s == [] then Ok(0)
      else if s[0] == 0 then Err(LeadingZero)
      else
        EightBytes();
        FromBEBound(s);
        PowMonotone(|s|, 8);
        Ok(FromBE(s))
  }

  lemma {:induction false} PowMonotone(a: nat, b: nat)
    requires a <= b
    ensures Pow256(a) <= Pow256(b)
    decreases b - a
  {
    if a < b {
      PowMonotone(a, b - 1);
      PowPositive(b - 1);
    }
  }

  lemma {:induction false} PowPositive(k: nat)
    ensures Pow256(k) >= 1
  {
    if k > 0 { PowPositive(k - 1); }
  }

  lemma {:induction false} U64RoundTrip(n: u64)
    ensures DecodeU64(EncodeU64(n)) == Ok(n)
  {
    U64Length(n);
    BERoundTrip(n);
    StringRoundTrip(ToBE(n), []);
    assert EncodeU64(n) + [] == EncodeU64(n);
  }
}
