/**
  Whole snapshot streams: what the builder writes is read back exactly, and whatever is read to its end
  is ordered, linked and chained.
*/
module SnapshotRuns {
  import opened Prelude
  import opened SnapshotCodec
  import opened SnapshotRecords
  import opened SnapshotStream

  // ---------------------------------------------------------------- reading to the end

  datatype Whole = Whole(records: seq<Record>, tips: Tips)

  /** Every record up to the end of the stream, and the tips then. */
  function ReadAll(keccak: Hasher, m: Manifest, section: Section, t: Tips, s: Bytes): Read<Whole>
    decreases |s|
  {
    var step :- NextFrom(keccak, m, section, t, s);
    match step.0.record
    case None => Got(Whole([], step.0.tips), step.1)
    case Some(r) =>
      var more :- ReadAll(keccak, m, step.0.section, step.0.tips, step.1);
      Got(Whole([r] + more.0.records, more.0.tips), more.1)
  }

  function CheckAll(keccak: Hasher, m: Manifest, t: Tips, records: seq<Record>): Result<Tips, StreamError>
    decreases |records|
  {
    if records == [] then Ok(t)
    else
      match Check(keccak, m, t, records[0])
      case Err(error) => Err(error)
      case Ok(next) => CheckAll(keccak, m, next, records[1..])
  }

  /** Sections never go back. */
  predicate Ordered(section: Section, records: seq<Record>)
    decreases |records|
  {
    records == [] || (Rank(section) <= Rank(SectionOf(records[0])) && Ordered(SectionOf(records[0]), records[1..]))
  }

  // ---------------------------------------------------------------- what is read was checked

  lemma {:induction false} NextIsChecked(keccak: Hasher, m: Manifest, section: Section, t: Tips, s: Bytes)
    requires NextFrom(keccak, m, section, t, s).Got?
    ensures var step := NextFrom(keccak, m, section, t, s).value;
            && Rank(section) <= Rank(step.section)
            && (step.record.Some? ==>
                step.section == SectionOf(step.record.value) && Check(keccak, m, t, step.record.value) == Ok(step.tips))
            && (step.record.None? ==> step.tips == t)
    decreases |s|
  {
    var tag := ReadU8(s);
    if Opens(section, tag.value) {
      NextIsChecked(keccak, m, After(section), t, tag.rest);
    } else if section.InState? && tag.value == SECTION_END {
    } else if !section.InManifest? && tag.value == REC_END {
      NextIsChecked(keccak, m, section, t, tag.rest);
    } else {
      TaggedSection(keccak, m, section, t, tag.value, tag.rest);
    }
  }

  /** Every stream read to its end holds its records in section order, and they pass all checks. */
  lemma {:induction false} ReadIsChecked(keccak: Hasher, m: Manifest, section: Section, t: Tips, s: Bytes)
    requires ReadAll(keccak, m, section, t, s).Got?
    ensures var whole := ReadAll(keccak, m, section, t, s).value;
            Ordered(section, whole.records) && CheckAll(keccak, m, t, whole.records) == Ok(whole.tips)
    decreases |s|
  {
    var step := NextFrom(keccak, m, section, t, s);
    NextIsChecked(keccak, m, section, t, s);
    if step.value.record.Some? {
      ReadIsChecked(keccak, m, step.value.section, step.value.tips, step.rest);
      var whole := ReadAll(keccak, m, section, t, s).value;
      assert whole.records[1..] == ReadAll(keccak, m, step.value.section, step.value.tips, step.rest).value.records;
    }
  }

  // ---------------------------------------------------------------- what the checks mean

  function Headers(records: seq<Record>): seq<Record> {
    if records == [] then []
    else (if records[0].Header? then [records[0]] else []) + Headers(records[1..])
  }

  function Histories(records: seq<Record>): seq<HistoryHead> {
    if records == [] then []
    else (if records[0].History? then [records[0].head] else []) + Histories(records[1..])
  }

  /** Hashed, not above the convert point, and building on the block before. */
  predicate LinksTo(keccak: Hasher, m: Manifest, tip: Option<Tip>, h: Record) {
    && h.Header? && keccak(h.rlp) == h.hash && h.block <= m.block && ParentField(h.rlp).Some?
    && (tip.Some? ==> h.block == tip.value.number + 1 && ParentField(h.rlp).value == tip.value.hash)
  }

  predicate Linked(keccak: Hasher, m: Manifest, tip: Option<Tip>, headers: seq<Record>)
    decreases |headers|
  {
    headers == [] ||
    (LinksTo(keccak, m, tip, headers[0]) &&
        Linked(keccak, m, Some(Tip(headers[0].block, headers[0].hash)), headers[1..]))
  }

  /** Starts at the root the object before ended at. */
  predicate ChainsTo(m: Manifest, tip: Option<Tip>, h: HistoryHead) {
    && h.version == HISTORY_VERSION_RAW_SLOTS && h.block <= m.block
    && (tip.Some? ==> tip.value.number < h.block && h.parentRoot == tip.value.hash)
  }

  predicate Chained(m: Manifest, tip: Option<Tip>, heads: seq<HistoryHead>)
    decreases |heads|
  {
    heads == [] || (ChainsTo(m, tip, heads[0]) && Chained(m, Some(Tip(heads[0].block, heads[0].postRoot)), heads[1..]))
  }

  predicate CodesHash(keccak: Hasher, records: seq<Record>) {
    forall i :: 0 <= i < |records| && records[i].Code? ==> keccak(records[i].code) == records[i].hash
  }

  function LastTip(tip: Option<Tip>, headers: seq<Record>): Option<Tip>
    requires forall i :: 0 <= i < |headers| ==> headers[i].Header?
  {
    if headers == [] then tip else Some(Tip(headers[|headers| - 1].block, headers[|headers| - 1].hash))
  }

  function LastRoot(tip: Option<Tip>, heads: seq<HistoryHead>): Option<Tip> {
    if heads == [] then tip else Some(Tip(heads[|heads| - 1].block, heads[|heads| - 1].postRoot))
  }

  lemma {:induction false} HeadersAreHeaders(records: seq<Record>)
    ensures forall i :: 0 <= i < |Headers(records)| ==> Headers(records)[i].Header?
  {
    if records != [] {
      HeadersAreHeaders(records[1..]);
    }
  }

  lemma CodesHashRest(keccak: Hasher, records: seq<Record>)
    requires records != []
    ensures CodesHash(keccak, records) <==>
        CodesHash(keccak, records[1..]) && (records[0].Code? ==> keccak(records[0].code) == records[0].hash)
  {
    if CodesHash(keccak, records[1..]) && (records[0].Code? ==> keccak(records[0].code) == records[0].hash) {
      forall i | 0 <= i < |records| && records[i].Code? ensures keccak(records[i].code) == records[i].hash {
        if i > 0 {
          assert records[i] == records[1..][i - 1];
        }
      }
    }
    if CodesHash(keccak, records) {
      assert forall i :: 0 <= i < |records| - 1 ==> records[1..][i] == records[i + 1];
    }
  }

  /** The condition the checks come down to. */
  predicate Sound(keccak: Hasher, m: Manifest, t: Tips, records: seq<Record>) {
    Linked(keccak, m, t.block, Headers(records)) && Chained(m, t.history, Histories(records)) &&
        CodesHash(keccak, records)
  }

  lemma SoundUnfolds(keccak: Hasher, m: Manifest, t: Tips, r: Record, rest: seq<Record>)
    ensures Sound(keccak, m, t, [r] + rest) <==>
            match r
            case Header(block, hash, _) => LinksTo(keccak, m, t.block, r) &&
                Sound(keccak, m, t.(block := Some(Tip(block, hash))), rest)
            case History(head, _) => ChainsTo(m, t.history, head) &&
                Sound(keccak, m, t.(history := Some(Tip(head.block, head.postRoot))), rest)
            case Code(hash, code) => keccak(code) == hash && Sound(keccak, m, t, rest)
            case _ => Sound(keccak, m, t, rest)
  {
    var records := [r] + rest;
    assert records[1..] == rest;
    CodesHashRest(keccak, records);
    assert Headers(records) == (if r.Header? then [r] else []) + Headers(rest);
    assert Histories(records) == (if r.History? then [r.head] else []) + Histories(rest);
    assert r.Header? ==> Headers(records)[1..] == Headers(rest);
    assert r.History? ==> Histories(records)[1..] == Histories(rest);
    assert !r.Header? ==> Headers(records) == Headers(rest);
    assert !r.History? ==> Histories(records) == Histories(rest);
  }

  lemma CheckMeans(keccak: Hasher, m: Manifest, t: Tips, r: Record)
    ensures Check(keccak, m, t, r) ==
            match r
            case Header(block, hash, rlp) => if LinksTo(keccak, m, t.block, r)
                then Ok(t.(block := Some(Tip(block, hash)))) else CheckHeader(keccak, m, t, block, hash, rlp)
            case History(head, _) => if ChainsTo(m, t.history, head)
                then Ok(t.(history := Some(Tip(head.block, head.postRoot)))) else CheckHead(m, t, head)
            case Code(hash, code) => if keccak(code) == hash then Ok(t) else Err(CodeHashMismatch)
            case _ => Ok(t)
    ensures r.Header? && !LinksTo(keccak, m, t.block, r) ==> Check(keccak, m, t, r).Err?
    ensures r.History? && !ChainsTo(m, t.history, r.head) ==> Check(keccak, m, t, r).Err?
  {
  }

  /** The checks pass exactly on linked headers, chained history and code that hashes to its key. */
  lemma {:induction false} ChecksMean(keccak: Hasher, m: Manifest, t: Tips, records: seq<Record>)
    ensures CheckAll(keccak, m, t, records).Ok? <==> Sound(keccak, m, t, records)
    decreases |records|
  {
    if records != [] {
      var r, rest := records[0], records[1..];
      assert records == [r] + rest;
      SoundUnfolds(keccak, m, t, r, rest);
      CheckMeans(keccak, m, t, r);
      var next := Check(keccak, m, t, r);
      if next.Ok? {
        ChecksMean(keccak, m, next.value, rest);
      }
    }
  }

  /** The reader's tips are those of the last header and the last history object. */
  lemma {:induction false} TipsOf(keccak: Hasher, m: Manifest, t: Tips, records: seq<Record>)
    requires CheckAll(keccak, m, t, records).Ok?
    ensures forall i :: 0 <= i < |Headers(records)| ==> Headers(records)[i].Header?
    ensures CheckAll(keccak, m, t, records) ==
        Ok(Tips(LastTip(t.block, Headers(records)), LastRoot(t.history, Histories(records))))
    decreases |records|
  {
    HeadersAreHeaders(records);
    if records != [] {
      TipsOf(keccak, m, Check(keccak, m, t, records[0]).value, records[1..]);
    }
  }

  lemma {:induction false} LinkedConsecutive(keccak: Hasher, m: Manifest, tip: Option<Tip>, headers: seq<Record>,
      i: nat)
    requires Linked(keccak, m, tip, headers) && i < |headers|
    ensures headers[0].Header? && headers[i].Header? && headers[i].block == headers[0].block + i
    ensures keccak(headers[i].rlp) == headers[i].hash && headers[i].block <= m.block
    ensures i > 0 ==> headers[i - 1].Header? && ParentField(headers[i].rlp) == Some(headers[i - 1].hash)
    decreases |headers|
  {
    if i > 0 {
      var h := headers[0];
      LinkedConsecutive(keccak, m, Some(Tip(h.block, h.hash)), headers[1..], i - 1);
    }
  }

  lemma {:induction false} ChainedRoots(m: Manifest, tip: Option<Tip>, heads: seq<HistoryHead>, i: nat)
    requires Chained(m, tip, heads) && i < |heads|
    ensures i > 0 ==> heads[i].parentRoot == heads[i - 1].postRoot && heads[i - 1].block < heads[i].block
    decreases |heads|
  {
    if i > 1 {
      ChainedRoots(m, Some(Tip(heads[0].block, heads[0].postRoot)), heads[1..], i - 1);
    }
  }

  /**
    Any bytes: a stream that is read to its end has blocks before history before state, consecutive
    hash-linked headers and chained history roots; the final check adds that the history ends at the manifest.
  */
  lemma {:induction false} ReadStreamIsSound(keccak: Hasher, s: Bytes, m: Manifest, body: Bytes)
    requires OpenStream(s) == Got(m, body) && ReadAll(keccak, m, InManifest, NO_TIPS, body).Got?
    ensures var whole := ReadAll(keccak, m, InManifest, NO_TIPS, body).value;
            && Ordered(InManifest, whole.records)
            && Sound(keccak, m, NO_TIPS, whole.records)
            && (CheckFinal(m, whole.tips).Ok? <==>
                var heads := Histories(whole.records);
                heads != [] && heads[|heads| - 1].block == m.block && heads[|heads| - 1].postRoot == m.root)
  {
    ReadIsChecked(keccak, m, InManifest, NO_TIPS, body);
    var records := ReadAll(keccak, m, InManifest, NO_TIPS, body).value.records;
    ChecksMean(keccak, m, NO_TIPS, records);
    TipsOf(keccak, m, NO_TIPS, records);
  }

  // ---------------------------------------------------------------- what the builder writes

  function PutAll(records: seq<Record>): Bytes {
    if records == [] then [] else PutRecord(records[0]) + PutAll(records[1..])
  }

  /** Records of one section that the format can hold. */
  predicate InSection(section: Section, records: seq<Record>) {
    forall i :: 0 <= i < |records| ==> SectionOf(records[i]) == section && Fits(records[i])
  }

  function Prepended(records: seq<Record>, r: Read<Whole>): Read<Whole> {
    match r
    case Failed(error) => Failed(error)
    case Got(whole, rest) => Got(Whole(records + whole.records, whole.tips), rest)
  }

  lemma BlockRecordBack(keccak: Hasher, m: Manifest, t: Tips, r: Record, rest: Bytes)
    requires SectionOf(r).InBlocks? && Fits(r)
    ensures ReadBlockRecord(keccak, m, t, TagOf(r), PutPayload(r) + rest) == Checked(keccak, m, t, r, rest)
  {
    match r
    case Header(block, hash, rlp) => HeaderBack(block, hash, rlp, rest);
    case Body(block, rlp) => NumberedBack(block, rlp, rest);
    case Receipts(block, rlp) => NumberedBack(block, rlp, rest);
  }

  lemma StateRecordBack(keccak: Hasher, m: Manifest, t: Tips, r: Record, rest: Bytes)
    requires SectionOf(r).InState? && Fits(r)
    ensures ReadStateRecord(keccak, m, t, TagOf(r), PutPayload(r) + rest) == Checked(keccak, m, t, r, rest)
  {
    match r
    case Account(hashedAddress, nonce, balance, codeHash) =>
        StateAccountBack(hashedAddress, Previous(nonce, balance, codeHash), rest);
    case Storage(hashedSlot, value) => SlotBack(Slot(hashedSlot, value), rest);
    case Code(hash, code) => CodeBack(hash, code, rest);
  }

  lemma HistoryBack(keccak: Hasher, m: Manifest, t: Tips, r: Record, rest: Bytes)
    requires r.History? && Fits(r)
    ensures ReadHistory(m, t, PutPayload(r) + rest) == Checked(keccak, m, t, r, rest)
  {
    Assoc(PutHead(r.head), PutCounted(r.accounts), rest);
    HeadBack(r.head, PutCounted(r.accounts) + rest);
    CountedBack(r.accounts, rest);
  }

  lemma NextReadsRecord(keccak: Hasher, m: Manifest, section: Section, t: Tips, tag: byte, s: Bytes)
    requires !section.InManifest? && REC_END < tag <= REC_CODE
    ensures NextFrom(keccak, m, section, t, [tag] + s) == ReadTagged(keccak, m, section, t, tag, s)
  {
    ByteBack(tag, s);
  }

  lemma PayloadBack(keccak: Hasher, m: Manifest, t: Tips, r: Record, rest: Bytes)
    requires Fits(r)
    ensures ReadTagged(keccak, m, SectionOf(r), t, TagOf(r), PutPayload(r) + rest) == Checked(keccak, m, t, r, rest)
  {
    match SectionOf(r)
    case InBlocks => BlockRecordBack(keccak, m, t, r, rest);
    case InHistory => HistoryBack(keccak, m, t, r, rest);
    case InState => StateRecordBack(keccak, m, t, r, rest);
  }

  /** A written record is read back in its section, up to the outcome of its check. */
  lemma RecordBack(keccak: Hasher, m: Manifest, t: Tips, r: Record, rest: Bytes)
    requires Fits(r)
    ensures NextFrom(keccak, m, SectionOf(r), t, PutRecord(r) + rest) == Checked(keccak, m, t, r, rest)
  {
    Assoc([TagOf(r)], PutPayload(r), rest);
    NextReadsRecord(keccak, m, SectionOf(r), t, TagOf(r), PutPayload(r) + rest);
    PayloadBack(keccak, m, t, r, rest);
  }

  /** What reading gives once `records` were read and checked with outcome `checked`. */
  function Continued(keccak: Hasher, m: Manifest, section: Section, checked: Result<Tips, StreamError>,
      records: seq<Record>, tail: Bytes): Read<Whole>
  {
    if checked.Err? then Failed(checked.error) else Prepended(records, ReadAll(keccak, m, section, checked.value, tail))
  }

  lemma ReadAllUnfolds(keccak: Hasher, m: Manifest, section: Section, t: Tips, first: Record, bytes: Bytes)
    requires SectionOf(first) == section && Fits(first)
    ensures ReadAll(keccak, m, section, t, PutRecord(first) + bytes) ==
        Continued(keccak, m, section, Check(keccak, m, t, first), [first], bytes)
  {
    RecordBack(keccak, m, t, first, bytes);
  }

  lemma PrependedTwice(a: seq<Record>, b: seq<Record>, r: Read<Whole>)
    ensures Prepended(a, Prepended(b, r)) == Prepended(a + b, r)
  {
    if r.Got? {
      Assoc(a, b, r.value.records);
    }
  }

  lemma PrependedNothing(r: Read<Whole>)
    ensures Prepended([], r) == r
  {
    if r.Got? {
      assert [] + r.value.records == r.value.records;
    }
  }

  /** A run of written records is read back, up to the outcome of the checks. */
  lemma {:induction false} SectionBack(keccak: Hasher, m: Manifest, section: Section, t: Tips, records: seq<Record>,
      tail: Bytes)
    requires InSection(section, records)
    ensures ReadAll(keccak, m, section, t, PutAll(records) + tail) ==
        Continued(keccak, m, section, CheckAll(keccak, m, t, records), records, tail)
    decreases |records|
  {
    if records == [] {
      assert PutAll(records) + tail == tail;
      PrependedNothing(ReadAll(keccak, m, section, t, tail));
    } else {
      var first, rest := records[0], records[1..];
      Assoc(PutRecord(first), PutAll(rest), tail);
      ReadAllUnfolds(keccak, m, section, t, first, PutAll(rest) + tail);
      var next := Check(keccak, m, t, first);
      if next.Ok? {
        SectionBack(keccak, m, section, next.value, rest, tail);
        var all := CheckAll(keccak, m, next.value, rest);
        if all.Ok? {
          PrependedTwice([first], rest, ReadAll(keccak, m, section, all.value, tail));
          assert [first] + rest == records;
        }
      }
    }
  }

  // ---------------------------------------------------------------- whole streams

  /** Closing a section and opening the next one. */
  lemma Crosses(keccak: Hasher, m: Manifest, section: Section, t: Tips, tail: Bytes)
    requires section.InBlocks? || section.InHistory?
    ensures ReadAll(keccak, m, section, t, [REC_END] + ([SectionTag(After(section))] + tail)) ==
        ReadAll(keccak, m, After(section), t, tail)
  {
    var next := [SectionTag(After(section))] + tail;
    ByteBack(REC_END, next);
    ByteBack(SectionTag(After(section)), tail);
    assert NextFrom(keccak, m, section, t, next) == NextFrom(keccak, m, After(section), t, tail);
    assert NextFrom(keccak, m, section, t, [REC_END] + next) == NextFrom(keccak, m, section, t, next);
  }

  lemma Starts(keccak: Hasher, m: Manifest, t: Tips, tail: Bytes)
    ensures ReadAll(keccak, m, InManifest, t, [SECTION_BLOCKS] + tail) == ReadAll(keccak, m, InBlocks, t, tail)
  {
    ByteBack(SECTION_BLOCKS, tail);
  }

  lemma Ends(keccak: Hasher, m: Manifest, t: Tips)
    ensures ReadAll(keccak, m, InState, t, [REC_END] + [SECTION_END]) == Got(Whole([], t), [])
  {
    ByteBack(REC_END, [SECTION_END]);
    ByteBack(SECTION_END, []);
    assert [SECTION_END] + [] == [SECTION_END];
    assert NextFrom(keccak, m, InState, t, [SECTION_END]) == Got(Step(None, InState, t), []);
    assert NextFrom(keccak, m, InState, t, [REC_END] + [SECTION_END]) == NextFrom(keccak, m, InState, t, [SECTION_END]);
  }

  function StateBytes(state: seq<Record>): Bytes {
    PutAll(state) + ([REC_END] + [SECTION_END])
  }

  function HistoryBytes(history: seq<Record>, state: seq<Record>): Bytes {
    PutAll(history) + ([REC_END] + ([SECTION_STATE] + StateBytes(state)))
  }

  /** The builder's bytes behind the manifest. */
  function BodyBytes(blocks: seq<Record>, history: seq<Record>, state: seq<Record>): Bytes {
    [SECTION_BLOCKS] + (PutAll(blocks) + ([REC_END] + ([SECTION_HISTORY] + HistoryBytes(history, state))))
  }

  lemma StateBack(keccak: Hasher, m: Manifest, t: Tips, state: seq<Record>)
    requires InSection(InState, state)
    ensures ReadAll(keccak, m, InState, t, StateBytes(state)) == Outcome(CheckAll(keccak, m, t, state), state)
  {
    SectionBack(keccak, m, InState, t, state, [REC_END] + [SECTION_END]);
    var all := CheckAll(keccak, m, t, state);
    if all.Ok? {
      Ends(keccak, m, all.value);
      assert state + [] == state;
    }
  }

  /** Everything read, with the outcome of the checks. */
  function Outcome(checked: Result<Tips, StreamError>, records: seq<Record>): Read<Whole> {
    if checked.Err? then Failed(checked.error) else Got(Whole(records, checked.value), [])
  }

  lemma {:induction false} CheckAllConcat(keccak: Hasher, m: Manifest, t: Tips, a: seq<Record>, b: seq<Record>)
    ensures var first := CheckAll(keccak, m, t, a);
            CheckAll(keccak, m, t, a + b) == if first.Err? then first else CheckAll(keccak, m, first.value, b)
    decreases |a|
  {
    if a == [] {
      assert a + b == b;
    } else {
      assert (a + b)[0] == a[0] && (a + b)[1..] == a[1..] + b;
      var next := Check(keccak, m, t, a[0]);
      if next.Ok? {
        CheckAllConcat(keccak, m, next.value, a[1..], b);
      }
    }
  }

  lemma HistoryBackAll(keccak: Hasher, m: Manifest, t: Tips, history: seq<Record>, state: seq<Record>)
    requires InSection(InHistory, history) && InSection(InState, state)
    ensures ReadAll(keccak, m, InHistory, t, HistoryBytes(history, state)) ==
        Outcome(CheckAll(keccak, m, t, history + state), history + state)
  {
    SectionBack(keccak, m, InHistory, t, history, [REC_END] + ([SECTION_STATE] + StateBytes(state)));
    CheckAllConcat(keccak, m, t, history, state);
    var first := CheckAll(keccak, m, t, history);
    if first.Ok? {
      Crosses(keccak, m, InHistory, first.value, StateBytes(state));
      StateBack(keccak, m, first.value, state);
    }
  }

  lemma BodyBack(keccak: Hasher, m: Manifest, blocks: seq<Record>, history: seq<Record>, state: seq<Record>)
    requires InSection(InBlocks, blocks) && InSection(InHistory, history) && InSection(InState, state)
    ensures ReadAll(keccak, m, InManifest, NO_TIPS, BodyBytes(blocks, history, state)) ==
            Outcome(CheckAll(keccak, m, NO_TIPS, blocks + (history + state)), blocks + (history + state))
  {
    var tail := [REC_END] + ([SECTION_HISTORY] + HistoryBytes(history, state));
    Starts(keccak, m, NO_TIPS, PutAll(blocks) + tail);
    SectionBack(keccak, m, InBlocks, NO_TIPS, blocks, tail);
    CheckAllConcat(keccak, m, NO_TIPS, blocks, history + state);
    var first := CheckAll(keccak, m, NO_TIPS, blocks);
    if first.Ok? {
      Crosses(keccak, m, InBlocks, first.value, HistoryBytes(history, state));
      HistoryBackAll(keccak, m, first.value, history, state);
    }
  }

  lemma {:induction false} PutAllSnoc(records: seq<Record>, n: nat)
    requires n < |records|
    ensures PutAll(records[..n + 1]) == PutAll(records[..n]) + PutRecord(records[n])
    decreases n
  {
    var init, more := records[..n], records[..n + 1];
    if n == 0 {
      assert more[1..] == [] && init == [];
    } else {
      PutAllSnoc(records[1..], n - 1);
      assert more[1..] == records[1..][..n] && init[1..] == records[1..][..n - 1];
      Assoc(PutRecord(records[0]), PutAll(init[1..]), PutRecord(records[n]));
    }
  }

  /** The record the builder writes: header and code hashes are derived from the bytes. */
  function Hashed(keccak: Hasher, r: Record): Record {
    match r
    case Header(block, _, rlp) => Header(block, keccak(rlp), rlp)
    case Code(_, code) => Code(keccak(code), code)
    case _ => r
  }

  function AllHashed(keccak: Hasher, records: seq<Record>): (r: seq<Record>)
    ensures |r| == |records|
    ensures forall i :: 0 <= i < |r| ==> r[i] == Hashed(keccak, records[i])
  {
    seq(|records|, i requires 0 <= i < |records| => Hashed(keccak, records[i]))
  }

  method AppendOne(builder: StreamBuilder, keccak: Hasher, r: Record)
    modifies builder
    ensures builder.out == old(builder.out) + PutRecord(Hashed(keccak, r))
  {
    match r
    case Header(block, _, rlp) => builder.AppendHeader(keccak, block, rlp);
    case Code(_, code) => builder.AppendCode(keccak, code);
    case _ => builder.Append(r);
  }

  method AppendAll(builder: StreamBuilder, keccak: Hasher, records: seq<Record>)
    modifies builder
    ensures builder.out == old(builder.out) + PutAll(AllHashed(keccak, records))
  {
    ghost var hashed := AllHashed(keccak, records);
    for i := 0 to |records|
      invariant builder.out == old(builder.out) + PutAll(hashed[..i])
    {
      PutAllSnoc(hashed, i);
      Assoc(old(builder.out), PutAll(hashed[..i]), PutRecord(hashed[i]));
      AppendOne(builder, keccak, records[i]);
    }
    assert hashed[..|records|] == hashed;
  }

  function SectionBytes(tag: byte, records: Bytes): Bytes {
    [tag] + (records + [REC_END])
  }

  lemma BodyFlat(head: Bytes, b: Bytes, h: Bytes, s: Bytes)
    ensures head + SectionBytes(SECTION_BLOCKS, b) + SectionBytes(SECTION_HISTORY, h) + SectionBytes(SECTION_STATE, s)
            + [SECTION_END] ==
            head + ([SECTION_BLOCKS] + (b + ([REC_END] +
                   ([SECTION_HISTORY] + (h + ([REC_END] +
                   ([SECTION_STATE] + (s + ([REC_END] + [SECTION_END])))))))))
  {
  }

  lemma SectionFlat(head: Bytes, tag: byte, records: Bytes)
    ensures head + [tag] + records + [REC_END] == head + SectionBytes(tag, records)
  {
    Assoc(head + [tag], records, [REC_END]);
    Assoc(head, [tag], records + [REC_END]);
  }

  method WriteSection(builder: StreamBuilder, keccak: Hasher, section: Section, records: seq<Record>)
    modifies builder
    ensures builder.out == old(builder.out) + SectionBytes(SectionTag(section), PutAll(AllHashed(keccak, records)))
  {
    builder.OpenSection(section);
    AppendAll(builder, keccak, records);
    builder.EndSection();
    SectionFlat(old(builder.out), SectionTag(section), PutAll(AllHashed(keccak, records)));
  }

  /** The builder, section by section, produces the bytes the theorems speak of, with its own hashes. */
  method WriteStream(keccak: Hasher, m: Manifest, blocks: seq<Record>, history: seq<Record>, state: seq<Record>)
    returns (bytes: Bytes)
    ensures bytes ==
            MAGIC + ([SECTION_MANIFEST] + PutManifest(m)) +
            BodyBytes(AllHashed(keccak, blocks), AllHashed(keccak, history), AllHashed(keccak, state))
  {
    var builder := new StreamBuilder(m);
    ghost var head := builder.out;
    WriteSection(builder, keccak, InBlocks, blocks);
    WriteSection(builder, keccak, InHistory, history);
    WriteSection(builder, keccak, InState, state);
    bytes := builder.Finish();
    BodyFlat(head, PutAll(AllHashed(keccak, blocks)), PutAll(AllHashed(keccak, history)),
        PutAll(AllHashed(keccak, state)));
  }

  // ---------------------------------------------------------------- the manifest

  predicate ManifestFits(m: Manifest) {
    && m.block < U64_LIMIT && m.stateId < U64_LIMIT
    && (m.resume.Some? ==>
        m.resume.value.l1Block < U64_LIMIT && m.resume.value.delayedCount < U64_LIMIT &&
        m.resume.value.l2Block < U64_LIMIT)
  }

  lemma ResumeBack(r: Option<ResumePoint>, rest: Bytes)
    requires r.Some? ==> r.value.l1Block < U64_LIMIT && r.value.delayedCount < U64_LIMIT && r.value.l2Block < U64_LIMIT
    ensures ReadResume(PutResume(r) + rest) == Got(r, rest)
  {
    match r
    case None => ByteBack(0, rest);
    case Some(p) =>
      var a, b, c := PutUvarint(p.l1Block), PutUvarint(p.delayedCount), PutUvarint(p.l2Block);
      Assoc(b, c, rest);
      Assoc(a, b + c, rest);
      Assoc([1], a + (b + c), rest);
      ByteBack(1, a + (b + (c + rest)));
      UvarintBack(p.l1Block, b + (c + rest));
      UvarintBack(p.delayedCount, c + rest);
      UvarintBack(p.l2Block, rest);
  }

  lemma ManifestBack(m: Manifest, rest: Bytes)
    requires ManifestFits(m)
    ensures ReadManifest(PutManifest(m) + rest) == Got(m, rest)
  {
    var a, b, r := PutUvarint(m.block), PutUvarint(m.stateId), PutResume(m.resume);
    Assoc(m.hash, r, rest);
    Assoc(b, m.hash + r, rest);
    Assoc(m.root, b + (m.hash + r), rest);
    Assoc(a, m.root + (b + (m.hash + r)), rest);
    UvarintBack(m.block, m.root + (b + (m.hash + (r + rest))));
    B256Back(m.root, b + (m.hash + (r + rest)));
    UvarintBack(m.stateId, m.hash + (r + rest));
    B256Back(m.hash, r + rest);
    ResumeBack(m.resume, rest);
  }

  lemma OpenBack(m: Manifest, rest: Bytes)
    requires ManifestFits(m)
    ensures OpenStream(MAGIC + ([SECTION_MANIFEST] + PutManifest(m)) + rest) == Got(m, rest)
  {
    Assoc([SECTION_MANIFEST], PutManifest(m), rest);
    Assoc(MAGIC, [SECTION_MANIFEST] + PutManifest(m), rest);
    TakesBack(MAGIC, [SECTION_MANIFEST] + (PutManifest(m) + rest));
    ByteBack(SECTION_MANIFEST, PutManifest(m) + rest);
    ManifestBack(m, rest);
  }

  /**
    Every stream the builder writes with its records in their sections opens with its manifest, and its
    records are read back exactly when they are linked and chained; otherwise the first failed check is reported.
  */
  lemma {:induction false} BuiltStreamIsRead(keccak: Hasher, m: Manifest, blocks: seq<Record>, history: seq<Record>,
      state: seq<Record>)
    requires ManifestFits(m) && InSection(InBlocks, blocks) && InSection(InHistory, history) &&
        InSection(InState, state)
    ensures var body := BodyBytes(blocks, history, state);
            var records := blocks + (history + state);
            var checked := CheckAll(keccak, m, NO_TIPS, records);
            && OpenStream(MAGIC + ([SECTION_MANIFEST] + PutManifest(m)) + body) == Got(m, body)
            && ReadAll(keccak, m, InManifest, NO_TIPS, body) == Outcome(checked, records)
            && (checked.Ok? <==> Sound(keccak, m, NO_TIPS, records))
  {
    OpenBack(m, BodyBytes(blocks, history, state));
    BodyBack(keccak, m, blocks, history, state);
    ChecksMean(keccak, m, NO_TIPS, blocks + (history + state));
  }

  lemma HashedInSection(keccak: Hasher, section: Section, records: seq<Record>)
    requires InSection(section, records)
    ensures InSection(section, AllHashed(keccak, records))
  {
  }

  /** The builder's own code records hash to their keys, so only linkage and chaining decide. */
  lemma HashedCodes(keccak: Hasher, blocks: seq<Record>, history: seq<Record>, state: seq<Record>)
    ensures CodesHash(keccak, AllHashed(keccak, blocks) + (AllHashed(keccak, history) + AllHashed(keccak, state)))
  {
  }

  /** What the builder wrote is read back if and only if its headers link and its history chains. */
  lemma {:induction false} BuilderStreamIsRead(keccak: Hasher, m: Manifest, blocks: seq<Record>, history: seq<Record>,
      state: seq<Record>)
    requires ManifestFits(m) && InSection(InBlocks, blocks) && InSection(InHistory, history) &&
        InSection(InState, state)
    ensures var b, h, s := AllHashed(keccak, blocks), AllHashed(keccak, history), AllHashed(keccak, state);
            var read := ReadAll(keccak, m, InManifest, NO_TIPS, BodyBytes(b, h, s));
            && (read.Got? <==>
                  Linked(keccak, m, None, Headers(b + (h + s))) && Chained(m, None, Histories(b + (h + s))))
            && (read.Got? ==> read.value.records == b + (h + s) && read.rest == [])
  {
    HashedInSection(keccak, InBlocks, blocks);
    HashedInSection(keccak, InHistory, history);
    HashedInSection(keccak, InState, state);
    HashedCodes(keccak, blocks, history, state);
    BuiltStreamIsRead(keccak, m, AllHashed(keccak, blocks), AllHashed(keccak, history), AllHashed(keccak, state));
  }
}
