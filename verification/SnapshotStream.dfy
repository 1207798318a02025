/**
  The full-snapshot stream: a manifest, then blocks, history and state, read record by record with the
  linkage checks that need no database, and the builder that writes such streams.
*/
module SnapshotStream {
  import opened Prelude
  import opened Rlp
  import opened SnapshotCodec
  import opened SnapshotRecords

  const MAGIC: Bytes := [0x41, 0x52, 0x42, 0x53, 0x4e, 0x41, 0x50, 0x32]

  const SECTION_MANIFEST: byte := 0xf1
  const SECTION_BLOCKS: byte := 0xf2
  const SECTION_HISTORY: byte := 0xf3
  const SECTION_STATE: byte := 0xf4
  const SECTION_END: byte := 0xff
  const REC_END: byte := 0x00

  type Hasher = Bytes -> B256

  datatype ResumePoint = ResumePoint(l1Block: nat, delayedCount: nat, l2Block: nat)

  datatype Manifest = Manifest(block: nat, root: B256, stateId: nat, hash: B256, resume: Option<ResumePoint>)

  datatype Section = InManifest | InBlocks | InHistory | InState

  function Rank(s: Section): nat {
    match s
    case InManifest => 0
    case InBlocks => 1
    case InHistory => 2
    case InState => 3
  }

  function SectionOf(r: Record): Section {
    match r
    case Header(_, _, _) => InBlocks
    case Body(_, _) => InBlocks
    case Receipts(_, _) => InBlocks
    case History(_, _) => InHistory
    case _ => InState
  }

  function SectionTag(s: Section): byte {
    match s
    case InManifest => SECTION_MANIFEST
    case InBlocks => SECTION_BLOCKS
    case InHistory => SECTION_HISTORY
    case InState => SECTION_STATE
  }

  // ---------------------------------------------------------------- the manifest

  function PutResume(r: Option<ResumePoint>): Bytes {
    match r
    case None => [0]
    case Some(p) => [1] + (PutUvarint(p.l1Block) + (PutUvarint(p.delayedCount) + PutUvarint(p.l2Block)))
  }

  /** Any flag but 1 means there is no resume point. */
  function ReadResume(s: Bytes): Read<Option<ResumePoint>> {
    var flag :- ReadU8(s);
    if flag.0 != 1 then Got(None, flag.1)
    else
      var l1Block :- ReadUvarint(flag.1);
      var delayedCount :- ReadUvarint(l1Block.1);
      var l2Block :- ReadUvarint(delayedCount.1);
      Got(Some(ResumePoint(l1Block.0, delayedCount.0, l2Block.0)), l2Block.1)
  }

  function PutManifest(m: Manifest): Bytes {
    PutUvarint(m.block) + (m.root + (PutUvarint(m.stateId) + (m.hash + PutResume(m.resume))))
  }

  function ReadManifest(s: Bytes): Read<Manifest> {
    var block :- ReadUvarint(s);
    var root :- ReadB256(block.1);
    var stateId :- ReadUvarint(root.1);
    var hash :- ReadB256(stateId.1);
    var resume :- ReadResume(hash.1);
    Got(Manifest(block.0, root.0, stateId.0, hash.0, resume.0), resume.1)
  }

  function OpenStream(s: Bytes): Read<Manifest> {
    var magic :- Take(s, 8);
    if magic.0 != MAGIC then Failed(BadMagic)
    else
      var tag :- ReadU8(magic.1);
      if tag.0 != SECTION_MANIFEST then Failed(ExpectedManifest(tag.0)) else ReadManifest(tag.1)
  }

  // ---------------------------------------------------------------- fields of a header

  datatype Split = Split(payload: Bytes, rest: Bytes)

  /** The payload of the first RLP item and what follows it; lengths are not required to be canonical. */
  function RlpSplit(blob: Bytes, wantList: bool): Option<Split> {
    if blob == [] then None
    else
      var prefix := blob[0];
      var n := if 0xb8 <= prefix <= 0xbf then prefix - 0xb7 else if prefix >= 0xf8 then prefix - 0xf7 else 0;
      if |blob| < 1 + n then None
      else
        var header := if prefix <= 0x7f then 0 else 1 + n;
        var length :=
          if prefix <= 0x7f then 1
          else if n > 0 then FromBE(blob[1..1 + n])
          else if prefix < 0xc0 then prefix - 0x80 else prefix - 0xc0;
        if (prefix >= 0xc0) != wantList || header + length > |blob| then None
        else Some(Split(blob[header..header + length], blob[header + length..]))
  }

  /** The parent hash: the first field of a list that fills the input. */
  function ParentField(rlp: Bytes): Option<Bytes> {
    match RlpSplit(rlp, true)
    case None => None
    case Some(list) =>
      if list.rest != [] then None
      else
        match RlpSplit(list.payload, false)
        case None => None
        case Some(field) => Some(field.payload)
  }

  function ListHeader(n: nat): Bytes
    requires n < U64_LIMIT
  {
    U64Length(n);
    if n < 56 then [0xc0 + n] else [0xf7 + |ToBE(n)|] + ToBE(n)
  }

  lemma SplitsList(payload: Bytes)
    requires |payload| < U64_LIMIT
    ensures RlpSplit(ListHeader(|payload|) + payload, true) == Some(Split(payload, []))
  {
    var n := |payload|;
    var blob := ListHeader(n) + payload;
    if n < 56 {
      assert blob[1..1 + n] == payload && blob[1 + n..] == [];
    } else {
      U64Length(n);
      BERoundTrip(n);
      var be := ToBE(n);
      assert be != [];
      var header := 1 + |be|;
      assert blob[1..header] == be;
      assert blob[header..header + n] == payload && blob[header + n..] == [];
    }
  }

  lemma SplitsHash(hash: B256, rest: Bytes)
    ensures RlpSplit([0xa0] + hash + rest, false) == Some(Split(hash, rest))
  {
    var blob := [0xa0] + hash + rest;
    assert blob[1..33] == hash && blob[33..] == rest;
  }

  /** In any header encoded as an RLP list, the first 32-byte string is found as the parent hash. */
  lemma {:induction false} ParentIsFirst(parent: B256, fields: Bytes)
    requires |fields| + 33 < U64_LIMIT
    ensures var payload := [0xa0] + parent + fields; ParentField(ListHeader(|payload|) + payload) == Some(parent)
  {
    SplitsList([0xa0] + parent + fields);
    SplitsHash(parent, fields);
  }

  // ---------------------------------------------------------------- the checks

  datatype Tip = Tip(number: nat, hash: B256)

  /** The last block and the last history object seen. */
  datatype Tips = Tips(block: Option<Tip>, history: Option<Tip>)

  const NO_TIPS: Tips := Tips(None, None)

  function CheckHeader(keccak: Hasher, m: Manifest, t: Tips, block: nat, hash: B256,
      rlp: Bytes): Result<Tips, StreamError>
  {
    if keccak(rlp) != hash then Err(HeaderHashMismatch(block))
    else if block > m.block then Err(AboveConvertPoint(block))
    else if ParentField(rlp).None? then Err(BadHeader)
    else if t.block.Some? && block != t.block.value.number + 1 then Err(BlocksJump(t.block.value.number, block))
    else if t.block.Some? && ParentField(rlp).value != t.block.value.hash then Err(BadParent(block))
    else Ok(t.(block := Some(Tip(block, hash))))
  }

  function CheckHead(m: Manifest, t: Tips, h: HistoryHead): Result<Tips, StreamError> {
    if h.version != HISTORY_VERSION_RAW_SLOTS then Err(HistoryVersion(h.version))
    else if h.block > m.block then Err(AboveConvertPoint(h.block))
    else if t.history.Some? && h.block <= t.history.value.number then Err(HistoryDoesNotAdvance(h.block))
    else if t.history.Some? && h.parentRoot != t.history.value.hash then Err(HistoryChainBroken(h.block))
    else Ok(t.(history := Some(Tip(h.block, h.postRoot))))
  }

  function Check(keccak: Hasher, m: Manifest, t: Tips, r: Record): Result<Tips, StreamError> {
    match r
    case Header(block, hash, rlp) => CheckHeader(keccak, m, t, block, hash, rlp)
    case History(head, _) => CheckHead(m, t, head)
    case Code(hash, code) => if keccak(code) != hash then Err(CodeHashMismatch) else Ok(t)
    case _ => Ok(t)
  }

  /** The last history object must end at the exported state. */
  function CheckFinal(m: Manifest, t: Tips): Result<(), StreamError> {
    match t.history
    case None => Err(NoHistory)
    case Some(tip) =>
      if tip.number != m.block then Err(HistoryEndsAtBlock(tip.number))
      else if tip.hash != m.root then Err(HistoryEndsAtRoot(tip.hash))
      else Ok(())
  }

  // ---------------------------------------------------------------- reading records

  datatype Step = Step(record: Option<Record>, section: Section, tips: Tips)

  function Checked(keccak: Hasher, m: Manifest, t: Tips, r: Record, rest: Bytes): Read<Step> {
    match Check(keccak, m, t, r)
    case Err(error) => Failed(error)
    case Ok(tips) => Got(Step(Some(r), SectionOf(r), tips), rest)
  }

  /** A history object is checked before its accounts are read. */
  function ReadHistory(m: Manifest, t: Tips, s: Bytes): (r: Read<Step>)
    ensures r.Got? ==> |r.rest| <= |s|
  {
    var head :- ReadHead(s);
    match CheckHead(m, t, head.0)
    case Err(error) => Failed(error)
    case Ok(tips) =>
      var accounts :- ReadCounted(head.1);
      Got(Step(Some(History(head.0, accounts.0)), InHistory, tips), accounts.1)
  }

  function ReadBlockRecord(keccak: Hasher, m: Manifest, t: Tips, tag: byte, s: Bytes): (r: Read<Step>)
    ensures r.Got? ==> |r.rest| <= |s|
  {
    if tag == REC_HEADER then
      var h :- ReadHeader(s);
      Checked(keccak, m, t, h.0, h.1)
    else if tag == REC_BODY then
      var b :- ReadNumbered(s);
      Checked(keccak, m, t, Body(b.0.0, b.0.1), b.1)
    else if tag == REC_RECEIPTS then
      var b :- ReadNumbered(s);
      Checked(keccak, m, t, Receipts(b.0.0, b.0.1), b.1)
    else Failed(InvalidTag(tag))
  }

  function ReadStateRecord(keccak: Hasher, m: Manifest, t: Tips, tag: byte, s: Bytes): (r: Read<Step>)
    ensures r.Got? ==> |r.rest| <= |s|
  {
    if tag == REC_ACCOUNT then
      var a :- ReadStateAccount(s);
      Checked(keccak, m, t, a.0, a.1)
    else if tag == REC_STORAGE then
      var slot :- ReadSlot(s);
      Checked(keccak, m, t, Storage(slot.0.key, slot.0.value), slot.1)
    else if tag == REC_CODE then
      var code :- ReadCode(s);
      Checked(keccak, m, t, code.0, code.1)
    else Failed(InvalidTag(tag))
  }

  function ReadTagged(keccak: Hasher, m: Manifest, section: Section, t: Tips, tag: byte, s: Bytes): (r: Read<Step>)
    ensures r.Got? ==> |r.rest| <= |s|
  {
    match section
    case InManifest => Failed(ExpectedBlocks(tag))
    case InBlocks => ReadBlockRecord(keccak, m, t, tag, s)
    case InHistory => if tag == REC_HEADER then ReadHistory(m, t, s) else Failed(InvalidTag(tag))
    case InState => ReadStateRecord(keccak, m, t, tag, s)
  }

  predicate Opens(section: Section, tag: byte) {
    || (section.InManifest? && tag == SECTION_BLOCKS)
    || (section.InBlocks? && tag == SECTION_HISTORY)
    || (section.InHistory? && tag == SECTION_STATE)
  }

  function After(section: Section): Section {
    match section
    case InManifest => InBlocks
    case InBlocks => InHistory
    case _ => InState
  }

  /** The next record from here; no record means the stream has ended. */
  function NextFrom(keccak: Hasher, m: Manifest, section: Section, t: Tips, s: Bytes): (r: Read<Step>)
    ensures r.Got? ==> |r.rest| < |s|
    decreases |s|
  {
    var tag :- ReadU8(s);
    if Opens(section, tag.0) then NextFrom(keccak, m, After(section), t, tag.1)
    else if section.InState? && tag.0 == SECTION_END then Got(Step(None, InState, t), tag.1)
    else if !section.InManifest? && tag.0 == REC_END then NextFrom(keccak, m, section, t, tag.1)
    else ReadTagged(keccak, m, section, t, tag.0, tag.1)
  }

  // ---------------------------------------------------------------- the reader

  datatype Reader = Reader(inner: Bytes, manifest: Manifest, section: Section, tips: Tips, held: Option<Record>,
      finished: bool)

  /** The record handed out and the reader left; nothing is said of a reader that failed. */
  function Next(keccak: Hasher, r: Reader): Result<(Option<Record>, Reader), StreamError> {
    if r.held.Some? then Ok((r.held, r.(held := None)))
    else if r.finished then Ok((None, r))
    else
      match NextFrom(keccak, r.manifest, r.section, r.tips, r.inner)
      case Failed(error) => Err(error)
      case Got(step, rest) =>
          Ok((step.record,
              r.(inner := rest, section := step.section, tips := step.tips, finished := step.record.None?)))
  }

  class SnapshotReader {
    const manifest: Manifest
    var inner: Bytes
    var section: Section
    var lastBlock: Option<Tip>
    var lastHistory: Option<Tip>
    var held: Option<Record>
    var finished: bool

    ghost function View(): Reader
      reads this
    {
      Reader(inner, manifest, section, Tips(lastBlock, lastHistory), held, finished)
    }

    constructor (manifest: Manifest, inner: Bytes)
      ensures View() == Reader(inner, manifest, InManifest, NO_TIPS, None, false)
    {
      this.manifest, this.inner, section := manifest, inner, InManifest;
      lastBlock, lastHistory, held, finished := None, None, None, false;
    }

    /** A second record handed back replaces the first. */
    method Unread(record: Record)
      modifies this`held
      ensures View() == old(View()).(held := Some(record))
    {
      held := Some(record);
    }

    method NextRecord(keccak: Hasher) returns (r: Result<Option<Record>, StreamError>)
      modifies this
      ensures match Next(keccak, old(View()))
              case Err(error) => r == Err(error)
              case Ok(next) => r == Ok(next.0) && View() == next.1
    {
      if held.Some? {
        r := Ok(held);
        held := None;
        return;
      }
      if finished {
        return Ok(None);
      }
      while true
        invariant held.None? && !finished && lastBlock == old(lastBlock) && lastHistory == old(lastHistory)
        invariant NextFrom(keccak, manifest, section, Tips(lastBlock, lastHistory), inner) ==
            NextFrom(keccak, manifest, old(section), Tips(lastBlock, lastHistory), old(inner))
        decreases |inner|
      {
        if inner == [] {
          return Err(ShortRead);
        }
        var tag := inner[0];
        inner := inner[1..];
        if Opens(section, tag) {
          section := After(section);
        } else if section.InState? && tag == SECTION_END {
          finished := true;
          return Ok(None);
        } else if section.InManifest? || tag != REC_END {
          var read := ReadTagged(keccak, manifest, section, Tips(lastBlock, lastHistory), tag, inner);
          if read.Failed? {
            return Err(read.error);
          }
          TaggedSection(keccak, manifest, section, Tips(lastBlock, lastHistory), tag, inner);
          inner, lastBlock, lastHistory := read.rest, read.value.tips.block, read.value.tips.history;
          return Ok(read.value.record);
        }
      }
    }

    /** The last history object must end at the exported state. */
    method CheckHistoryMeetsState() returns (r: Result<(), StreamError>)
      ensures r.Ok? <==> lastHistory == Some(Tip(manifest.block, manifest.root))
      ensures r == Err(NoHistory) <==> lastHistory.None?
      ensures r == CheckFinal(manifest, View().tips)
    {
      match lastHistory {
        case None =>
          return Err(NoHistory);
        case Some(tip) =>
          if tip.number != manifest.block {
            return Err(HistoryEndsAtBlock(tip.number));
          }
          if tip.hash != manifest.root {
            return Err(HistoryEndsAtRoot(tip.hash));
          }
          return Ok(());
      }
    }
  }

  /** Reads the magic and the manifest; the reader is left at the first section. */
  method Open(s: Bytes) returns (r: Result<SnapshotReader, StreamError>)
    ensures match OpenStream(s)
            case Failed(error) => r == Err(error)
            case Got(manifest, rest) =>
              r.Ok? && fresh(r.value) &&
              r.value.View() == Reader(rest, manifest, InManifest, NO_TIPS, None, false)
  {
    var read := OpenStream(s);
    if read.Failed? {
      return Err(read.error);
    }
    var reader := new SnapshotReader(read.value, read.rest);
    r := Ok(reader);
  }

  /** A record of the section, checked. */
  predicate Accepted(keccak: Hasher, m: Manifest, section: Section, t: Tips, step: Step) {
    && step.record.Some? && step.section == section == SectionOf(step.record.value)
    && Check(keccak, m, t, step.record.value) == Ok(step.tips)
  }

  lemma BlockAccepted(keccak: Hasher, m: Manifest, t: Tips, tag: byte, s: Bytes)
    ensures var r := ReadBlockRecord(keccak, m, t, tag, s); r.Got? ==> Accepted(keccak, m, InBlocks, t, r.value)
  {
  }

  lemma HistoryAccepted(keccak: Hasher, m: Manifest, t: Tips, s: Bytes)
    ensures var r := ReadHistory(m, t, s); r.Got? ==> Accepted(keccak, m, InHistory, t, r.value)
  {
  }

  lemma StateAccepted(keccak: Hasher, m: Manifest, t: Tips, tag: byte, s: Bytes)
    ensures var r := ReadStateRecord(keccak, m, t, tag, s); r.Got? ==> Accepted(keccak, m, InState, t, r.value)
  {
  }

  /** A record read in a section belongs to it and has passed its check. */
  lemma {:induction false} TaggedSection(keccak: Hasher, m: Manifest, section: Section, t: Tips, tag: byte, s: Bytes)
    ensures var r := ReadTagged(keccak, m, section, t, tag, s); r.Got? ==> Accepted(keccak, m, section, t, r.value)
  {
    match section
    case InManifest =>
    case InBlocks => BlockAccepted(keccak, m, t, tag, s);
    case InHistory => HistoryAccepted(keccak, m, t, s);
    case InState => StateAccepted(keccak, m, t, tag, s);
  }

  // ---------------------------------------------------------------- the builder

  class StreamBuilder {
    var out: Bytes

    constructor (m: Manifest)
      ensures out == MAGIC + ([SECTION_MANIFEST] + PutManifest(m))
    {
      out := MAGIC + ([SECTION_MANIFEST] + PutManifest(m));
    }

    method OpenSection(section: Section)
      modifies this
      ensures out == old(out) + [SectionTag(section)]
    {
      out := out + [SectionTag(section)];
    }

    method EndSection()
      modifies this
      ensures out == old(out) + [REC_END]
    {
      out := out + [REC_END];
    }

    /** The hash is derived from the bytes. */
    method AppendHeader(keccak: Hasher, block: nat, rlp: Bytes)
      modifies this
      ensures out == old(out) + PutRecord(Record.Header(block, keccak(rlp), rlp))
    {
      out := out + PutRecord(Record.Header(block, keccak(rlp), rlp));
    }

    method AppendCode(keccak: Hasher, code: Bytes)
      modifies this
      ensures out == old(out) + PutRecord(Code(keccak(code), code))
    {
      out := out + PutRecord(Code(keccak(code), code));
    }

    method Append(r: Record)
      modifies this
      ensures out == old(out) + PutRecord(r)
    {
      out := out + PutRecord(r);
    }

    method Finish() returns (bytes: Bytes)
      modifies this
      ensures bytes == old(out) + [SECTION_END] && out == bytes
    {
      out := out + [SECTION_END];
      bytes := out;
    }
  }
}
