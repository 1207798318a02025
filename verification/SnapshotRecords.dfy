/** The records of a full-snapshot stream, written after a one-byte tag. */
module SnapshotRecords {
  import opened Prelude
  import opened SnapshotCodec

  const REC_HEADER: byte := 0x01
  const REC_BODY: byte := 0x02
  const REC_RECEIPTS: byte := 0x03
  const REC_ACCOUNT: byte := 0x04
  const REC_STORAGE: byte := 0x05
  const REC_CODE: byte := 0x06

  const HISTORY_VERSION_RAW_SLOTS: byte := 1

  datatype Slot = Slot(key: B256, value: U256)

  datatype Previous = Previous(nonce: nat, balance: U256, codeHash: Option<B256>)

  datatype HistoryAccount = HistoryAccount(address: Address, previous: Option<Previous>, storage: seq<Slot>)

  datatype HistoryHead = HistoryHead(stateId: nat, block: nat, version: byte, parentRoot: B256, postRoot: B256)

  datatype Record =
    | Header(block: nat, hash: B256, rlp: Bytes)
    | Body(block: nat, rlp: Bytes)
    | Receipts(block: nat, rlp: Bytes)
    | History(head: HistoryHead, accounts: seq<HistoryAccount>)
    | Account(hashedAddress: B256, nonce: nat, balance: U256, codeHash: Option<B256>)
    | Storage(hashedSlot: B256, value: U256)
    | Code(hash: B256, code: Bytes)

  // ---------------------------------------------------------------- what the format can hold

  predicate AccountFits(a: HistoryAccount) {
    |a.storage| < U64_LIMIT && (a.previous.Some? ==> a.previous.value.nonce < U64_LIMIT)
  }

  predicate AllFit(accounts: seq<HistoryAccount>) {
    accounts == [] || (AccountFits(accounts[0]) && AllFit(accounts[1..]))
  }

  /** Numbers and lengths are 64-bit, and history is written with raw slot keys. */
  predicate Fits(r: Record) {
    match r
    case Header(block, _, rlp) => block < U64_LIMIT && |rlp| < U64_LIMIT
    case Body(block, rlp) => block < U64_LIMIT && |rlp| < U64_LIMIT
    case Receipts(block, rlp) => block < U64_LIMIT && |rlp| < U64_LIMIT
    case History(head, accounts) =>
      && head.stateId < U64_LIMIT && head.block < U64_LIMIT && head.version == HISTORY_VERSION_RAW_SLOTS
      && |accounts| < U64_LIMIT && AllFit(accounts)
    case Account(_, nonce, _, _) => nonce < U64_LIMIT
    case Storage(_, _) => true
    case Code(_, code) => |code| < U64_LIMIT
  }

  // ---------------------------------------------------------------- slots and accounts

  function PutSlot(slot: Slot): Bytes {
    slot.key + PutU256(slot.value)
  }

  function ReadSlot(s: Bytes): (r: Read<Slot>)
    ensures r.Got? ==> |r.rest| <= |s|
  {
    var key :- ReadB256(s);
    var value :- ReadU256(key.1);
    Got(Slot(key.0, value.0), value.1)
  }

  lemma SlotBack(slot: Slot, rest: Bytes)
    ensures ReadSlot(PutSlot(slot) + rest) == Got(slot, rest)
  {
    Assoc(slot.key, PutU256(slot.value), rest);
    B256Back(slot.key, PutU256(slot.value) + rest);
    U256Back(slot.value, rest);
  }

  function PutSlots(slots: seq<Slot>): Bytes {
    if slots == [] then [] else PutSlot(slots[0]) + PutSlots(slots[1..])
  }

  function ReadSlots(s: Bytes, count: nat): (r: Read<seq<Slot>>)
    ensures r.Got? ==> |r.rest| <= |s|
    decreases count
  {
    if count == 0 then Got([], s)
    else
      var slot :- ReadSlot(s);
      var more :- ReadSlots(slot.1, count - 1);
      Got([slot.0] + more.0, more.1)
  }

  lemma SlotsUnfold(slot: Slot, slots: seq<Slot>, more: Bytes, rest: Bytes)
    requires ReadSlots(more, |slots|) == Got(slots, rest)
    ensures ReadSlots(PutSlot(slot) + more, |slots| + 1) == Got([slot] + slots, rest)
  {
    SlotBack(slot, more);
  }

  lemma {:induction false} SlotsBack(slots: seq<Slot>, rest: Bytes)
    ensures ReadSlots(PutSlots(slots) + rest, |slots|) == Got(slots, rest)
    decreases |slots|
  {
    if slots == [] {
      assert PutSlots(slots) + rest == rest;
    } else {
      Assoc(PutSlot(slots[0]), PutSlots(slots[1..]), rest);
      SlotsBack(slots[1..], rest);
      SlotsUnfold(slots[0], slots[1..], PutSlots(slots[1..]) + rest, rest);
      assert [slots[0]] + slots[1..] == slots;
    }
  }

  function PutPrevious(p: Previous): Bytes {
    PutUvarint(p.nonce) + (PutU256(p.balance) + PutCodeHash(p.codeHash))
  }

  function ReadPrevious(s: Bytes): (r: Read<Previous>)
    ensures r.Got? ==> |r.rest| <= |s|
  {
    var nonce :- ReadUvarint(s);
    var balance :- ReadU256(nonce.1);
    var codeHash :- ReadCodeHash(balance.1);
    Got(Previous(nonce.0, balance.0, codeHash.0), codeHash.1)
  }

  lemma PreviousBack(p: Previous, rest: Bytes)
    requires p.nonce < U64_LIMIT
    ensures ReadPrevious(PutPrevious(p) + rest) == Got(p, rest)
  {
    var tail := PutCodeHash(p.codeHash) + rest;
    Assoc(PutU256(p.balance), PutCodeHash(p.codeHash), rest);
    Assoc(PutUvarint(p.nonce), PutU256(p.balance) + PutCodeHash(p.codeHash), rest);
    UvarintBack(p.nonce, PutU256(p.balance) + tail);
    U256Back(p.balance, tail);
    CodeHashBack(p.codeHash, rest);
  }

  function PutPresence(p: Option<Previous>): Bytes {
    if p.Some? then [1] + PutPrevious(p.value) else [0]
  }

  /** Any non-zero byte means present. */
  function ReadPresence(s: Bytes): (r: Read<Option<Previous>>)
    ensures r.Got? ==> |r.rest| <= |s|
  {
    var present :- ReadU8(s);
    if present.0 == 0 then Got(None, present.1)
    else
      var p :- ReadPrevious(present.1);
      Got(Some(p.0), p.1)
  }

  lemma PresenceBack(p: Option<Previous>, rest: Bytes)
    requires p.Some? ==> p.value.nonce < U64_LIMIT
    ensures ReadPresence(PutPresence(p) + rest) == Got(p, rest)
  {
    if p.Some? {
      Assoc([1], PutPrevious(p.value), rest);
      ByteBack(1, PutPrevious(p.value) + rest);
      PreviousBack(p.value, rest);
    } else {
      ByteBack(0, rest);
    }
  }

  function PutAccount(a: HistoryAccount): Bytes {
    a.address + (PutPresence(a.previous) + (PutUvarint(|a.storage|) + PutSlots(a.storage)))
  }

  function ReadAccount(s: Bytes): (r: Read<HistoryAccount>)
    ensures r.Got? ==> |r.rest| <= |s|
  {
    var address :- Take(s, 20);
    var previous :- ReadPresence(address.1);
    var count :- ReadUvarint(previous.1);
    var slots :- ReadSlots(count.1, count.0);
    Got(HistoryAccount(address.0, previous.0, slots.0), slots.1)
  }

  lemma AccountBack(a: HistoryAccount, rest: Bytes)
    requires AccountFits(a)
    ensures ReadAccount(PutAccount(a) + rest) == Got(a, rest)
  {
    var presence, count, slots := PutPresence(a.previous), PutUvarint(|a.storage|), PutSlots(a.storage);
    Assoc(count, slots, rest);
    Assoc(presence, count + slots, rest);
    Assoc(a.address, presence + (count + slots), rest);
    TakesBack(a.address, presence + (count + (slots + rest)));
    PresenceBack(a.previous, count + (slots + rest));
    UvarintBack(|a.storage|, slots + rest);
    SlotsBack(a.storage, rest);
  }

  function PutAccounts(accounts: seq<HistoryAccount>): Bytes {
    if accounts == [] then [] else PutAccount(accounts[0]) + PutAccounts(accounts[1..])
  }

  function ReadAccounts(s: Bytes, count: nat): (r: Read<seq<HistoryAccount>>)
    ensures r.Got? ==> |r.rest| <= |s|
    decreases count
  {
    if count == 0 then Got([], s)
    else
      var a :- ReadAccount(s);
      var more :- ReadAccounts(a.1, count - 1);
      Got([a.0] + more.0, more.1)
  }

  lemma AccountsUnfold(a: HistoryAccount, accounts: seq<HistoryAccount>, more: Bytes, rest: Bytes)
    requires AccountFits(a) && ReadAccounts(more, |accounts|) == Got(accounts, rest)
    ensures ReadAccounts(PutAccount(a) + more, |accounts| + 1) == Got([a] + accounts, rest)
  {
    AccountBack(a, more);
  }

  lemma {:induction false} AccountsBack(accounts: seq<HistoryAccount>, rest: Bytes)
    requires AllFit(accounts)
    ensures ReadAccounts(PutAccounts(accounts) + rest, |accounts|) == Got(accounts, rest)
    decreases |accounts|
  {
    if accounts == [] {
      assert PutAccounts(accounts) + rest == rest;
    } else {
      Assoc(PutAccount(accounts[0]), PutAccounts(accounts[1..]), rest);
      AccountsBack(accounts[1..], rest);
      AccountsUnfold(accounts[0], accounts[1..], PutAccounts(accounts[1..]) + rest, rest);
      assert [accounts[0]] + accounts[1..] == accounts;
    }
  }

  function PutCounted(accounts: seq<HistoryAccount>): Bytes {
    PutUvarint(|accounts|) + PutAccounts(accounts)
  }

  function ReadCounted(s: Bytes): (r: Read<seq<HistoryAccount>>)
    ensures r.Got? ==> |r.rest| <= |s|
  {
    var count :- ReadUvarint(s);
    ReadAccounts(count.1, count.0)
  }

  lemma CountedReads(s: Bytes, count: nat, more: Bytes, accounts: seq<HistoryAccount>, rest: Bytes)
    requires ReadUvarint(s) == Got(count, more) && ReadAccounts(more, count) == Got(accounts, rest)
    ensures ReadCounted(s) == Got(accounts, rest)
  {
  }

  lemma CountedBack(accounts: seq<HistoryAccount>, rest: Bytes)
    requires |accounts| < U64_LIMIT && AllFit(accounts)
    ensures ReadCounted(PutCounted(accounts) + rest) == Got(accounts, rest)
  {
    var more := PutAccounts(accounts) + rest;
    Assoc(PutUvarint(|accounts|), PutAccounts(accounts), rest);
    UvarintBack(|accounts|, more);
    AccountsBack(accounts, rest);
    CountedReads(PutUvarint(|accounts|) + more, |accounts|, more, accounts, rest);
  }

  function PutHead(h: HistoryHead): Bytes {
    PutUvarint(h.stateId) + (PutUvarint(h.block) + ([h.version] + (h.parentRoot + h.postRoot)))
  }

  function ReadHead(s: Bytes): (r: Read<HistoryHead>)
    ensures r.Got? ==> |r.rest| <= |s|
  {
    var stateId :- ReadUvarint(s);
    var block :- ReadUvarint(stateId.1);
    var version :- ReadU8(block.1);
    var parentRoot :- ReadB256(version.1);
    var postRoot :- ReadB256(parentRoot.1);
    Got(HistoryHead(stateId.0, block.0, version.0, parentRoot.0, postRoot.0), postRoot.1)
  }

  lemma {:induction false} HeadBack(h: HistoryHead, rest: Bytes)
    requires h.stateId < U64_LIMIT && h.block < U64_LIMIT
    ensures ReadHead(PutHead(h) + rest) == Got(h, rest)
  {
    var stateId, block, version := PutUvarint(h.stateId), PutUvarint(h.block), [h.version];
    var roots := h.parentRoot + (h.postRoot + rest);
    Assoc(h.parentRoot, h.postRoot, rest);
    Assoc(version, h.parentRoot + h.postRoot, rest);
    Assoc(block, version + (h.parentRoot + h.postRoot), rest);
    Assoc(stateId, block + (version + (h.parentRoot + h.postRoot)), rest);
    UvarintBack(h.stateId, block + (version + roots));
    UvarintBack(h.block, version + roots);
    ByteBack(h.version, roots);
    B256Back(h.parentRoot, h.postRoot + rest);
    B256Back(h.postRoot, rest);
  }

  // ---------------------------------------------------------------- the other records

  function PutHeader(block: nat, hash: B256, rlp: Bytes): Bytes {
    PutUvarint(block) + (hash + PutBlob(rlp))
  }

  function ReadHeader(s: Bytes): (r: Read<Record>)
    ensures r.Got? ==> |r.rest| <= |s|
  {
    var block :- ReadUvarint(s);
    var hash :- ReadB256(block.1);
    var rlp :- ReadBlob(hash.1);
    Got(Header(block.0, hash.0, rlp.0), rlp.1)
  }

  lemma HeaderBack(block: nat, hash: B256, rlp: Bytes, rest: Bytes)
    requires block < U64_LIMIT && |rlp| < U64_LIMIT
    ensures ReadHeader(PutHeader(block, hash, rlp) + rest) == Got(Header(block, hash, rlp), rest)
  {
    Assoc(hash, PutBlob(rlp), rest);
    Assoc(PutUvarint(block), hash + PutBlob(rlp), rest);
    UvarintBack(block, hash + (PutBlob(rlp) + rest));
    B256Back(hash, PutBlob(rlp) + rest);
    BlobBack(rlp, rest);
  }

  function PutNumbered(block: nat, rlp: Bytes): Bytes {
    PutUvarint(block) + PutBlob(rlp)
  }

  /** A block number and a blob: bodies and receipts. */
  function ReadNumbered(s: Bytes): (r: Read<(nat, Bytes)>)
    ensures r.Got? ==> |r.rest| <= |s|
  {
    var block :- ReadUvarint(s);
    var rlp :- ReadBlob(block.1);
    Got((block.0, rlp.0), rlp.1)
  }

  lemma NumberedBack(block: nat, rlp: Bytes, rest: Bytes)
    requires block < U64_LIMIT && |rlp| < U64_LIMIT
    ensures ReadNumbered(PutNumbered(block, rlp) + rest) == Got((block, rlp), rest)
  {
    Assoc(PutUvarint(block), PutBlob(rlp), rest);
    UvarintBack(block, PutBlob(rlp) + rest);
    BlobBack(rlp, rest);
  }

  function PutStateAccount(hashedAddress: B256, p: Previous): Bytes {
    hashedAddress + PutPrevious(p)
  }

  function ReadStateAccount(s: Bytes): (r: Read<Record>)
    ensures r.Got? ==> |r.rest| <= |s|
  {
    var hashedAddress :- ReadB256(s);
    var p :- ReadPrevious(hashedAddress.1);
    Got(Account(hashedAddress.0, p.0.nonce, p.0.balance, p.0.codeHash), p.1)
  }

  lemma StateAccountBack(hashedAddress: B256, p: Previous, rest: Bytes)
    requires p.nonce < U64_LIMIT
    ensures ReadStateAccount(PutStateAccount(hashedAddress, p) + rest) ==
        Got(Account(hashedAddress, p.nonce, p.balance, p.codeHash), rest)
  {
    Assoc(hashedAddress, PutPrevious(p), rest);
    B256Back(hashedAddress, PutPrevious(p) + rest);
    PreviousBack(p, rest);
  }

  function PutCode(hash: B256, code: Bytes): Bytes {
    hash + PutBlob(code)
  }

  function ReadCode(s: Bytes): (r: Read<Record>)
    ensures r.Got? ==> |r.rest| <= |s|
  {
    var hash :- ReadB256(s);
    var code :- ReadBlob(hash.1);
    Got(Code(hash.0, code.0), code.1)
  }

  lemma CodeBack(hash: B256, code: Bytes, rest: Bytes)
    requires |code| < U64_LIMIT
    ensures ReadCode(PutCode(hash, code) + rest) == Got(Code(hash, code), rest)
  {
    Assoc(hash, PutBlob(code), rest);
    B256Back(hash, PutBlob(code) + rest);
    BlobBack(code, rest);
  }

  // ---------------------------------------------------------------- a record behind its tag

  function TagOf(r: Record): byte {
    match r
    case Header(_, _, _) => REC_HEADER
    case Body(_, _) => REC_BODY
    case Receipts(_, _) => REC_RECEIPTS
    case History(_, _) => REC_HEADER
    case Account(_, _, _, _) => REC_ACCOUNT
    case Storage(_, _) => REC_STORAGE
    case Code(_, _) => REC_CODE
  }

  function PutPayload(r: Record): Bytes {
    match r
    case Header(block, hash, rlp) => PutHeader(block, hash, rlp)
    case Body(block, rlp) => PutNumbered(block, rlp)
    case Receipts(block, rlp) => PutNumbered(block, rlp)
    case History(head, accounts) => PutHead(head) + PutCounted(accounts)
    case Account(hashedAddress, nonce, balance, codeHash) =>
        PutStateAccount(hashedAddress, Previous(nonce, balance, codeHash))
    case Storage(hashedSlot, value) => PutSlot(Slot(hashedSlot, value))
    case Code(hash, code) => PutCode(hash, code)
  }

  function PutRecord(r: Record): Bytes {
    [TagOf(r)] + PutPayload(r)
  }
}
