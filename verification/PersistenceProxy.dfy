/** The persistence proxy: the imperative preparation of a batch and the requests it serves. */
module PersistenceProxy {
  import opened Prelude
  import opened StorageV2
  import opened StorageV2Unwind
  import opened StorageV2Coverage
  import opened Rollback

  datatype PrepareError =
    | FrontierMismatch
    | NotLinked
    | EmptyBatch
    | BadParentHeader
    | ConflictingPreimages
    | CorruptPreimage
    | MissingPreimage
    | AccountNotLoaded

  // ---------------------------------------------------------------- validation

  /** Consecutive numbers and parent hashes, with room for one more `u64` number. */
  predicate Linked(blocks: seq<Block>, number: nat, parent: Hash)
    decreases |blocks|
  {
    && number + 1 < U64_LIMIT
    && (blocks != [] ==>
          && blocks[0].header.number == number + 1
          && blocks[0].header.parentHash == parent
          && Linked(blocks[1..], number + 1, blocks[0].header.hash))
  }

  predicate LinkAt(blocks: seq<Block>, number: nat, parent: Hash, i: nat)
    requires i < |blocks|
  {
    && blocks[i].header.number == number + 1 + i
    && blocks[i].header.parentHash == if i == 0 then parent else blocks[i - 1].header.hash
  }

  lemma {:induction false} LinkedByIndex(blocks: seq<Block>, number: nat, parent: Hash)
    ensures Linked(blocks, number, parent) <==>
              && number + |blocks| + 1 < U64_LIMIT
              && forall i :: 0 <= i < |blocks| ==> LinkAt(blocks, number, parent, i)
    decreases |blocks|
  {
    if blocks != [] {
      var rest, next, hash := blocks[1..], number + 1, blocks[0].header.hash;
      LinkedByIndex(rest, next, hash);
      forall i | 0 < i < |blocks| ensures LinkAt(blocks, number, parent, i) <==> LinkAt(rest, next, hash, i - 1) {
      }
      if forall i :: 0 <= i < |blocks| ==> LinkAt(blocks, number, parent, i) {
        assert LinkAt(blocks, number, parent, 0);
        forall i | 0 <= i < |rest| ensures LinkAt(rest, next, hash, i) {
          assert LinkAt(blocks, number, parent, i + 1);
        }
      }
    }
  }

  /** Accepts exactly the batches that continue the frontier block by block. */
  method ValidateBlocks(blocks: seq<Block>, prev: nat, parent: Hash) returns (ok: bool)
    ensures ok <==> Linked(blocks, prev, parent)
  {
    var number, expected := prev, parent;
    if number + 1 >= U64_LIMIT {
      return false;
    }
    for i := 0 to |blocks|
      invariant 0 <= number && number + 1 < U64_LIMIT
      invariant Linked(blocks, prev, parent) <==> Linked(blocks[i..], number, expected)
    {
      assert blocks[i..][0] == blocks[i] && blocks[i..][1..] == blocks[i + 1..];
      var header := blocks[i].header;
      if header.number != number + 1 || header.parentHash != expected || number + 2 >= U64_LIMIT {
        return false;
      }
      number, expected := number + 1, header.hash;
    }
    ok := true;
  }

  /** Block `i` is legacy when its parent runs an ArbOS version below 20. */
  function LegacyFlags(parent: Header, blocks: seq<Block>): (r: Option<seq<bool>>)
    ensures r.Some? ==> |r.value| == |blocks|
    decreases |blocks|
  {
    if blocks == [] then Some([])
    else if parent.arbos.None? then None
    else
      var rest := LegacyFlags(blocks[0].header, blocks[1..]);
      if rest.None? then None else Some([parent.arbos.value < ARBOS_20] + rest.value)
  }

  // ---------------------------------------------------------------- preimages

  /** Gathers `(hash, plain)` pairs; two plain keys under one hash would be a conflict. */
  method CollectPreimages(k: Keccak, blocks: seq<Block>, legacy: seq<bool>) returns (r: Result<Sidecar, PrepareError>)
    requires Injective(k) && |legacy| == |blocks|
    ensures r.Ok? && PreimagesOf(k, r.value, LegacySlots(blocks, legacy))
  {
    var entries: Sidecar := map[];
    ghost var seen: set<Slot> := {};
    assert blocks[0..] == blocks && legacy[0..] == legacy;
    for i := 0 to |blocks|
      invariant LegacySlots(blocks, legacy) == seen + LegacySlots(blocks[i..], legacy[i..])
      invariant PreimagesOf(k, entries, seen)
    {
      assert blocks[i..][0] == blocks[i] && blocks[i..][1..] == blocks[i + 1..];
      assert legacy[i..][0] == legacy[i] && legacy[i..][1..] == legacy[i + 1..];
      if !legacy[i] { continue; }
      var more := AddPreimages(k, entries, PlainSlots(blocks[i]), seen);
      if more.Err? {
        return more;
      }
      entries, seen := more.value, seen + PlainSlots(blocks[i]);
    }
    r := Ok(entries);
  }

  method AddPreimages(k: Keccak, base: Sidecar, slots: set<Slot>,
      ghost seen: set<Slot>) returns (r: Result<Sidecar, PrepareError>)
    requires Injective(k) && PreimagesOf(k, base, seen)
    ensures r.Ok? && PreimagesOf(k, r.value, seen + slots)
  {
    var entries: Sidecar := base;
    var todo := slots;
    while todo != {}
      invariant todo <= slots
      invariant PreimagesOf(k, entries, seen + (slots - todo))
      decreases todo
    {
      var s :| s in todo;
      if k.slot(s) in entries && entries[k.slot(s)] != s {
        return Err(ConflictingPreimages);
      }
      entries := entries[k.slot(s) := s];
      todo := todo - {s};
    }
    assert seen + (slots - todo) == seen + slots;
    r := Ok(entries);
  }

  /** The entries the sidecar lacks; an entry it holds differently is corruption. */
  method MissingPreimages(sidecar: Sidecar, entries: Sidecar) returns (r: Result<Sidecar, PrepareError>)
    ensures r.Ok? <==> forall h <- entries :: h in sidecar ==> sidecar[h] == entries[h]
    ensures r.Ok? ==> r.value == map h | h in entries && h !in sidecar :: entries[h]
    ensures r.Err? ==> r.error == CorruptPreimage
  {
    var missing: Sidecar := map[];
    var todo := entries.Keys;
    while todo != {}
      invariant todo <= entries.Keys
      invariant forall h <- entries.Keys - todo :: h in sidecar ==> sidecar[h] == entries[h]
      invariant missing == map h | h in entries && h !in todo && h !in sidecar :: entries[h]
      decreases todo
    {
      var h :| h in todo;
      if h !in sidecar {
        missing := missing[h := entries[h]];
      } else if sidecar[h] != entries[h] {
        return Err(CorruptPreimage);
      }
      todo := todo - {h};
    }
    r := Ok(missing);
  }

  // ---------------------------------------------------------------- wiped accounts

  method LoadWiped(k: Keccak, store: Store, addresses: set<Address>) returns (tracked: Tracked)
    requires Injective(k)
    ensures tracked == LoadTracked(k, store, addresses)
  {
    tracked := map[];
    var todo := addresses;
    while todo != {}
      invariant todo <= addresses
      invariant forall a <- addresses - todo ::
          k.address(a) in tracked && tracked[k.address(a)] == TrackedStorage(a, AccountSlots(store, k.address(a)))
      invariant forall h <- tracked :: tracked[h].address in addresses && k.address(tracked[h].address) == h
      decreases todo
    {
      var a :| a in todo;
      tracked := tracked[k.address(a) := TrackedStorage(a, AccountSlots(store, k.address(a)))];
      todo := todo - {a};
    }
    LoadedIs(k, store, addresses, tracked);
  }

  lemma LoadedIs(k: Keccak, store: Store, addresses: set<Address>, tracked: Tracked)
    requires Injective(k)
    requires forall a <- addresses ::
        k.address(a) in tracked && tracked[k.address(a)] == TrackedStorage(a, AccountSlots(store, k.address(a)))
    requires forall h <- tracked :: tracked[h].address in addresses && k.address(tracked[h].address) == h
    ensures tracked == LoadTracked(k, store, addresses)
  {
    forall h | h in tracked
      ensures h in HashedAddresses(k, addresses) && tracked[h].address == AddressOf(k, addresses, h)
    {
      assert k.address(tracked[h].address) in HashedAddresses(k, addresses);
    }
    assert tracked.Keys == HashedAddresses(k, addresses);
  }

  /** Adds an entry for every tracked slot of one wiped account. */
  method InjectAccount(k: Keccak, sidecar: Sidecar, slots: map<Hash, Word>, storage: map<Slot, RevertToSlot>)
    returns (r: Result<map<Slot, RevertToSlot>, PrepareError>)
    requires Injective(k)
    ensures r.Ok? <==> PreimagesKnown(k, sidecar, slots)
    ensures r.Ok? ==> r.value == EnrichStorage(k, sidecar, slots, storage)
  {
    var out := storage;
    var todo := slots.Keys;
    ghost var done: map<Hash, Word> := map[];
    while todo != {}
      invariant todo <= slots.Keys
      invariant done == map h | h in slots && h !in todo :: slots[h]
      invariant PreimagesKnown(k, sidecar, done)
      invariant out == EnrichStorage(k, sidecar, done, storage)
      decreases todo
    {
      var h :| h in todo;
      if h !in sidecar {
        return Err(MissingPreimage);
      }
      var plain := sidecar[h];
      if k.slot(plain) != h {
        return Err(CorruptPreimage);
      }
      if plain !in out || out[plain].Destroyed? {
        out := out[plain := ToValue(slots[h])];
      }
      EnrichOneMore(k, sidecar, done, storage, h, slots[h]);
      done := done[h := slots[h]];
      todo := todo - {h};
    }
    assert done == slots;
    r := Ok(out);
  }

  lemma EnrichOneMore(k: Keccak, sidecar: Sidecar, slots: map<Hash, Word>, storage: map<Slot, RevertToSlot>, h: Hash,
      w: Word)
    requires Injective(k) && PreimagesKnown(k, sidecar, slots)
    requires h !in slots && h in sidecar && k.slot(sidecar[h]) == h
    ensures PreimagesKnown(k, sidecar, slots[h := w])
    ensures var before := EnrichStorage(k, sidecar, slots, storage);
            var plain := sidecar[h];
            EnrichStorage(k, sidecar, slots[h := w], storage) ==
            if plain !in before || before[plain].Destroyed? then before[plain := ToValue(w)] else before
  {
    var before := EnrichStorage(k, sidecar, slots, storage);
    var after := EnrichStorage(k, sidecar, slots[h := w], storage);
    var plain := sidecar[h];
    var expected := if plain !in before || before[plain].Destroyed? then before[plain := ToValue(w)] else before;
    forall s ensures (s in after <==> s in expected) && (s in after ==> after[s] == expected[s]) {
      EnrichedEntry(k, sidecar, slots, storage, s);
      EnrichedEntry(k, sidecar, slots[h := w], storage, s);
      EnrichedEntry(k, sidecar, slots, storage, plain);
    }
  }

  method InjectPlainWipeReverts(k: Keccak, sidecar: Sidecar, tracked: Tracked,
      t: Transition) returns (r: Result<Transition, PrepareError>)
    requires Injective(k)
    ensures r.Ok? <==> Injectable(k, sidecar, tracked, t)
    ensures r.Ok? ==> r.value == Inject(k, sidecar, tracked, t)
  {
    var out := t;
    var todo := t.Keys;
    while todo != {}
      invariant todo <= t.Keys && out.Keys == t.Keys
      invariant forall a <- t.Keys - todo :: t[a].wipeStorage ==>
        k.address(a) in tracked && PreimagesKnown(k, sidecar, tracked[k.address(a)].slots)
      invariant forall a <- t :: a in todo || !t[a].wipeStorage ==> out[a] == t[a]
      invariant forall a <- t.Keys - todo :: t[a].wipeStorage ==>
          out[a] == t[a].(storage := EnrichStorage(k, sidecar, tracked[k.address(a)].slots, t[a].storage))
      decreases todo
    {
      var a :| a in todo;
      if t[a].wipeStorage {
        if k.address(a) !in tracked {
          return Err(AccountNotLoaded);
        }
        var storage := InjectAccount(k, sidecar, tracked[k.address(a)].slots, t[a].storage);
        if storage.Err? {
          return Err(storage.error);
        }
        out := out[a := t[a].(storage := storage.value)];
      }
      todo := todo - {a};
    }
    assert out == Inject(k, sidecar, tracked, t);
    r := Ok(out);
  }

  method ApplyHashedUpdates(tracked: Tracked, updates: HashedPostState) returns (r: Tracked)
    ensures r == ApplyHashed(tracked, updates)
  {
    r := tracked;
    var todo := tracked.Keys;
    while todo != {}
      invariant todo <= tracked.Keys && r.Keys == tracked.Keys
      invariant forall a <- todo :: r[a] == tracked[a]
      invariant forall a <- tracked.Keys - todo ::
          r[a] == tracked[a].(slots := AppliedSlots(tracked[a].slots, a, updates))
      decreases todo
    {
      var a :| a in todo;
      var slots := tracked[a].slots;
      if a in updates.storages {
        var storage := updates.storages[a];
        slots := (if storage.wiped then map[] else slots) + storage.slots;
        slots := map h | h in slots && !(h in storage.slots && storage.slots[h] == 0) :: slots[h];
      }
      if a in updates.destroyed {
        slots := map[];
      }
      assert slots == AppliedSlots(tracked[a].slots, a, updates);
      r := r[a := tracked[a].(slots := slots)];
      todo := todo - {a};
    }
  }

  /** One iteration of the loop: inject and mark. */
  method EnrichOne(k: Keccak, sidecar: Sidecar, tracked: Tracked, block: Block,
      legacy: bool) returns (r: Result<Block, PrepareError>)
    requires Injective(k)
    ensures r.Ok? <==> (legacy ==> Injectable(k, sidecar, tracked, block.reverts))
    ensures r.Ok? ==> r.value == EnrichBlock(k, sidecar, tracked, block, legacy)
  {
    if legacy && HasWipe(block.reverts) {
      var reverts := InjectPlainWipeReverts(k, sidecar, tracked, block.reverts);
      if reverts.Err? {
        return Err(reverts.error);
      }
      return Ok(MarkWipes(k, block.(reverts := reverts.value)));
    }
    r := Ok(block);
  }

  /** `out` is what the loop has produced when `tracked`, `blocks` and `legacy` are still to come. */
  ghost predicate Produced(k: Keccak, sidecar: Sidecar, all: Option<seq<Block>>, out: seq<Block>, tracked: Tracked,
      blocks: seq<Block>, legacy: seq<bool>)
    requires |legacy| == |blocks|
  {
    var rest := EnrichAll(k, sidecar, tracked, blocks, legacy);
    (all.Some? <==> rest.Some?) && (all.Some? ==> all.value == out + rest.value)
  }

  lemma ProduceOne(k: Keccak, sidecar: Sidecar, all: Option<seq<Block>>, out: seq<Block>, tracked: Tracked,
      blocks: seq<Block>, legacy: seq<bool>)
    requires |legacy| == |blocks| > 0 && Produced(k, sidecar, all, out, tracked, blocks, legacy)
    ensures legacy[0] && !Injectable(k, sidecar, tracked, blocks[0].reverts) ==> all.None?
    ensures (legacy[0] ==> Injectable(k, sidecar, tracked, blocks[0].reverts)) ==>
              var e := EnrichBlock(k, sidecar, tracked, blocks[0], legacy[0]);
              Produced(k, sidecar, all, out + [e], ApplyHashed(tracked, e.hashed), blocks[1..], legacy[1..])
  {
    if legacy[0] ==> Injectable(k, sidecar, tracked, blocks[0].reverts) {
      EnrichAllUnfolds(k, sidecar, tracked, blocks, legacy);
      if all.Some? {
        var e := EnrichBlock(k, sidecar, tracked, blocks[0], legacy[0]);
        var rest := EnrichAll(k, sidecar, ApplyHashed(tracked, e.hashed), blocks[1..], legacy[1..]);
        assert out + ([e] + rest.value) == out + [e] + rest.value;
      }
    }
  }

  /** The loop over the batch: inject, mark, simulate. */
  method EnrichBatch(k: Keccak, sidecar: Sidecar, loaded: Tracked, blocks: seq<Block>,
      legacy: seq<bool>) returns (r: Result<seq<Block>, PrepareError>)
    requires Injective(k) && |legacy| == |blocks|
    ensures r.Ok? <==> EnrichAll(k, sidecar, loaded, blocks, legacy).Some?
    ensures r.Ok? ==> r.value == EnrichAll(k, sidecar, loaded, blocks, legacy).value
  {
    var tracked := loaded;
    var out: seq<Block> := [];
    ghost var all := EnrichAll(k, sidecar, loaded, blocks, legacy);
    assert blocks[0..] == blocks && legacy[0..] == legacy;
    assert all.Some? ==> [] + all.value == all.value;
    for i := 0 to |blocks|
      invariant Produced(k, sidecar, all, out, tracked, blocks[i..], legacy[i..])
    {
      assert blocks[i..][0] == blocks[i] && blocks[i..][1..] == blocks[i + 1..];
      assert legacy[i..][0] == legacy[i] && legacy[i..][1..] == legacy[i + 1..];
      ProduceOne(k, sidecar, all, out, tracked, blocks[i..], legacy[i..]);
      var block := EnrichOne(k, sidecar, tracked, blocks[i], legacy[i]);
      if block.Err? {
        return Err(block.error);
      }
      tracked := ApplyHashedUpdates(tracked, block.value.hashed);
      out := out + [block.value];
    }
    r := Ok(out);
  }

  // ---------------------------------------------------------------- the preparation

  lemma {:induction false} NoWipesLeavesBlocksAlone(k: Keccak, sidecar: Sidecar, tracked: Tracked, blocks: seq<Block>,
      legacy: seq<bool>)
    requires |legacy| == |blocks| && WipeAddresses(blocks, legacy) == {}
    ensures EnrichAll(k, sidecar, tracked, blocks, legacy) == Some(blocks)
    decreases |blocks|
  {
    if blocks != [] {
      if legacy[0] {
        assert WipedAddresses(blocks[0].reverts) == {};
        forall a | a in blocks[0].reverts ensures !blocks[0].reverts[a].wipeStorage {
          assert a !in WipedAddresses(blocks[0].reverts);
        }
      }
      EnrichAllUnfolds(k, sidecar, tracked, blocks, legacy);
      NoWipesLeavesBlocksAlone(k, sidecar, ApplyHashed(tracked, blocks[0].hashed), blocks[1..], legacy[1..]);
      assert blocks == [blocks[0]] + blocks[1..];
    }
  }

  /** The sidecar holds no other plain key under a hash the legacy blocks name. */
  ghost predicate Uncorrupted(k: Keccak, sidecar: Sidecar, slots: set<Slot>) {
    forall s <- slots :: k.slot(s) in sidecar ==> sidecar[k.slot(s)] == s
  }

  predicate AnyLegacy(legacy: seq<bool>) {
    exists i :: 0 <= i < |legacy| && legacy[i]
  }

  lemma UncorruptedEntries(k: Keccak, sidecar: Sidecar, entries: Sidecar, slots: set<Slot>)
    requires PreimagesOf(k, entries, slots)
    ensures Uncorrupted(k, sidecar, slots) <==> forall h <- entries :: h in sidecar ==> sidecar[h] == entries[h]
  {
    if Uncorrupted(k, sidecar, slots) {
      forall h | h in entries && h in sidecar ensures sidecar[h] == entries[h] {
        assert entries[h] in slots;
      }
    }
  }

  lemma MissingCompletes(sidecar: Sidecar, entries: Sidecar, missing: Sidecar)
    requires missing == map h | h in entries && h !in sidecar :: entries[h]
    ensures missing + sidecar == entries + sidecar
  {
  }

  /** Makes the plain keys of the legacy blocks durable. */
  method RecordPreimages(k: Keccak, sidecar: Sidecar, blocks: seq<Block>, legacy: seq<bool>)
    returns (r: Result<Sidecar, PrepareError>)
    requires Injective(k) && |legacy| == |blocks|
    ensures r.Ok? <==> Uncorrupted(k, sidecar, LegacySlots(blocks, legacy))
    ensures r.Ok? ==> r.value == Extend(k, sidecar, LegacySlots(blocks, legacy))
  {
    ghost var slots := LegacySlots(blocks, legacy);
    var entries := CollectPreimages(k, blocks, legacy);
    var missing := MissingPreimages(sidecar, entries.value);
    UncorruptedEntries(k, sidecar, entries.value, slots);
    if missing.Err? {
      return Err(missing.error);
    }
    ExtendByEntries(k, sidecar, entries.value, slots);
    MissingCompletes(sidecar, entries.value, missing.value);
    r := Ok(missing.value + sidecar);
  }

  /** Loads the accounts the batch wipes, if any, and enriches the batch. */
  method EnrichWipes(k: Keccak, store: Store, sidecar: Sidecar, blocks: seq<Block>, legacy: seq<bool>)
    returns (r: Result<seq<Block>, PrepareError>)
    requires Injective(k) && |legacy| == |blocks|
    ensures var all := EnrichAll(k, sidecar, LoadTracked(k, store, WipeAddresses(blocks, legacy)), blocks, legacy);
            (r.Ok? <==> all.Some?) && (r.Ok? ==> r.value == all.value)
  {
    var wiped := WipeAddresses(blocks, legacy);
    if wiped == {} {
      NoWipesLeavesBlocksAlone(k, sidecar, LoadTracked(k, store, wiped), blocks, legacy);
      return Ok(blocks);
    }
    var tracked := LoadWiped(k, store, wiped);
    r := EnrichBatch(k, sidecar, tracked, blocks, legacy);
  }

  // ---------------------------------------------------------------- the proxy

  datatype NumHash = NumHash(number: nat, hash: Hash)

  /** The sidecar, the frontiers the delegate last confirmed, and what the delegate has made durable:
      hashed storage, headers, the tip and, oldest first, the blocks whose changesets it keeps. */
  datatype State = State(
    hashedState: bool,
    sidecar: Sidecar,
    lastBlock: Option<NumHash>,
    lastStateTrie: Option<NumHash>,
    store: Store,
    headers: map<nat, Header>,
    tip: nat,
    persisted: seq<Block>)

  /** The hash a batch must build on: confirmed by the last request, or read back after a restart. */
  function ExpectedParent(s: State, prevDbTip: nat, prevStateTrie: nat): Option<Hash> {
    if s.lastStateTrie.Some? then
      if s.lastBlock.Some? && s.lastBlock.value.number == prevDbTip && s.lastStateTrie.value.number == prevStateTrie
      then Some(s.lastStateTrie.value.hash)
      else None
    else if s.tip == prevDbTip && s.tip == prevStateTrie && prevStateTrie in s.headers
    then Some(s.headers[prevStateTrie].hash)
    else None
  }

  /** The legacy flags of a batch that continues the frontier, or `None`. */
  function Validated(s: State, blocks: seq<Block>, prevDbTip: nat, prevStateTrie: nat): (r: Option<seq<bool>>)
    ensures r.Some? ==> |r.value| == |blocks|
  {
    var parent := ExpectedParent(s, prevDbTip, prevStateTrie);
    if parent.None? || !Linked(blocks, prevStateTrie, parent.value) then None
    else if blocks == [] || prevStateTrie !in s.headers then None
    else LegacyFlags(s.headers[prevStateTrie], blocks)
  }

  /** The batch the delegate receives, or `None` when it must not receive anything. */
  ghost function Prepared(k: Keccak, s: State, blocks: seq<Block>, prevDbTip: nat,
      prevStateTrie: nat): Option<seq<Block>>
    requires Injective(k)
  {
    if !s.hashedState then Some(blocks)
    else
      var flags := Validated(s, blocks, prevDbTip, prevStateTrie);
      if flags.None? then None
      else if !AnyLegacy(flags.value) then Some(blocks)
      else if !Uncorrupted(k, s.sidecar, LegacySlots(blocks, flags.value)) then None
      else PrepareTogether(k, s.store, s.sidecar, blocks, flags.value)
  }

  /** The sidecar once a batch was prepared, whether or not the preparation went on to fail on a wipe. */
  ghost function SidecarAfter(k: Keccak, s: State, blocks: seq<Block>, prevDbTip: nat, prevStateTrie: nat): Sidecar {
    var flags := Validated(s, blocks, prevDbTip, prevStateTrie);
    if !s.hashedState || flags.None? || !AnyLegacy(flags.value) then s.sidecar
    else if !Uncorrupted(k, s.sidecar, LegacySlots(blocks, flags.value)) then s.sidecar
    else Extend(k, s.sidecar, LegacySlots(blocks, flags.value))
  }

  function WithHeaders(headers: map<nat, Header>, blocks: seq<Block>): map<nat, Header> {
    if blocks == [] then headers
    else WithHeaders(headers, blocks[..|blocks| - 1])[blocks[|blocks| - 1].header.number := blocks[|blocks| - 1].header]
  }

  /** The delegate has made `enriched`, the prepared form of `blocks`, durable. */
  function Committed(s: State, blocks: seq<Block>, enriched: seq<Block>): State {
    var durable := s.(store := PersistAll(s.store, enriched), headers := WithHeaders(s.headers, blocks),
                      persisted := s.persisted + enriched);
    if blocks == [] then durable
    else
      var last := blocks[|blocks| - 1].header;
      var frontier := Some(NumHash(last.number, last.hash));
      durable.(tip := last.number, lastBlock := frontier, lastStateTrie := frontier)
  }

  /** The state a `SaveBlocks` request leaves when the delegate answers it. */
  ghost function Saved(k: Keccak, s: State, blocks: seq<Block>, prevDbTip: nat, prevStateTrie: nat): Option<State>
    requires Injective(k)
  {
    var enriched := Prepared(k, s, blocks, prevDbTip, prevStateTrie);
    if enriched.None? then None
    else
      Some(Committed(s.(sidecar := SidecarAfter(k, s, blocks, prevDbTip, prevStateTrie)), blocks, enriched.value))
  }

  /** The delegate holds block `number` and the changeset of every block above it. */
  predicate Recorded(s: State, number: nat) {
    number <= s.tip && s.tip - number <= |s.persisted| && number in s.headers
  }

  function Kept(s: State, number: nat): (n: nat)
    requires Recorded(s, number)
    ensures n <= |s.persisted|
  {
    |s.persisted| - (s.tip - number)
  }

  /** Undoing one block replays its changeset. */
  ghost function Undo(k: Keccak): (Store, Block) -> Store {
    (store: Store, b: Block) => UnwindBlock(k, store, b.reverts)
  }

  /** The delegate has removed every block above `number`, replaying the changesets newest first. */
  ghost function Removed(k: Keccak, s: State, number: nat): State
    requires Recorded(s, number)
  {
    var frontier := Some(NumHash(number, s.headers[number].hash));
    s.(store := Back(Undo(k), s.store, s.persisted, Kept(s, number)), persisted := s.persisted[..Kept(s, number)],
       headers := map n | n in s.headers && n <= number :: s.headers[n], tip := number, lastBlock := frontier,
       lastStateTrie := frontier)
  }

  class Proxy {
    const hashedState: bool
    var sidecar: Sidecar
    var lastBlock: Option<NumHash>
    var lastStateTrie: Option<NumHash>
    var store: Store
    var headers: map<nat, Header>
    var tip: nat
    var persisted: seq<Block>
    // Every block handed to the delegate, and whether the proxy still serves requests.
    var delegated: seq<Block>
    var running: bool

    function View(): State
      reads this
    {
      State(hashedState, sidecar, lastBlock, lastStateTrie, store, headers, tip, persisted)
    }

    constructor (hashedState: bool, sidecar: Sidecar, store: Store, headers: map<nat, Header>, tip: nat,
        persisted: seq<Block>)
      ensures View() == State(hashedState, sidecar, None, None, store, headers, tip, persisted)
      ensures delegated == [] && running
    {
      this.hashedState, this.sidecar, this.store := hashedState, sidecar, store;
      this.headers, this.tip, this.persisted := headers, tip, persisted;
      lastBlock, lastStateTrie, delegated, running := None, None, [], true;
    }

    /** Checks that a batch continues the frontier and reads its legacy flags. */
    method Validate(blocks: seq<Block>, prevDbTip: nat, prevStateTrie: nat)
      returns (r: Result<seq<bool>, PrepareError>)
      ensures r.Ok? <==> Validated(View(), blocks, prevDbTip, prevStateTrie).Some?
      ensures r.Ok? ==> r.value == Validated(View(), blocks, prevDbTip, prevStateTrie).value
    {
      var parent := ExpectedParent(View(), prevDbTip, prevStateTrie);
      if parent.None? {
        return Err(FrontierMismatch);
      }
      var linked := ValidateBlocks(blocks, prevStateTrie, parent.value);
      if !linked {
        return Err(NotLinked);
      }
      if blocks == [] {
        return Err(EmptyBatch);
      }
      if prevStateTrie !in headers {
        return Err(BadParentHeader);
      }
      var flags := LegacyFlags(headers[prevStateTrie], blocks);
      if flags.None? {
        return Err(BadParentHeader);
      }
      r := Ok(flags.value);
    }

    /** Prepares a batch.  Preimages of legacy blocks become durable before anything can fail on a wipe. */
    method Prepare(k: Keccak, blocks: seq<Block>, prevDbTip: nat, prevStateTrie: nat)
      returns (r: Result<seq<Block>, PrepareError>)
      requires Injective(k)
      modifies this`sidecar
      ensures r.Ok? <==> old(Prepared(k, View(), blocks, prevDbTip, prevStateTrie)).Some?
      ensures r.Ok? ==> r.value == old(Prepared(k, View(), blocks, prevDbTip, prevStateTrie)).value
      ensures sidecar == old(SidecarAfter(k, View(), blocks, prevDbTip, prevStateTrie))
    {
      if !hashedState {
        return Ok(blocks);
      }
      var flags := Validate(blocks, prevDbTip, prevStateTrie);
      if flags.Err? {
        return Err(flags.error);
      }
      if !AnyLegacy(flags.value) {
        return Ok(blocks);
      }
      var extended := RecordPreimages(k, sidecar, blocks, flags.value);
      if extended.Err? {
        return Err(extended.error);
      }
      sidecar := extended.value;
      r := EnrichWipes(k, store, sidecar, blocks, flags.value);
    }

    /** Serves one `SaveBlocks` request.  A batch that cannot be prepared never reaches the delegate:
        the proxy stops and the durable state keeps its old contents. */
    method SaveBlocks(k: Keccak, blocks: seq<Block>, prevDbTip: nat, prevStateTrie: nat, delegateOk: bool)
      returns (saved: bool)
      requires Injective(k) && running
      modifies this
      ensures saved == running == (delegateOk && old(Prepared(k, View(), blocks, prevDbTip, prevStateTrie)).Some?)
      ensures var prepared := old(Prepared(k, View(), blocks, prevDbTip, prevStateTrie));
              delegated == old(delegated) + if prepared.Some? then prepared.value else []
      ensures saved ==> old(Saved(k, View(), blocks, prevDbTip, prevStateTrie)) == Some(View())
      ensures !saved ==>
                View() == old(View()).(sidecar := old(SidecarAfter(k, View(), blocks, prevDbTip, prevStateTrie)))
    {
      var prepared := Prepare(k, blocks, prevDbTip, prevStateTrie);
      if prepared.Err? {
        running := false;
        return false;
      }
      delegated := delegated + prepared.value;
      if !delegateOk {
        running := false;
        return false;
      }
      store := PersistAll(store, prepared.value);
      headers := WithHeaders(headers, blocks);
      persisted := persisted + prepared.value;
      if blocks != [] {
        var last := blocks[|blocks| - 1].header;
        tip := last.number;
        lastBlock := Some(NumHash(last.number, last.hash));
        lastStateTrie := lastBlock;
      }
      saved := true;
    }

    /** Serves one `RemoveBlocksAbove` request; `unwound` is the storage the delegate is left with. */
    method RemoveBlocksAbove(k: Keccak, number: nat, unwound: Store, delegateOk: bool) returns (removed: bool)
      requires running
      requires delegateOk ==>
                 Recorded(View(), number) && unwound == Back(Undo(k), store, persisted, Kept(View(), number))
      modifies this
      ensures removed == running == delegateOk && delegated == old(delegated)
      ensures View() == if removed then Removed(k, old(View()), number) else old(View())
    {
      if !delegateOk {
        running := false;
        return false;
      }
      var kept := Kept(View(), number);
      lastBlock := Some(NumHash(number, headers[number].hash));
      lastStateTrie := lastBlock;
      store, persisted := unwound, persisted[..kept];
      headers := map n | n in headers && n <= number :: headers[n];
      tip := number;
      removed := true;
    }
  }
}
