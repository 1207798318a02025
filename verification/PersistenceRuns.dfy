/** Whole runs of the persistence proxy: saves and removals in any order. */
module PersistenceRuns {
  import opened Prelude
  import opened StorageV2
  import opened StorageV2Unwind
  import opened StorageV2Coverage
  import opened Rollback
  import opened PersistenceProxy

  // ---------------------------------------------------------------- what decides a request

  /** The frontiers the proxy remembers are the durable tip. */
  ghost predicate AtTip(s: State) {
    && s.tip in s.headers
    && (s.lastStateTrie.Some? ==>
          s.lastBlock == s.lastStateTrie && s.lastStateTrie.value == NumHash(s.tip, s.headers[s.tip].hash))
  }

  /** A non-empty batch that builds, block by block, on the durable tip. */
  predicate Continues(s: State, blocks: seq<Block>, prevDbTip: nat, prevStateTrie: nat)
    requires s.tip in s.headers
  {
    prevDbTip == prevStateTrie == s.tip && blocks != [] && Linked(blocks, s.tip, s.headers[s.tip].hash)
  }

  lemma ValidatedIff(s: State, blocks: seq<Block>, prevDbTip: nat, prevStateTrie: nat)
    requires AtTip(s)
    ensures Validated(s, blocks, prevDbTip, prevStateTrie) ==
            if Continues(s, blocks, prevDbTip, prevStateTrie) then LegacyFlags(s.headers[s.tip], blocks) else None
  {
  }

  lemma SoundIsUncorrupted(k: Keccak, sidecar: Sidecar, slots: set<Slot>)
    requires Injective(k) && SidecarSound(k, sidecar)
    ensures Uncorrupted(k, sidecar, slots)
  {
  }

  lemma {:induction false} NoLegacyNoSlots(blocks: seq<Block>, legacy: seq<bool>)
    requires |legacy| == |blocks| && !AnyLegacy(legacy)
    ensures LegacySlots(blocks, legacy) == {}
    decreases |blocks|
  {
    if blocks != [] {
      assert !legacy[0];
      assert forall i :: 0 <= i < |legacy[1..]| ==> legacy[1..][i] == legacy[i + 1];
      NoLegacyNoSlots(blocks[1..], legacy[1..]);
    }
  }

  lemma ExtendByNothing(k: Keccak, sidecar: Sidecar)
    ensures Extend(k, sidecar, {}) == sidecar
  {
    assert HashedSlots(k, {}) == {};
  }

  /** With a sound sidecar the proxy hands on exactly the batches that continue the tip, carry ArbOS
      headers and can be enriched; it can never refuse one as corrupt. */
  lemma {:induction false} ProxyDecides(k: Keccak, s: State, blocks: seq<Block>, prevDbTip: nat, prevStateTrie: nat)
    requires Injective(k) && s.hashedState && SidecarSound(k, s.sidecar) && AtTip(s)
    ensures var flags := LegacyFlags(s.headers[s.tip], blocks);
            if Continues(s, blocks, prevDbTip, prevStateTrie) && flags.Some?
            then && Prepared(k, s, blocks, prevDbTip, prevStateTrie) ==
                    PrepareTogether(k, s.store, s.sidecar, blocks, flags.value)
                 && SidecarAfter(k, s, blocks, prevDbTip, prevStateTrie) ==
                    Extend(k, s.sidecar, LegacySlots(blocks, flags.value))
            else && Prepared(k, s, blocks, prevDbTip, prevStateTrie) == None
                 && SidecarAfter(k, s, blocks, prevDbTip, prevStateTrie) == s.sidecar
  {
    ValidatedIff(s, blocks, prevDbTip, prevStateTrie);
    var flags := Validated(s, blocks, prevDbTip, prevStateTrie);
    if flags.Some? {
      SoundIsUncorrupted(k, s.sidecar, LegacySlots(blocks, flags.value));
      if !AnyLegacy(flags.value) {
        NoLegacyNoSlots(blocks, flags.value);
        ExtendByNothing(k, s.sidecar);
        NoLegacyLeavesBlocksAlone(k, s.sidecar, LoadTracked(k, s.store, WipeAddresses(blocks, flags.value)), blocks,
            flags.value);
      }
    }
  }

  /** Whatever the proxy hands on was enriched against the durable storage, wipes or not. */
  lemma PreparedIsTogether(k: Keccak, s: State, blocks: seq<Block>, prevDbTip: nat, prevStateTrie: nat)
    requires Injective(k) && s.hashedState && Prepared(k, s, blocks, prevDbTip, prevStateTrie).Some?
    ensures Validated(s, blocks, prevDbTip, prevStateTrie).Some?
    ensures var legacy := Validated(s, blocks, prevDbTip, prevStateTrie).value;
            Prepared(k, s, blocks, prevDbTip, prevStateTrie) == PrepareTogether(k, s.store, s.sidecar, blocks, legacy)
  {
    var legacy := Validated(s, blocks, prevDbTip, prevStateTrie).value;
    if !AnyLegacy(legacy) {
      NoLegacyLeavesBlocksAlone(k, Extend(k, s.sidecar, LegacySlots(blocks, legacy)),
          LoadTracked(k, s.store, WipeAddresses(blocks, legacy)), blocks, legacy);
    }
  }

  /** Every batch the proxy accepts, from any state, can be unwound again, as a whole or down to any
      of its blocks, given sound reverts from execution. */
  lemma {:induction false} AcceptedBatchUnwinds(k: Keccak, s: State, blocks: seq<Block>, prevDbTip: nat,
      prevStateTrie: nat, j: nat)
    requires Injective(k) && s.hashedState && Canonical(s.store)
    requires Prepared(k, s, blocks, prevDbTip, prevStateTrie).Some? && j <= |blocks|
    requires Validated(s, blocks, prevDbTip, prevStateTrie).Some?
    requires SoundBatch(k, s.store, blocks, Validated(s, blocks, prevDbTip, prevStateTrie).value)
    ensures var enriched := Prepared(k, s, blocks, prevDbTip, prevStateTrie).value;
            && |enriched| == |blocks|
            && UnwindAll(k, PersistAll(s.store, enriched), enriched[j..]) == PersistAll(s.store, enriched[..j])
  {
    var legacy := Validated(s, blocks, prevDbTip, prevStateTrie).value;
    PreparedIsTogether(k, s, blocks, prevDbTip, prevStateTrie);
    UnwindToAnyBlock(k, Extend(k, s.sidecar, LegacySlots(blocks, legacy)),
        LoadTracked(k, s.store, WipeAddresses(blocks, legacy)), s.store, blocks, legacy, j);
  }

  // ---------------------------------------------------------------- what execution delivers

  /** Arbitrum headers whose ArbOS version never decreases. */
  ghost predicate Upgrading(tip: Header, blocks: seq<Block>)
    decreases |blocks|
  {
    && tip.arbos.Some?
    && (blocks != [] ==>
          && blocks[0].header.arbos.Some?
          && tip.arbos.value <= blocks[0].header.arbos.value
          && Upgrading(blocks[0].header, blocks[1..]))
  }

  /** With a non-decreasing version the legacy flags form a prefix. */
  lemma {:induction false} UpgradingFlags(tip: Header, blocks: seq<Block>)
    requires Upgrading(tip, blocks)
    ensures LegacyFlags(tip, blocks).Some?
    ensures var flags := LegacyFlags(tip, blocks).value;
            && LegacyFirst(flags)
            && (tip.arbos.value >= ARBOS_20 ==> forall i :: 0 <= i < |flags| ==> !flags[i])
    decreases |blocks|
  {
    if blocks != [] {
      UpgradingFlags(blocks[0].header, blocks[1..]);
      var rest := LegacyFlags(blocks[0].header, blocks[1..]).value;
      assert LegacyFlags(tip, blocks).value == [tip.arbos.value < ARBOS_20] + rest;
    }
  }

  /** A block whose own version is still legacy has only legacy blocks up to it. */
  lemma {:induction false} LegacyUpTo(tip: Header, blocks: seq<Block>, j: nat)
    requires Upgrading(tip, blocks) && 0 < j <= |blocks| && LegacyFlags(tip, blocks).Some?
    ensures blocks[j - 1].header.arbos.Some?
    ensures blocks[j - 1].header.arbos.value < ARBOS_20 ==>
              tip.arbos.value < ARBOS_20 && AllTrue(LegacyFlags(tip, blocks).value[..j])
    decreases j
  {
    var flags := LegacyFlags(tip, blocks).value;
    var rest := LegacyFlags(blocks[0].header, blocks[1..]).value;
    assert flags == [tip.arbos.value < ARBOS_20] + rest;
    if j > 1 {
      LegacyUpTo(blocks[0].header, blocks[1..], j - 1);
      if blocks[j - 1].header.arbos.value < ARBOS_20 {
        assert rest[..j - 1][0] == (blocks[0].header.arbos.value < ARBOS_20);
        assert flags[..j] == [tip.arbos.value < ARBOS_20] + rest[..j - 1];
      }
    }
  }

  /** A batch as execution delivers it: it continues the tip, its headers carry ArbOS versions, it names
      the plain key of every slot it writes and its reverts are sound. */
  ghost predicate Delivered(k: Keccak, s: State, blocks: seq<Block>, prevDbTip: nat, prevStateTrie: nat)
    requires s.tip in s.headers
  {
    && Continues(s, blocks, prevDbTip, prevStateTrie)
    && Upgrading(s.headers[s.tip], blocks)
    && (forall i :: 0 <= i < |blocks| ==> Traceable(k, blocks[i]))
    && LegacyFlags(s.headers[s.tip], blocks).Some?
    && SoundBatch(k, s.store, blocks, LegacyFlags(s.headers[s.tip], blocks).value)
  }

  // ---------------------------------------------------------------- the invariant

  /** Block `number` has a header, and while that is legacy the sidecar covers the storage it leaves. */
  ghost predicate Held(headers: map<nat, Header>, sidecar: Sidecar, number: nat, store: Store) {
    && Canonical(store) && number in headers && headers[number].arbos.Some?
    && (headers[number].arbos.value < ARBOS_20 ==> Covered(store, sidecar))
  }

  ghost function Holding(headers: map<nat, Header>, sidecar: Sidecar): (nat, Store) -> bool {
    (number, store) => Held(headers, sidecar, number, store)
  }

  /** `Held` at the tip and, undoing one recorded block after the other, at every block below it. */
  ghost predicate StateInv(k: Keccak, s: State) {
    && s.hashedState && SidecarSound(k, s.sidecar) && AtTip(s)
    && Along(Holding(s.headers, s.sidecar), Undo(k), s.store, s.persisted, s.tip)
  }

  lemma TipIsHeld(k: Keccak, s: State)
    requires StateInv(k, s)
    ensures Held(s.headers, s.sidecar, s.tip, s.store)
  {
    assert Holding(s.headers, s.sidecar)(s.tip, s.store);
  }

  // ---------------------------------------------------------------- one save

  lemma DeliveredIsCoverable(k: Keccak, s: State, blocks: seq<Block>, prevDbTip: nat, prevStateTrie: nat)
    requires Injective(k) && StateInv(k, s) && Delivered(k, s, blocks, prevDbTip, prevStateTrie)
    requires s.headers[s.tip].arbos.Some? && s.headers[s.tip].arbos.value < ARBOS_20
    ensures var legacy := LegacyFlags(s.headers[s.tip], blocks).value;
            Coverable(k, Extend(k, s.sidecar, LegacySlots(blocks, legacy)),
                LoadTracked(k, s.store, WipeAddresses(blocks, legacy)), s.store, blocks, legacy)
  {
    var legacy := LegacyFlags(s.headers[s.tip], blocks).value;
    var slots := LegacySlots(blocks, legacy);
    UpgradingFlags(s.headers[s.tip], blocks);
    ExtendIsSound(k, s.sidecar, slots);
    SoundIsEmptied(k, s.store, blocks, legacy);
    forall p | p in slots ensures k.slot(p) in Extend(k, s.sidecar, slots) {
      assert k.slot(p) in HashedSlots(k, slots);
    }
  }

  /** A delivered batch is never refused. */
  lemma {:induction false} DeliveredBatchIsPrepared(k: Keccak, s: State, blocks: seq<Block>, prevDbTip: nat,
      prevStateTrie: nat)
    requires Injective(k) && StateInv(k, s) && Delivered(k, s, blocks, prevDbTip, prevStateTrie)
    ensures Prepared(k, s, blocks, prevDbTip, prevStateTrie).Some?
  {
    var legacy := LegacyFlags(s.headers[s.tip], blocks).value;
    var wide := Extend(k, s.sidecar, LegacySlots(blocks, legacy));
    var tracked := LoadTracked(k, s.store, WipeAddresses(blocks, legacy));
    ProxyDecides(k, s, blocks, prevDbTip, prevStateTrie);
    if s.headers[s.tip].arbos.value < ARBOS_20 {
      DeliveredIsCoverable(k, s, blocks, prevDbTip, prevStateTrie);
      CoveredBatchSucceeds(k, wide, tracked, s.store, blocks, legacy);
    } else {
      UpgradingFlags(s.headers[s.tip], blocks);
      NoLegacyLeavesBlocksAlone(k, wide, tracked, blocks, legacy);
    }
  }

  lemma {:induction false} HeadersAt(headers: map<nat, Header>, blocks: seq<Block>, number: nat, parent: Hash, n: nat)
    requires forall i :: 0 <= i < |blocks| ==> LinkAt(blocks, number, parent, i)
    ensures n <= number ==> (n in WithHeaders(headers, blocks) <==> n in headers)
    ensures n <= number && n in headers ==> WithHeaders(headers, blocks)[n] == headers[n]
    ensures number < n <= number + |blocks| ==>
              n in WithHeaders(headers, blocks) && WithHeaders(headers, blocks)[n] == blocks[n - number - 1].header
    decreases |blocks|
  {
    if blocks != [] {
      var front := blocks[..|blocks| - 1];
      forall i | 0 <= i < |front| ensures LinkAt(front, number, parent, i) {
        assert LinkAt(blocks, number, parent, i);
      }
      assert LinkAt(blocks, number, parent, |blocks| - 1);
      HeadersAt(headers, front, number, parent, n);
    }
  }

  /** What a saved batch adds: `enriched` on top of everything recorded, one header per block. */
  ghost predicate Adds(k: Keccak, s: State, t: State, blocks: seq<Block>, enriched: seq<Block>)
    requires s.tip in s.headers
  {
    && Linked(blocks, s.tip, s.headers[s.tip].hash) && |enriched| == |blocks|
    && t.persisted == s.persisted + enriched && t.store == PersistAll(s.store, enriched)
    && t.hashedState && t.tip == s.tip + |blocks| && t.headers == WithHeaders(s.headers, blocks)
    && SidecarSound(k, t.sidecar) && s.sidecar.Keys <= t.sidecar.Keys && AtTip(t)
  }

  lemma SavedAdds(k: Keccak, s: State, blocks: seq<Block>, prevDbTip: nat, prevStateTrie: nat)
    requires Injective(k) && StateInv(k, s) && Delivered(k, s, blocks, prevDbTip, prevStateTrie)
    ensures Saved(k, s, blocks, prevDbTip, prevStateTrie).Some?
    ensures Adds(k, s, Saved(k, s, blocks, prevDbTip, prevStateTrie).value, blocks,
                Prepared(k, s, blocks, prevDbTip, prevStateTrie).value)
  {
    var legacy := LegacyFlags(s.headers[s.tip], blocks).value;
    DeliveredBatchIsPrepared(k, s, blocks, prevDbTip, prevStateTrie);
    ProxyDecides(k, s, blocks, prevDbTip, prevStateTrie);
    ExtendIsSound(k, s.sidecar, LegacySlots(blocks, legacy));
    LinkedByIndex(blocks, s.tip, s.headers[s.tip].hash);
    assert LinkAt(blocks, s.tip, s.headers[s.tip].hash, |blocks| - 1);
    HeadersAt(s.headers, blocks, s.tip, s.headers[s.tip].hash, s.tip + |blocks|);
  }

  /** The storage after the first blocks of a batch. */
  ghost function Stores(store: Store, enriched: seq<Block>): nat -> Store {
    (j: nat) => if j <= |enriched| then PersistAll(store, enriched[..j]) else store
  }

  lemma HeadersKept(s: State, blocks: seq<Block>)
    requires s.tip in s.headers && Linked(blocks, s.tip, s.headers[s.tip].hash)
    ensures forall n :: 0 <= n <= s.tip && n in s.headers ==>
              n in WithHeaders(s.headers, blocks) && WithHeaders(s.headers, blocks)[n] == s.headers[n]
  {
    LinkedByIndex(blocks, s.tip, s.headers[s.tip].hash);
    forall n | 0 <= n <= s.tip && n in s.headers
      ensures n in WithHeaders(s.headers, blocks) && WithHeaders(s.headers, blocks)[n] == s.headers[n]
    {
      HeadersAt(s.headers, blocks, s.tip, s.headers[s.tip].hash, n);
    }
  }

  lemma HeldStill(k: Keccak, s: State, t: State, blocks: seq<Block>, enriched: seq<Block>)
    requires StateInv(k, s) && Adds(k, s, t, blocks, enriched)
    ensures Along(Holding(t.headers, t.sidecar), Undo(k), s.store, s.persisted, s.tip)
  {
    var ok, fine := Holding(s.headers, s.sidecar), Holding(t.headers, t.sidecar);
    HeadersKept(s, blocks);
    forall n: nat, store | n <= s.tip && ok(n, store) ensures fine(n, store) {
      assert Held(s.headers, s.sidecar, n, store);
      assert Held(t.headers, t.sidecar, n, store);
    }
    AlongWeaker(ok, fine, Undo(k), s.store, s.persisted, s.tip);
  }

  lemma HeldNew(s: State, blocks: seq<Block>, j: nat, was: Store, sidecar: Sidecar)
    requires s.tip in s.headers && Linked(blocks, s.tip, s.headers[s.tip].hash) && j < |blocks| && Canonical(was)
    requires blocks[j].header.arbos.Some? && (blocks[j].header.arbos.value < ARBOS_20 ==> Covered(was, sidecar))
    ensures Held(WithHeaders(s.headers, blocks), sidecar, s.tip + j + 1, was)
  {
    LinkedByIndex(blocks, s.tip, s.headers[s.tip].hash);
    HeadersAt(s.headers, blocks, s.tip, s.headers[s.tip].hash, s.tip + j + 1);
  }

  lemma CoveredUpTo(k: Keccak, wide: Sidecar, tracked: Tracked, store: Store, tip: Header, blocks: seq<Block>,
      legacy: seq<bool>, enriched: seq<Block>, j: nat)
    requires Injective(k) && Upgrading(tip, blocks) && LegacyFlags(tip, blocks) == Some(legacy)
    requires tip.arbos.value < ARBOS_20 ==> Coverable(k, wide, tracked, store, blocks, legacy)
    requires EnrichAll(k, wide, tracked, blocks, legacy) == Some(enriched) && j < |blocks| == |enriched|
    ensures blocks[j].header.arbos.Some?
    ensures blocks[j].header.arbos.value < ARBOS_20 ==> Covered(PersistAll(store, enriched[..j + 1]), wide)
  {
    LegacyUpTo(tip, blocks, j + 1);
    if blocks[j].header.arbos.value < ARBOS_20 {
      CoveredWhileLegacy(k, wide, tracked, store, blocks, legacy, j + 1);
    }
  }

  /** The storage a prefix of a delivered batch leaves is covered while its last header is legacy. */
  lemma PrefixCovered(k: Keccak, s: State, blocks: seq<Block>, prevDbTip: nat, prevStateTrie: nat,
      enriched: seq<Block>, j: nat)
    requires Injective(k) && StateInv(k, s) && Delivered(k, s, blocks, prevDbTip, prevStateTrie)
    requires Prepared(k, s, blocks, prevDbTip, prevStateTrie) == Some(enriched) && j < |blocks| == |enriched|
    ensures blocks[j].header.arbos.Some?
    ensures blocks[j].header.arbos.value < ARBOS_20 ==>
              Covered(PersistAll(s.store, enriched[..j + 1]), SidecarAfter(k, s, blocks, prevDbTip, prevStateTrie))
  {
    var legacy := LegacyFlags(s.headers[s.tip], blocks).value;
    ProxyDecides(k, s, blocks, prevDbTip, prevStateTrie);
    if s.headers[s.tip].arbos.value < ARBOS_20 {
      DeliveredIsCoverable(k, s, blocks, prevDbTip, prevStateTrie);
    }
    CoveredUpTo(k, Extend(k, s.sidecar, LegacySlots(blocks, legacy)),
        LoadTracked(k, s.store, WipeAddresses(blocks, legacy)), s.store, s.headers[s.tip], blocks, legacy, enriched, j);
  }

  lemma DeliveredHeld(k: Keccak, s: State, blocks: seq<Block>, prevDbTip: nat, prevStateTrie: nat,
      enriched: seq<Block>, j: nat)
    requires Injective(k) && StateInv(k, s) && Delivered(k, s, blocks, prevDbTip, prevStateTrie)
    requires Prepared(k, s, blocks, prevDbTip, prevStateTrie) == Some(enriched) && j < |blocks| == |enriched|
    ensures Held(WithHeaders(s.headers, blocks), SidecarAfter(k, s, blocks, prevDbTip, prevStateTrie), s.tip + j + 1,
                PersistAll(s.store, enriched[..j + 1]))
  {
    TipIsHeld(k, s);
    PrefixCovered(k, s, blocks, prevDbTip, prevStateTrie, enriched, j);
    HeldNew(s, blocks, j, PersistAll(s.store, enriched[..j + 1]), SidecarAfter(k, s, blocks, prevDbTip, prevStateTrie));
  }

  lemma DeliveredUndone(k: Keccak, s: State, blocks: seq<Block>, prevDbTip: nat, prevStateTrie: nat,
      enriched: seq<Block>, j: nat)
    requires Injective(k) && StateInv(k, s) && Delivered(k, s, blocks, prevDbTip, prevStateTrie)
    requires Prepared(k, s, blocks, prevDbTip, prevStateTrie) == Some(enriched) && j < |blocks| == |enriched|
    ensures Undo(k)(PersistAll(s.store, enriched[..j + 1]), enriched[j]) == PersistAll(s.store, enriched[..j])
  {
    var legacy := LegacyFlags(s.headers[s.tip], blocks).value;
    TipIsHeld(k, s);
    ProxyDecides(k, s, blocks, prevDbTip, prevStateTrie);
    EachBlockUnwinds(k, Extend(k, s.sidecar, LegacySlots(blocks, legacy)),
        LoadTracked(k, s.store, WipeAddresses(blocks, legacy)), s.store, blocks, legacy, j);
  }

  lemma LeadsAt(k: Keccak, headers: map<nat, Header>, sidecar: Sidecar, store: Store, enriched: seq<Block>, tip: nat,
      j: nat)
    requires j < |enriched| && Held(headers, sidecar, tip + j + 1, PersistAll(store, enriched[..j + 1]))
    requires Undo(k)(PersistAll(store, enriched[..j + 1]), enriched[j]) == PersistAll(store, enriched[..j])
    ensures Leads(Holding(headers, sidecar), Undo(k), Stores(store, enriched), enriched, tip, j)
  {
    assert Stores(store, enriched)(j + 1) == PersistAll(store, enriched[..j + 1]);
    assert Stores(store, enriched)(j) == PersistAll(store, enriched[..j]);
    assert Holding(headers, sidecar)(tip + j + 1, PersistAll(store, enriched[..j + 1]));
  }

  /** Every block of a delivered batch leaves a held state, and its changeset leads back. */
  lemma DeliveredLeads(k: Keccak, s: State, t: State, blocks: seq<Block>, prevDbTip: nat, prevStateTrie: nat,
      enriched: seq<Block>)
    requires Injective(k) && StateInv(k, s) && Delivered(k, s, blocks, prevDbTip, prevStateTrie)
    requires Prepared(k, s, blocks, prevDbTip, prevStateTrie) == Some(enriched)
    requires Saved(k, s, blocks, prevDbTip, prevStateTrie) == Some(t) && Adds(k, s, t, blocks, enriched)
    ensures forall i: nat :: i < |enriched| ==>
              Leads(Holding(t.headers, t.sidecar), Undo(k), Stores(s.store, enriched), enriched, s.tip, i)
  {
    forall i: nat | i < |enriched|
      ensures Leads(Holding(t.headers, t.sidecar), Undo(k), Stores(s.store, enriched), enriched, s.tip, i)
    {
      DeliveredHeld(k, s, blocks, prevDbTip, prevStateTrie, enriched, i);
      DeliveredUndone(k, s, blocks, prevDbTip, prevStateTrie, enriched, i);
      LeadsAt(k, t.headers, t.sidecar, s.store, enriched, s.tip, i);
    }
  }

  lemma StoresEnds(store: Store, enriched: seq<Block>)
    ensures Stores(store, enriched)(0) == store && Stores(store, enriched)(|enriched|) == PersistAll(store, enriched)
  {
    assert enriched[..0] == [] && enriched[..|enriched|] == enriched;
  }

  lemma AddedHeld(k: Keccak, s: State, t: State, blocks: seq<Block>, enriched: seq<Block>)
    requires StateInv(k, s) && Adds(k, s, t, blocks, enriched)
    requires forall i: nat :: i < |enriched| ==>
               Leads(Holding(t.headers, t.sidecar), Undo(k), Stores(s.store, enriched), enriched, s.tip, i)
    ensures StateInv(k, t)
  {
    var ok, at := Holding(t.headers, t.sidecar), Stores(s.store, enriched);
    HeldStill(k, s, t, blocks, enriched);
    StoresEnds(s.store, enriched);
    AlongAdded(ok, Undo(k), at, s.persisted, enriched, s.tip, |enriched|);
    assert enriched[..|enriched|] == enriched;
  }

  /** A delivered batch is always saved, and saving it keeps the invariant. */
  lemma {:induction false} DeliveredBatchIsSaved(k: Keccak, s: State, blocks: seq<Block>, prevDbTip: nat,
      prevStateTrie: nat)
    requires Injective(k) && StateInv(k, s) && Delivered(k, s, blocks, prevDbTip, prevStateTrie)
    ensures Saved(k, s, blocks, prevDbTip, prevStateTrie).Some?
    ensures StateInv(k, Saved(k, s, blocks, prevDbTip, prevStateTrie).value)
    ensures Saved(k, s, blocks, prevDbTip, prevStateTrie).value.tip == s.tip + |blocks|
  {
    SavedAdds(k, s, blocks, prevDbTip, prevStateTrie);
    var t := Saved(k, s, blocks, prevDbTip, prevStateTrie).value;
    var enriched := Prepared(k, s, blocks, prevDbTip, prevStateTrie).value;
    DeliveredLeads(k, s, t, blocks, prevDbTip, prevStateTrie, enriched);
    AddedHeld(k, s, t, blocks, enriched);
  }

  // ---------------------------------------------------------------- one removal

  lemma {:induction false} RemovalKeepsInvariant(k: Keccak, s: State, number: nat)
    requires StateInv(k, s) && Recorded(s, number)
    ensures StateInv(k, Removed(k, s, number))
  {
    var t := Removed(k, s, number);
    var ok, fine := Holding(s.headers, s.sidecar), Holding(t.headers, t.sidecar);
    AlongBack(ok, Undo(k), s.store, s.persisted, s.tip, Kept(s, number));
    forall n: nat, store | n <= number && ok(n, store) ensures fine(n, store) {
      assert Held(s.headers, s.sidecar, n, store);
      assert Held(t.headers, t.sidecar, n, store);
    }
    AlongWeaker(ok, fine, Undo(k), t.store, t.persisted, number);
  }

  lemma {:induction false} UnwindIsAll(k: Keccak, store: Store, blocks: seq<Block>)
    ensures UnwindAll(k, store, blocks) == All(Undo(k), store, blocks)
    decreases |blocks|
  {
    if blocks != [] {
      UnwindIsAll(k, store, blocks[1..]);
    }
  }

  /** What a removal leaves is the storage unwound over exactly the removed blocks. */
  lemma {:induction false} RemovalUnwinds(k: Keccak, s: State, number: nat)
    requires Recorded(s, number)
    ensures Removed(k, s, number).store == UnwindAll(k, s.store, s.persisted[Kept(s, number)..])
  {
    BackIsAll(Undo(k), s.store, s.persisted, Kept(s, number));
    UnwindIsAll(k, s.store, s.persisted[Kept(s, number)..]);
  }

  // ---------------------------------------------------------------- whole runs

  datatype Request =
    | SaveBlocks(blocks: seq<Block>, prevDbTip: nat, prevStateTrie: nat)
    | RemoveBlocksAbove(number: nat)

  /** One request; `None` when the proxy stops instead of answering it. */
  ghost function Serve(k: Keccak, s: State, r: Request): Option<State>
    requires Injective(k)
  {
    match r
    case SaveBlocks(blocks, prevDbTip, prevStateTrie) => Saved(k, s, blocks, prevDbTip, prevStateTrie)
    case RemoveBlocksAbove(number) => if Recorded(s, number) then Some(Removed(k, s, number)) else None
  }

  ghost function ServeAll(k: Keccak, s: State, requests: seq<Request>): Option<State>
    requires Injective(k)
    decreases |requests|
  {
    if requests == [] then Some(s)
    else
      var next := Serve(k, s, requests[0]);
      if next.None? then None else ServeAll(k, next.value, requests[1..])
  }

  /** A delivered batch, or a removal down to a recorded block no lower than `floor`. */
  ghost predicate Proper(k: Keccak, s: State, floor: nat, r: Request)
    requires s.tip in s.headers
  {
    match r
    case SaveBlocks(blocks, prevDbTip, prevStateTrie) => Delivered(k, s, blocks, prevDbTip, prevStateTrie)
    case RemoveBlocksAbove(number) => floor <= number && Recorded(s, number)
  }

  ghost predicate ProperRun(k: Keccak, s: State, floor: nat, requests: seq<Request>)
    requires Injective(k)
    decreases |requests|
  {
    requests != [] ==>
      && s.tip in s.headers && Proper(k, s, floor, requests[0])
      && (Serve(k, s, requests[0]).Some? ==> ProperRun(k, Serve(k, s, requests[0]).value, floor, requests[1..]))
  }

  /** `s` grew out of `root`: its older blocks are the root's, and undoing the newer ones gives the
      root's storage. */
  ghost predicate GrewFrom(k: Keccak, root: State, s: State) {
    && |root.persisted| <= |s.persisted| && s.persisted[..|root.persisted|] == root.persisted
    && s.tip - root.tip == |s.persisted| - |root.persisted|
    && Back(Undo(k), s.store, s.persisted, |root.persisted|) == root.store
  }

  lemma AddedGrows(k: Keccak, root: State, s: State, t: State, blocks: seq<Block>, enriched: seq<Block>)
    requires s.tip in s.headers && GrewFrom(k, root, s) && Adds(k, s, t, blocks, enriched)
    requires forall i: nat :: i < |enriched| ==>
               Leads(Holding(t.headers, t.sidecar), Undo(k), Stores(s.store, enriched), enriched, s.tip, i)
    ensures GrewFrom(k, root, t)
  {
    var m := |root.persisted|;
    StoresEnds(s.store, enriched);
    BackAdded(Holding(t.headers, t.sidecar), Undo(k), Stores(s.store, enriched), s.persisted, enriched, s.tip,
        |enriched|, m);
    assert enriched[..|enriched|] == enriched && t.persisted[..m] == s.persisted[..m];
  }

  lemma SaveGrows(k: Keccak, root: State, s: State, blocks: seq<Block>, prevDbTip: nat, prevStateTrie: nat)
    requires Injective(k) && StateInv(k, s) && Delivered(k, s, blocks, prevDbTip, prevStateTrie) && GrewFrom(k, root, s)
    ensures Saved(k, s, blocks, prevDbTip, prevStateTrie).Some?
    ensures GrewFrom(k, root, Saved(k, s, blocks, prevDbTip, prevStateTrie).value)
  {
    SavedAdds(k, s, blocks, prevDbTip, prevStateTrie);
    var t := Saved(k, s, blocks, prevDbTip, prevStateTrie).value;
    var enriched := Prepared(k, s, blocks, prevDbTip, prevStateTrie).value;
    DeliveredLeads(k, s, t, blocks, prevDbTip, prevStateTrie, enriched);
    AddedGrows(k, root, s, t, blocks, enriched);
  }

  lemma RemovalGrows(k: Keccak, root: State, s: State, number: nat)
    requires GrewFrom(k, root, s) && Recorded(s, number) && root.tip <= number
    ensures GrewFrom(k, root, Removed(k, s, number))
  {
    var kept, m := Kept(s, number), |root.persisted|;
    assert s.persisted[..kept][..m] == s.persisted[..m];
    BackTwice(Undo(k), s.store, s.persisted, kept, m);
  }

  lemma {:induction false} ServeStep(k: Keccak, root: State, s: State, r: Request)
    requires Injective(k) && StateInv(k, s) && GrewFrom(k, root, s) && Proper(k, s, root.tip, r)
    ensures Serve(k, s, r).Some?
    ensures StateInv(k, Serve(k, s, r).value) && GrewFrom(k, root, Serve(k, s, r).value)
  {
    match r
    case SaveBlocks(blocks, prevDbTip, prevStateTrie) =>
      DeliveredBatchIsSaved(k, s, blocks, prevDbTip, prevStateTrie);
      SaveGrows(k, root, s, blocks, prevDbTip, prevStateTrie);
    case RemoveBlocksAbove(number) =>
      RemovalKeepsInvariant(k, s, number);
      RemovalGrows(k, root, s, number);
  }

  /** Over any mix of saves and removals no request is refused, the sidecar goes on covering whatever
      storage a removal can leave on a legacy block, and from wherever the run ends the changesets lead
      back to the storage it started from. */
  lemma {:induction false} RunKeepsInvariant(k: Keccak, root: State, s: State, requests: seq<Request>)
    requires Injective(k) && StateInv(k, s) && GrewFrom(k, root, s) && ProperRun(k, s, root.tip, requests)
    ensures ServeAll(k, s, requests).Some?
    ensures StateInv(k, ServeAll(k, s, requests).value) && GrewFrom(k, root, ServeAll(k, s, requests).value)
    decreases |requests|
  {
    if requests != [] {
      ServeStep(k, root, s, requests[0]);
      RunKeepsInvariant(k, root, Serve(k, s, requests[0]).value, requests[1..]);
    }
  }

  lemma RootIsHeld(k: Keccak, root: State, t: State)
    requires StateInv(k, t) && GrewFrom(k, root, t)
    ensures root.tip in t.headers
  {
    var ok, was := Holding(t.headers, t.sidecar), Back(Undo(k), t.store, t.persisted, |root.persisted|);
    AlongBack(ok, Undo(k), t.store, t.persisted, t.tip, |root.persisted|);
    assert ok(root.tip, was);
  }

  lemma RemovalToRoot(k: Keccak, root: State, t: State)
    requires GrewFrom(k, root, t) && root.tip in t.headers
    ensures Recorded(t, root.tip)
    ensures var back := Removed(k, t, root.tip);
            back.store == root.store && back.persisted == root.persisted && back.tip == root.tip
  {
  }

  /** Removing everything a run added restores the storage, the tip and the record it started from. */
  lemma {:induction false} RunThenRemoval(k: Keccak, s: State, requests: seq<Request>)
    requires Injective(k) && StateInv(k, s) && ProperRun(k, s, s.tip, requests)
    ensures var t := ServeAll(k, s, requests);
            && t.Some? && Recorded(t.value, s.tip)
            && var back := Removed(k, t.value, s.tip);
               back.store == s.store && back.persisted == s.persisted && back.tip == s.tip
  {
    assert s.persisted[..|s.persisted|] == s.persisted;
    RunKeepsInvariant(k, s, s, requests);
    var t := ServeAll(k, s, requests).value;
    RootIsHeld(k, s, t);
    RemovalToRoot(k, s, t);
  }
}
