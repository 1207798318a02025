/** When plain keys can be recovered: batch against one-at-a-time preparation, and coverage over runs. */
module StorageV2Coverage {
  import opened Prelude
  import opened StorageV2
  import opened StorageV2Unwind

  // ---------------------------------------------------------------- preparing a batch

  /** The batch as prepared in one go: insert every legacy preimage, load every wiped account, enrich. */
  ghost function PrepareTogether(k: Keccak, store: Store, sidecar: Sidecar, blocks: seq<Block>,
      legacy: seq<bool>): Option<seq<Block>>
    requires Injective(k) && |legacy| == |blocks|
  {
    EnrichAll(k, Extend(k, sidecar, LegacySlots(blocks, legacy)),
              LoadTracked(k, store, WipeAddresses(blocks, legacy)), blocks, legacy)
  }

  /** The same blocks, each prepared and persisted before the next one. */
  ghost function PrepareOneByOne(k: Keccak, store: Store, sidecar: Sidecar, blocks: seq<Block>,
      legacy: seq<bool>): (r: Option<seq<Block>>)
    requires Injective(k) && |legacy| == |blocks|
    ensures r.Some? ==> |r.value| == |blocks|
    decreases |blocks|
  {
    if blocks == [] then Some([])
    else
      var first := PrepareTogether(k, store, sidecar, blocks[..1], legacy[..1]);
      if first.None? then None
      else
        var sidecar' := Extend(k, sidecar, LegacySlots(blocks[..1], legacy[..1]));
        var rest := PrepareOneByOne(k, Persist(store, first.value[0].hashed), sidecar', blocks[1..], legacy[1..]);
        if rest.None? then None else Some(first.value + rest.value)
  }

  /** No wiped slot needs a preimage that only a later block of the batch supplies. */
  ghost predicate KnownByThen(k: Keccak, store: Store, sidecar: Sidecar, blocks: seq<Block>, enriched: seq<Block>,
      legacy: seq<bool>)
    requires Injective(k) && |legacy| == |blocks| == |enriched|
    decreases |blocks|
  {
    blocks != [] ==>
      var sidecar' := Extend(k, sidecar, LegacySlots(blocks[..1], legacy[..1]));
      && (legacy[0] ==> WipesKnown(k, sidecar', store, blocks[0].reverts))
      && KnownByThen(k, Persist(store, enriched[0].hashed), sidecar', blocks[1..], enriched[1..], legacy[1..])
  }

  lemma SingleBlock(b: Block, legacy: bool)
    ensures LegacySlots([b], [legacy]) == if legacy then PlainSlots(b) else {}
    ensures WipeAddresses([b], [legacy]) == if legacy then WipedAddresses(b.reverts) else {}
  {
    assert [b][1..] == [] && [legacy][1..] == [];
    assert LegacySlots([b][1..], [legacy][1..]) == {};
    assert WipeAddresses([b][1..], [legacy][1..]) == {};
  }

  lemma PreparedSingle(k: Keccak, store: Store, sidecar: Sidecar, b: Block, legacy: bool)
    requires Injective(k)
    ensures LegacySlots([b], [legacy]) == if legacy then PlainSlots(b) else {}
    ensures WipeAddresses([b], [legacy]) == if legacy then WipedAddresses(b.reverts) else {}
    ensures var sidecar' := Extend(k, sidecar, LegacySlots([b], [legacy]));
            var tracked := LoadTracked(k, store, WipeAddresses([b], [legacy]));
            PrepareTogether(k, store, sidecar, [b], [legacy]) ==
            if legacy && !Injectable(k, sidecar', tracked, b.reverts) then None
            else Some([EnrichBlock(k, sidecar', tracked, b, legacy)])
  {
    SingleBlock(b, legacy);
    assert [b][1..] == [] && [legacy][1..] == [];
    var sidecar' := Extend(k, sidecar, LegacySlots([b], [legacy]));
    var tracked := LoadTracked(k, store, WipeAddresses([b], [legacy]));
    if !legacy || Injectable(k, sidecar', tracked, b.reverts) {
      var e := EnrichBlock(k, sidecar', tracked, b, legacy);
      assert EnrichAll(k, sidecar', ApplyHashed(tracked, e.hashed), [b][1..], [legacy][1..]) == Some([]);
      assert [e] + [] == [e];
    }
  }

  /** Enrichment depends on the tracked slots of the wiped accounts only, not on how plain keys were found. */
  lemma EnrichmentAgrees(k: Keccak, s1: Sidecar, t1: Tracked, s2: Sidecar, t2: Tracked, store: Store, b: Block)
    requires Injective(k) && Matches(t1, store) && Matches(t2, store)
    requires Injectable(k, s1, t1, b.reverts) && Injectable(k, s2, t2, b.reverts)
    ensures Inject(k, s1, t1, b.reverts) == Inject(k, s2, t2, b.reverts)
  {
    forall a | a in b.reverts && b.reverts[a].wipeStorage
      ensures EnrichStorage(k, s1, t1[k.address(a)].slots, b.reverts[a].storage) ==
              EnrichStorage(k, s2, t2[k.address(a)].slots, b.reverts[a].storage)
    {
      var slots := AccountSlots(store, k.address(a));
      assert t1[k.address(a)].slots == slots && t2[k.address(a)].slots == slots;
      var i1, i2 := set h | h in slots :: s1[h], set h | h in slots :: s2[h];
      forall h | h in slots ensures s1[h] == s2[h] {
        assert k.slot(s1[h]) == k.slot(s2[h]);
      }
      assert i1 == i2;
    }
  }

  lemma ExtendIsSound(k: Keccak, sidecar: Sidecar, slots: set<Slot>)
    requires SidecarSound(k, sidecar)
    ensures SidecarSound(k, Extend(k, sidecar, slots))
    ensures Extend(k, sidecar, slots).Keys == sidecar.Keys + HashedSlots(k, slots)
  {
  }

  lemma ExtendByEntries(k: Keccak, sidecar: Sidecar, entries: Sidecar, slots: set<Slot>)
    requires Injective(k) && PreimagesOf(k, entries, slots)
    ensures Extend(k, sidecar, slots) == entries + sidecar
  {
    assert entries.Keys == HashedSlots(k, slots);
    forall h | h in entries ensures entries[h] == PlainOf(k, slots, h) {
      assert k.slot(entries[h]) == k.slot(PlainOf(k, slots, h));
    }
  }

  lemma HashedSlotsMonotone(k: Keccak, s: set<Slot>, t: set<Slot>)
    requires s <= t
    ensures HashedSlots(k, s) <= HashedSlots(k, t)
  {
  }

  lemma HashedAddressesMonotone(k: Keccak, s: set<Address>, t: set<Address>)
    requires s <= t
    ensures HashedAddresses(k, s) <= HashedAddresses(k, t)
  {
  }

  /** Every wiped account's live slots have known plain keys. */
  ghost predicate WipesKnown(k: Keccak, sidecar: Sidecar, store: Store, t: Transition) {
    forall a <- WipedAddresses(t) :: PreimagesKnown(k, sidecar, AccountSlots(store, k.address(a)))
  }

  lemma InjectableIff(k: Keccak, sidecar: Sidecar, tracked: Tracked, store: Store, t: Transition)
    requires Matches(tracked, store) && HashedAddresses(k, WipedAddresses(t)) <= tracked.Keys
    ensures Injectable(k, sidecar, tracked, t) <==> WipesKnown(k, sidecar, store, t)
  {
    forall a | a in WipedAddresses(t)
      ensures k.address(a) in tracked && tracked[k.address(a)].slots == AccountSlots(store, k.address(a))
    {
      assert k.address(a) in HashedAddresses(k, WipedAddresses(t));
    }
    if WipesKnown(k, sidecar, store, t) {
      forall a | a in t && t[a].wipeStorage
        ensures k.address(a) in tracked && PreimagesKnown(k, sidecar, tracked[k.address(a)].slots)
      {
        assert a in WipedAddresses(t);
      }
    }
  }

  lemma WiderSidecarKnows(k: Keccak, near: Sidecar, wide: Sidecar, store: Store, t: Transition)
    requires SidecarSound(k, wide) && near.Keys <= wide.Keys && WipesKnown(k, near, store, t)
    ensures WipesKnown(k, wide, store, t)
  {
  }

  /** On one block: a narrow sidecar with the block's own accounts against a wide one with more. */
  lemma FirstBlockAgrees(k: Keccak, store: Store, near: Sidecar, own: Tracked, wide: Sidecar, tracked: Tracked,
      b: Block)
    requires Injective(k) && SidecarSound(k, wide) && near.Keys <= wide.Keys
    requires Matches(own, store) && HashedAddresses(k, WipedAddresses(b.reverts)) <= own.Keys
    requires Matches(tracked, store) && HashedAddresses(k, WipedAddresses(b.reverts)) <= tracked.Keys
    ensures Injectable(k, near, own, b.reverts) <==> WipesKnown(k, near, store, b.reverts)
    ensures Injectable(k, near, own, b.reverts) ==>
              && Injectable(k, wide, tracked, b.reverts)
              && EnrichBlock(k, near, own, b, true) == EnrichBlock(k, wide, tracked, b, true)
  {
    InjectableIff(k, near, own, store, b.reverts);
    InjectableIff(k, wide, tracked, store, b.reverts);
    if Injectable(k, near, own, b.reverts) {
      WiderSidecarKnows(k, near, wide, store, b.reverts);
      EnrichmentAgrees(k, near, own, wide, tracked, store, b);
    }
  }

  lemma EnrichAllUnfolds(k: Keccak, sidecar: Sidecar, tracked: Tracked, blocks: seq<Block>, legacy: seq<bool>)
    requires |legacy| == |blocks| > 0
    requires legacy[0] ==> Injectable(k, sidecar, tracked, blocks[0].reverts)
    ensures var e := EnrichBlock(k, sidecar, tracked, blocks[0], legacy[0]);
            var all := EnrichAll(k, sidecar, tracked, blocks, legacy);
            var rest := EnrichAll(k, sidecar, ApplyHashed(tracked, e.hashed), blocks[1..], legacy[1..]);
            && (all.Some? <==> rest.Some?)
            && (all.Some? ==> all.value == [e] + rest.value && all.value[0] == e && all.value[1..] == rest.value)
  {
  }

  /** Where the batch loop and the one-at-a-time preparation stand at the same block. */
  ghost predicate InStep(k: Keccak, store: Store, sidecar: Sidecar, wide: Sidecar, tracked: Tracked,
      blocks: seq<Block>, legacy: seq<bool>)
  {
    && Injective(k) && Canonical(store) && |legacy| == |blocks|
    && SidecarSound(k, sidecar) && SidecarSound(k, wide)
    && sidecar.Keys <= wide.Keys && HashedSlots(k, LegacySlots(blocks, legacy)) <= wide.Keys
    && Matches(tracked, store) && HashedAddresses(k, WipeAddresses(blocks, legacy)) <= tracked.Keys
    && AllEmptied(k, store, blocks, legacy)
  }

  ghost function After(k: Keccak, sidecar: Sidecar, b: Block, legacy: bool): Sidecar
    requires Injective(k)
  {
    Extend(k, sidecar, LegacySlots([b], [legacy]))
  }

  lemma FirstPreimages(k: Keccak, sidecar: Sidecar, blocks: seq<Block>, legacy: seq<bool>)
    requires Injective(k) && SidecarSound(k, sidecar) && |legacy| == |blocks| > 0
    ensures SidecarSound(k, After(k, sidecar, blocks[0], legacy[0]))
    ensures After(k, sidecar, blocks[0], legacy[0]).Keys <= sidecar.Keys + HashedSlots(k, LegacySlots(blocks, legacy))
    ensures HashedSlots(k, LegacySlots(blocks[1..], legacy[1..])) <= HashedSlots(k, LegacySlots(blocks, legacy))
  {
    var own := LegacySlots([blocks[0]], [legacy[0]]);
    SingleBlock(blocks[0], legacy[0]);
    assert LegacySlots(blocks, legacy) == own + LegacySlots(blocks[1..], legacy[1..]);
    ExtendIsSound(k, sidecar, own);
    HashedSlotsMonotone(k, own, LegacySlots(blocks, legacy));
    HashedSlotsMonotone(k, LegacySlots(blocks[1..], legacy[1..]), LegacySlots(blocks, legacy));
  }

  lemma StaysInStep(k: Keccak, store: Store, sidecar: Sidecar, wide: Sidecar, tracked: Tracked, blocks: seq<Block>,
      legacy: seq<bool>)
    requires blocks != [] && InStep(k, store, sidecar, wide, tracked, blocks, legacy)
    requires legacy[0] ==> Injectable(k, wide, tracked, blocks[0].reverts)
    ensures var e := EnrichBlock(k, wide, tracked, blocks[0], legacy[0]);
            InStep(k, Persist(store, e.hashed), After(k, sidecar, blocks[0], legacy[0]), wide,
                ApplyHashed(tracked, e.hashed), blocks[1..], legacy[1..])
  {
    var e := EnrichBlock(k, wide, tracked, blocks[0], legacy[0]);
    FirstPreimages(k, sidecar, blocks, legacy);
    HashedAddressesMonotone(k, WipeAddresses(blocks[1..], legacy[1..]), WipeAddresses(blocks, legacy));
    EnrichedHashed(k, wide, tracked, blocks[0], legacy[0]);
    SimulationStep(tracked, store, e.hashed);
    assert ApplyHashed(tracked, e.hashed).Keys == tracked.Keys;
  }

  /** The first block of either preparation. */
  lemma FirstStep(k: Keccak, store: Store, sidecar: Sidecar, wide: Sidecar, tracked: Tracked, blocks: seq<Block>,
      legacy: seq<bool>)
    requires blocks != [] && InStep(k, store, sidecar, wide, tracked, blocks, legacy)
    ensures var near := After(k, sidecar, blocks[0], legacy[0]);
            var known := legacy[0] ==> WipesKnown(k, near, store, blocks[0].reverts);
            var first := PrepareTogether(k, store, sidecar, blocks[..1], legacy[..1]);
            && (first.Some? <==> known)
            && (known ==>
                  && (legacy[0] ==> Injectable(k, wide, tracked, blocks[0].reverts))
                  && first.value == [EnrichBlock(k, wide, tracked, blocks[0], legacy[0])])
  {
    var b, l := blocks[0], legacy[0];
    assert blocks[..1] == [b] && legacy[..1] == [l];
    PreparedSingle(k, store, sidecar, b, l);
    FirstPreimages(k, sidecar, blocks, legacy);
    if l {
      HashedAddressesMonotone(k, WipedAddresses(b.reverts), WipeAddresses(blocks, legacy));
      FirstBlockAgrees(k, store, After(k, sidecar, b, l), LoadTracked(k, store, WipeAddresses([b], [l])), wide,
          tracked, b);
    }
  }

  /** What is shown of a batch: the two preparations agree, and when the slower one succeeds. */
  ghost predicate Agree(k: Keccak, store: Store, sidecar: Sidecar, wide: Sidecar, tracked: Tracked, blocks: seq<Block>,
      legacy: seq<bool>)
    requires Injective(k) && |legacy| == |blocks|
  {
    var alone := PrepareOneByOne(k, store, sidecar, blocks, legacy);
    var batch := EnrichAll(k, wide, tracked, blocks, legacy);
    && (alone.Some? ==> batch == alone)
    && (alone.Some? <==> batch.Some? && KnownByThen(k, store, sidecar, blocks, batch.value, legacy))
  }

  lemma OneByOneUnfolds(k: Keccak, store: Store, sidecar: Sidecar, blocks: seq<Block>, legacy: seq<bool>, e: Block)
    requires Injective(k) && |legacy| == |blocks| > 0
    requires PrepareTogether(k, store, sidecar, blocks[..1], legacy[..1]) == Some([e])
    ensures var all := PrepareOneByOne(k, store, sidecar, blocks, legacy);
            var rest := PrepareOneByOne(k, Persist(store, e.hashed), After(k, sidecar, blocks[0], legacy[0]),
                blocks[1..], legacy[1..]);
            && (all.Some? <==> rest.Some?)
            && (all.Some? ==> all.value == [e] + rest.value)
  {
    assert blocks[..1] == [blocks[0]] && legacy[..1] == [legacy[0]];
  }

  lemma KnownByThenUnfolds(k: Keccak, store: Store, sidecar: Sidecar, blocks: seq<Block>, e: Block, rest: seq<Block>,
      legacy: seq<bool>)
    requires Injective(k) && |legacy| == |blocks| == |rest| + 1
    ensures KnownByThen(k, store, sidecar, blocks, [e] + rest, legacy) <==>
              && (legacy[0] ==> WipesKnown(k, After(k, sidecar, blocks[0], legacy[0]), store, blocks[0].reverts))
              && KnownByThen(k, Persist(store, e.hashed), After(k, sidecar, blocks[0], legacy[0]), blocks[1..], rest,
                  legacy[1..])
  {
    assert blocks[..1] == [blocks[0]] && legacy[..1] == [legacy[0]];
    assert ([e] + rest)[1..] == rest;
  }

  lemma AgreeFromRest(k: Keccak, store: Store, sidecar: Sidecar, wide: Sidecar, tracked: Tracked, blocks: seq<Block>,
      legacy: seq<bool>, e: Block)
    requires Injective(k) && |legacy| == |blocks| > 0
    requires legacy[0] ==> Injectable(k, wide, tracked, blocks[0].reverts)
    requires e == EnrichBlock(k, wide, tracked, blocks[0], legacy[0])
    requires legacy[0] ==> WipesKnown(k, After(k, sidecar, blocks[0], legacy[0]), store, blocks[0].reverts)
    requires PrepareTogether(k, store, sidecar, blocks[..1], legacy[..1]) == Some([e])
    requires Agree(k, Persist(store, e.hashed), After(k, sidecar, blocks[0], legacy[0]), wide,
        ApplyHashed(tracked, e.hashed), blocks[1..], legacy[1..])
    ensures Agree(k, store, sidecar, wide, tracked, blocks, legacy)
  {
    EnrichAllUnfolds(k, wide, tracked, blocks, legacy);
    OneByOneUnfolds(k, store, sidecar, blocks, legacy, e);
    var rest := EnrichAll(k, wide, ApplyHashed(tracked, e.hashed), blocks[1..], legacy[1..]);
    if rest.Some? {
      KnownByThenUnfolds(k, store, sidecar, blocks, e, rest.value, legacy);
    }
  }

  /** A batch and its one-at-a-time preparation inject the same reverts whenever the latter succeeds,
      and the latter succeeds exactly when the batch does without looking ahead for a plain key. */
  lemma {:induction false} OneByOneAgainstSimulation(
      k: Keccak, store: Store, sidecar: Sidecar, wide: Sidecar, tracked: Tracked, blocks: seq<Block>, legacy: seq<bool>)
    requires InStep(k, store, sidecar, wide, tracked, blocks, legacy)
    ensures Agree(k, store, sidecar, wide, tracked, blocks, legacy)
    decreases |blocks|
  {
    if blocks != [] {
      var b, l := blocks[0], legacy[0];
      assert blocks[..1] == [b] && legacy[..1] == [l];
      FirstStep(k, store, sidecar, wide, tracked, blocks, legacy);
      if l ==> WipesKnown(k, After(k, sidecar, b, l), store, b.reverts) {
        var e := EnrichBlock(k, wide, tracked, b, l);
        StaysInStep(k, store, sidecar, wide, tracked, blocks, legacy);
        OneByOneAgainstSimulation(k, Persist(store, e.hashed), After(k, sidecar, b, l), wide, ApplyHashed(tracked,
            e.hashed), blocks[1..], legacy[1..]);
        AgreeFromRest(k, store, sidecar, wide, tracked, blocks, legacy, e);
      }
    }
  }

  lemma {:induction false} BatchMatchesOneByOne(k: Keccak, store: Store, sidecar: Sidecar, blocks: seq<Block>,
      legacy: seq<bool>)
    requires Injective(k) && Canonical(store) && |legacy| == |blocks|
    requires SidecarSound(k, sidecar) && AllEmptied(k, store, blocks, legacy)
    ensures var alone := PrepareOneByOne(k, store, sidecar, blocks, legacy);
            var batch := PrepareTogether(k, store, sidecar, blocks, legacy);
            && (alone.Some? ==> batch == alone)
            && (alone.Some? <==> batch.Some? && KnownByThen(k, store, sidecar, blocks, batch.value, legacy))
  {
    ExtendIsSound(k, sidecar, LegacySlots(blocks, legacy));
    OneByOneAgainstSimulation(k, store, sidecar, Extend(k, sidecar, LegacySlots(blocks, legacy)),
                              LoadTracked(k, store, WipeAddresses(blocks, legacy)), blocks, legacy);
  }

  // ---------------------------------------------------------------- coverage

  ghost predicate Covered(store: Store, sidecar: Sidecar) {
    forall c <- store :: c.slot in sidecar
  }

  /** Every hashed slot a block writes is the hash of a plain slot it names. */
  ghost predicate Traceable(k: Keccak, b: Block) {
    forall a, h :: a in b.hashed.storages && h in b.hashed.storages[a].slots ==>
      exists s :: s in PlainSlots(b) && k.slot(s) == h
  }

  /** Legacy blocks come first, as they do when the ArbOS version never decreases. */
  ghost predicate LegacyFirst(legacy: seq<bool>) {
    forall i, j :: 0 <= i < j < |legacy| && legacy[j] ==> legacy[i]
  }

  lemma EnrichedWrites(k: Keccak, sidecar: Sidecar, tracked: Tracked, b: Block, legacy: bool)
    requires legacy ==> Injectable(k, sidecar, tracked, b.reverts)
    ensures UpdatedCells(EnrichBlock(k, sidecar, tracked, b, legacy).hashed) == UpdatedCells(b.hashed)
  {
  }

  lemma CoverageStep(k: Keccak, sidecar: Sidecar, tracked: Tracked, store: Store, b: Block)
    requires Canonical(store) && Covered(store, sidecar) && Traceable(k, b)
    requires forall s <- PlainSlots(b) :: k.slot(s) in sidecar
    requires Injectable(k, sidecar, tracked, b.reverts)
    ensures Covered(Persist(store, EnrichBlock(k, sidecar, tracked, b, true).hashed), sidecar)
  {
    var e := EnrichBlock(k, sidecar, tracked, b, true);
    var post := Persist(store, e.hashed);
    EnrichedWrites(k, sidecar, tracked, b, true);
    forall c | c in post ensures c.slot in sidecar {
      if c !in store {
        assert Get(post, c) == Updated(e.hashed, c, 0);
        assert c in UpdatedCells(b.hashed);
      }
    }
  }

  lemma CoveredIsInjectable(k: Keccak, sidecar: Sidecar, tracked: Tracked, store: Store, t: Transition)
    requires SidecarSound(k, sidecar) && Covered(store, sidecar) && Matches(tracked, store)
    requires HashedAddresses(k, WipedAddresses(t)) <= tracked.Keys
    ensures Injectable(k, sidecar, tracked, t)
  {
    forall a | a in t && t[a].wipeStorage
      ensures k.address(a) in tracked && PreimagesKnown(k, sidecar, tracked[k.address(a)].slots)
    {
      assert k.address(a) in HashedAddresses(k, WipedAddresses(t));
      assert tracked[k.address(a)].slots == AccountSlots(store, k.address(a));
    }
  }

  lemma {:induction false} NoLegacyLeavesBlocksAlone(k: Keccak, sidecar: Sidecar, tracked: Tracked, blocks: seq<Block>,
      legacy: seq<bool>)
    requires |legacy| == |blocks| && forall i :: 0 <= i < |legacy| ==> !legacy[i]
    ensures EnrichAll(k, sidecar, tracked, blocks, legacy) == Some(blocks)
    decreases |blocks|
  {
    if blocks != [] {
      EnrichAllUnfolds(k, sidecar, tracked, blocks, legacy);
      NoLegacyLeavesBlocksAlone(k, sidecar, ApplyHashed(tracked, blocks[0].hashed), blocks[1..], legacy[1..]);
      assert blocks == [blocks[0]] + blocks[1..];
    }
  }

  predicate AllTrue(legacy: seq<bool>) {
    forall i :: 0 <= i < |legacy| ==> legacy[i]
  }

  /** What a covering sidecar needs of a batch. */
  ghost predicate Coverable(k: Keccak, sidecar: Sidecar, tracked: Tracked, store: Store, blocks: seq<Block>,
      legacy: seq<bool>)
    requires |legacy| == |blocks|
  {
    && Canonical(store) && SidecarSound(k, sidecar) && Covered(store, sidecar)
    && (forall s <- LegacySlots(blocks, legacy) :: k.slot(s) in sidecar)
    && Matches(tracked, store) && HashedAddresses(k, WipeAddresses(blocks, legacy)) <= tracked.Keys
    && LegacyFirst(legacy) && AllEmptied(k, store, blocks, legacy)
    && (forall i :: 0 <= i < |blocks| ==> Traceable(k, blocks[i]))
  }

  lemma CoverableRest(k: Keccak, sidecar: Sidecar, tracked: Tracked, store: Store, blocks: seq<Block>,
      legacy: seq<bool>)
    requires Injective(k) && |legacy| == |blocks| > 0 && legacy[0] &&
        Coverable(k, sidecar, tracked, store, blocks, legacy)
    ensures Injectable(k, sidecar, tracked, blocks[0].reverts)
    ensures var e := EnrichBlock(k, sidecar, tracked, blocks[0], true);
            Coverable(k, sidecar, ApplyHashed(tracked, e.hashed), Persist(store, e.hashed), blocks[1..], legacy[1..])
  {
    HashedAddressesMonotone(k, WipedAddresses(blocks[0].reverts), WipeAddresses(blocks, legacy));
    HashedAddressesMonotone(k, WipeAddresses(blocks[1..], legacy[1..]), WipeAddresses(blocks, legacy));
    CoveredIsInjectable(k, sidecar, tracked, store, blocks[0].reverts);
    EnrichedHashed(k, sidecar, tracked, blocks[0], true);
    CoverageStep(k, sidecar, tracked, store, blocks[0]);
    SimulationStep(tracked, store, EnrichBlock(k, sidecar, tracked, blocks[0], true).hashed);
  }

  /** From a covering sidecar every batch is accepted. */
  lemma {:induction false} CoveredBatchSucceeds(k: Keccak, sidecar: Sidecar, tracked: Tracked, store: Store,
      blocks: seq<Block>, legacy: seq<bool>)
    requires Injective(k) && |legacy| == |blocks| && Coverable(k, sidecar, tracked, store, blocks, legacy)
    ensures EnrichAll(k, sidecar, tracked, blocks, legacy).Some?
    decreases |blocks|
  {
    if blocks != [] {
      if legacy[0] {
        CoverableRest(k, sidecar, tracked, store, blocks, legacy);
        EnrichAllUnfolds(k, sidecar, tracked, blocks, legacy);
        var e := EnrichBlock(k, sidecar, tracked, blocks[0], true);
        CoveredBatchSucceeds(k, sidecar, ApplyHashed(tracked, e.hashed), Persist(store, e.hashed), blocks[1..],
            legacy[1..]);
      } else {
        NoLegacyLeavesBlocksAlone(k, sidecar, tracked, blocks, legacy);
      }
    }
  }

  lemma AllTrueRest(legacy: seq<bool>, j: nat)
    requires 0 < j <= |legacy| && AllTrue(legacy[..j])
    ensures legacy[0] && AllTrue(legacy[1..][..j - 1])
  {
    var front, rest := legacy[..j], legacy[1..][..j - 1];
    assert front[0] == legacy[0];
    forall i | 0 <= i < |rest| ensures rest[i] {
      assert front[i + 1] == rest[i];
    }
  }

  /** The sidecar goes on covering the storage for as long as the blocks are legacy. */
  lemma {:induction false} CoveredWhileLegacy(k: Keccak, sidecar: Sidecar, tracked: Tracked, store: Store,
      blocks: seq<Block>, legacy: seq<bool>, j: nat)
    requires Injective(k) && |legacy| == |blocks| && Coverable(k, sidecar, tracked, store, blocks, legacy)
    requires EnrichAll(k, sidecar, tracked, blocks, legacy).Some? && j <= |blocks| && AllTrue(legacy[..j])
    ensures Covered(PersistAll(store, EnrichAll(k, sidecar, tracked, blocks, legacy).value[..j]), sidecar)
    decreases j
  {
    if j > 0 {
      AllTrueRest(legacy, j);
      CoverableRest(k, sidecar, tracked, store, blocks, legacy);
      EnrichAllUnfolds(k, sidecar, tracked, blocks, legacy);
      var e := EnrichBlock(k, sidecar, tracked, blocks[0], true);
      var all := EnrichAll(k, sidecar, tracked, blocks, legacy).value;
      CoveredWhileLegacy(k, sidecar, ApplyHashed(tracked, e.hashed), Persist(store, e.hashed), blocks[1..], legacy[1..],
          j - 1);
      assert all[..j][0] == e && all[..j][1..] == all[1..][..j - 1];
    }
  }

  // ---------------------------------------------------------------- looking ahead for a plain key

  function WipeOf(h: Header, a: Address): Block {
    Block(h, map[], map[a := AccountRevert(true, map[])], HashedPostState({}, map[]))
  }

  function TouchOf(h: Header, a: Address, s: Slot): Block {
    Block(h, map[a := {s}], map[], HashedPostState({}, map[]))
  }

  lemma WipeAndTouch(h: Header, a: Address, s: Slot)
    ensures var blocks, legacy := [WipeOf(h, a), TouchOf(h, a, s)], [true, true];
            WipedAddresses(WipeOf(h, a).reverts) == WipeAddresses(blocks, legacy) == {a} &&
                LegacySlots(blocks, legacy) == {s}
    ensures PlainSlots(WipeOf(h, a)) == {}
  {
    var wipe, touch := WipeOf(h, a), TouchOf(h, a, s);
    assert [wipe, touch][1..] == [touch] && [true, true][1..] == [true];
    SingleBlock(touch, true);
    assert PlainSlots(wipe) == {};
    assert s in touch.touched[a];
    assert PlainSlots(touch) == {s};
  }

  lemma WipeAndTouchAreFaithful(k: Keccak, store: Store, h: Header, a: Address, s: Slot)
    ensures var blocks, legacy := [WipeOf(h, a), TouchOf(h, a, s)], [true, true];
            && LegacyFirst(legacy) && AllEmptied(k, store, blocks, legacy)
            && forall i :: 0 <= i < |blocks| ==> Traceable(k, blocks[i])
  {
  }

  /** Looking ahead matters: one block wipes the only live slot and only the next block names its
      plain key, so the batch is accepted where one-at-a-time preparation is not. */
  lemma {:induction false} BatchSucceedsWhereOneByOneFails(k: Keccak, store: Store, h: Header, a: Address, s: Slot)
    requires Injective(k) && Canonical(store)
    requires Cell(k.address(a), k.slot(s)) in store && forall c <- store :: c.slot == k.slot(s)
    ensures var blocks, legacy := [WipeOf(h, a), TouchOf(h, a, s)], [true, true];
            && PrepareTogether(k, store, map[], blocks, legacy).Some?
            && PrepareOneByOne(k, store, map[], blocks, legacy).None?
  {
    var blocks, legacy := [WipeOf(h, a), TouchOf(h, a, s)], [true, true];
    WipeAndTouch(h, a, s);
    WipeAndTouchAreFaithful(k, store, h, a, s);
    var wide := Extend(k, map[], {s});
    ExtendIsSound(k, map[], {s});
    assert k.slot(s) in HashedSlots(k, {s});
    CoveredBatchSucceeds(k, wide, LoadTracked(k, store, {a}), store, blocks, legacy);
    BatchMatchesOneByOne(k, store, map[], blocks, legacy);
    NotKnownYet(k, store, h, a, s);
  }

  lemma NotKnownYet(k: Keccak, store: Store, h: Header, a: Address, s: Slot)
    requires Injective(k) && Cell(k.address(a), k.slot(s)) in store
    ensures forall enriched: seq<Block> :: |enriched| == 2 ==>
              !KnownByThen(k, store, map[], [WipeOf(h, a), TouchOf(h, a, s)], enriched, [true, true])
  {
    var blocks, legacy := [WipeOf(h, a), TouchOf(h, a, s)], [true, true];
    assert blocks[..1] == [WipeOf(h, a)] && legacy[..1] == [true];
    WipeAndTouch(h, a, s);
    SingleBlock(WipeOf(h, a), true);
    ExtendIsSound(k, map[], {});
    assert a in WipedAddresses(WipeOf(h, a).reverts) && k.slot(s) in AccountSlots(store, k.address(a));
    assert !WipesKnown(k, Extend(k, map[], {}), store, WipeOf(h, a).reverts);
  }
}
