/** Applying an enriched batch and unwinding it again is the identity on hashed storage. */
module StorageV2Unwind {
  import opened StorageV2

  // ---------------------------------------------------------------- what execution delivers

  ghost predicate WipedCell(k: Keccak, t: Transition, c: Cell) {
    c.account in HashedAddresses(k, WipedAddresses(t))
  }

  /** Every slot the block's own reverts name carries its pre-block word.  A `Destroyed` entry of a
      legacy wipe claims nothing; any other one claims zero. */
  ghost predicate RightWords(k: Keccak, pre: Store, b: Block, legacy: bool) {
    forall a, s :: Named(b.reverts, a, s) ==>
      match b.reverts[a].storage[s]
      case ToValue(v) => v == Get(pre, Cell(k.address(a), k.slot(s)))
      case Destroyed => (legacy && b.reverts[a].wipeStorage) || Get(pre, Cell(k.address(a), k.slot(s))) == 0
  }

  /** Every changed cell is named, unless a legacy wipe erased a live word there. */
  ghost predicate NamesChanges(k: Keccak, pre: Store, post: Store, b: Block, legacy: bool) {
    forall c :: Get(post, c) != Get(pre, c) ==>
      NamedCell(k, b.reverts, c) || (legacy && WipedCell(k, b.reverts, c) && Get(pre, c) != 0)
  }

  ghost predicate SoundReverts(k: Keccak, pre: Store, post: Store, b: Block, legacy: bool) {
    RightWords(k, pre, b, legacy) && NamesChanges(k, pre, post, b, legacy)
  }

  /** No word of a destroyed account is left once the update is applied. */
  ghost predicate DestroyedIsEmptied(store: Store, updates: HashedPostState) {
    forall h, s :: h in updates.destroyed ==> Updated(updates, Cell(h, s), Get(store, Cell(h, s))) == 0
  }

  /** The hashed update of a block once its legacy wipes are marked; enrichment never changes more of it. */
  function Marked(k: Keccak, b: Block, legacy: bool): HashedPostState {
    if legacy && HasWipe(b.reverts) then MarkWipes(k, b).hashed else b.hashed
  }

  lemma EnrichedHashed(k: Keccak, sidecar: Sidecar, tracked: Tracked, b: Block, legacy: bool)
    requires legacy ==> Injectable(k, sidecar, tracked, b.reverts)
    ensures EnrichBlock(k, sidecar, tracked, b, legacy).hashed == Marked(k, b, legacy)
  {
    if legacy && HasWipe(b.reverts) {
      assert WipedAddresses(Inject(k, sidecar, tracked, b.reverts)) == WipedAddresses(b.reverts);
    }
  }

  /** `DestroyedIsEmptied` for every block, each over the storage its predecessors leave. */
  ghost predicate AllEmptied(k: Keccak, store: Store, blocks: seq<Block>, legacy: seq<bool>)
    requires |legacy| == |blocks|
    decreases |blocks|
  {
    blocks != [] ==>
      var hashed := Marked(k, blocks[0], legacy[0]);
      DestroyedIsEmptied(store, hashed) && AllEmptied(k, Persist(store, hashed), blocks[1..], legacy[1..])
  }

  /** What execution promises of a batch: `SoundReverts` for every block, each over the storage its
      predecessors leave, and nothing left of a destroyed account. */
  ghost predicate SoundBatch(k: Keccak, store: Store, blocks: seq<Block>, legacy: seq<bool>)
    requires |legacy| == |blocks|
    decreases |blocks|
  {
    blocks != [] ==>
      var hashed := Marked(k, blocks[0], legacy[0]);
      && DestroyedIsEmptied(store, hashed)
      && SoundReverts(k, store, Persist(store, hashed), blocks[0], legacy[0])
      && SoundBatch(k, Persist(store, hashed), blocks[1..], legacy[1..])
  }

  lemma {:induction false} SoundIsEmptied(k: Keccak, store: Store, blocks: seq<Block>, legacy: seq<bool>)
    requires |legacy| == |blocks| && SoundBatch(k, store, blocks, legacy)
    ensures AllEmptied(k, store, blocks, legacy)
    decreases |blocks|
  {
    if blocks != [] {
      SoundIsEmptied(k, Persist(store, Marked(k, blocks[0], legacy[0])), blocks[1..], legacy[1..]);
    }
  }

  // ---------------------------------------------------------------- the simulation

  /** The simulated slots are the ones the database would hold at this point of the batch. */
  ghost predicate Matches(tracked: Tracked, store: Store) {
    forall h <- tracked :: tracked[h].slots == AccountSlots(store, h)
  }

  /** A slot map holds `word` at a slot: a zero word is an absent entry. */
  predicate SlotIs(slots: map<Hash, Word>, h: Hash, word: Word) {
    (h in slots <==> word != 0) && (h in slots ==> slots[h] == word)
  }

  /** One simulated slot moves exactly as the database cell does. */
  lemma AppliedSlotMatches(store: Store, account: Hash, updates: HashedPostState, h: Hash)
    requires Canonical(store)
    requires account in updates.destroyed ==> Updated(updates, Cell(account, h), Get(store, Cell(account, h))) == 0
    ensures SlotIs(AppliedSlots(AccountSlots(store, account), account, updates), h,
                Updated(updates, Cell(account, h), Get(store, Cell(account, h))))
  {
  }

  lemma PersistedSlot(store: Store, account: Hash, updates: HashedPostState, h: Hash)
    requires Canonical(store)
    ensures SlotIs(AccountSlots(Persist(store, updates), account), h,
                Updated(updates, Cell(account, h), Get(store, Cell(account, h))))
  {
    assert Get(Persist(store, updates), Cell(account, h))
        == Updated(updates, Cell(account, h), Get(store, Cell(account, h)));
  }

  predicate SameSlot(l: map<Hash, Word>, r: map<Hash, Word>, h: Hash) {
    (h in l <==> h in r) && (h in l ==> l[h] == r[h])
  }

  lemma SlotIsOne(l: map<Hash, Word>, r: map<Hash, Word>, h: Hash, word: Word)
    requires SlotIs(l, h, word) && SlotIs(r, h, word)
    ensures SameSlot(l, r, h)
  {
  }

  lemma SlotOfBoth(store: Store, account: Hash, updates: HashedPostState, h: Hash)
    requires Canonical(store) && DestroyedIsEmptied(store, updates)
    ensures SameSlot(AppliedSlots(AccountSlots(store, account), account, updates),
                AccountSlots(Persist(store, updates), account), h)
  {
    AppliedSlotMatches(store, account, updates, h);
    PersistedSlot(store, account, updates, h);
    SlotIsOne(AppliedSlots(AccountSlots(store, account), account, updates),
        AccountSlots(Persist(store, updates), account),
        h, Updated(updates, Cell(account, h), Get(store, Cell(account, h))));
  }

  lemma SameSlots(l: map<Hash, Word>, r: map<Hash, Word>)
    requires forall h :: SameSlot(l, r, h)
    ensures l == r
  {
    assert forall h :: h in l ==> SameSlot(l, r, h);
    assert forall h :: h in r ==> SameSlot(l, r, h);
  }

  lemma AppliedSlotsMatch(store: Store, account: Hash, updates: HashedPostState)
    requires Canonical(store) && DestroyedIsEmptied(store, updates)
    ensures AppliedSlots(AccountSlots(store, account), account, updates) ==
        AccountSlots(Persist(store, updates), account)
  {
    var l := AppliedSlots(AccountSlots(store, account), account, updates);
    var r := AccountSlots(Persist(store, updates), account);
    forall h ensures SameSlot(l, r, h) {
      SlotOfBoth(store, account, updates, h);
    }
    SameSlots(l, r);
  }

  lemma {:induction false} SimulationStep(tracked: Tracked, store: Store, updates: HashedPostState)
    requires Canonical(store) && Matches(tracked, store) && DestroyedIsEmptied(store, updates)
    ensures Matches(ApplyHashed(tracked, updates), Persist(store, updates))
  {
    forall h | h in tracked
      ensures ApplyHashed(tracked, updates)[h].slots == AccountSlots(Persist(store, updates), h)
    {
      AppliedSlotsMatch(store, h, updates);
    }
  }

  // ---------------------------------------------------------------- one block

  /** Which slots an enriched revert holds, and how. */
  lemma EnrichedEntry(k: Keccak, sidecar: Sidecar, slots: map<Hash, Word>, storage: map<Slot, RevertToSlot>, s: Slot)
    requires Injective(k) && PreimagesKnown(k, sidecar, slots)
    ensures var r := EnrichStorage(k, sidecar, slots, storage);
            && (s in r <==> s in storage || k.slot(s) in slots)
            && (s in r ==>
                  r[s] == if k.slot(s) in slots && !(s in storage && storage[s].ToValue?) then ToValue(slots[k.slot(s)])
                          else storage[s])
  {
    var injected := set h | h in slots :: sidecar[h];
    assert k.slot(s) in slots ==> s == sidecar[k.slot(s)];
    assert s in injected <==> k.slot(s) in slots;
  }

  /** The reverts of one account after enrichment. */
  lemma EnrichedAccount(k: Keccak, sidecar: Sidecar, tracked: Tracked, b: Block, legacy: bool, a: Address)
    requires legacy ==> Injectable(k, sidecar, tracked, b.reverts)
    ensures var t := EnrichBlock(k, sidecar, tracked, b, legacy).reverts;
            && (a in t <==> a in b.reverts)
            && (a in t ==> t[a].storage ==
                             if legacy && b.reverts[a].wipeStorage
                             then EnrichStorage(k, sidecar, tracked[k.address(a)].slots, b.reverts[a].storage)
                             else b.reverts[a].storage)
  {
    if legacy && a in b.reverts && b.reverts[a].wipeStorage {
      assert HasWipe(b.reverts);
    }
  }

  /** Which cells the enriched changeset names, and with which words. */
  lemma {:induction false} EnrichedCell(k: Keccak, sidecar: Sidecar, tracked: Tracked, pre: Store, b: Block,
      legacy: bool, a: Address,
      s: Slot)
    requires Injective(k) && Canonical(pre) && Matches(tracked, pre)
    requires legacy ==> Injectable(k, sidecar, tracked, b.reverts)
    ensures var t := EnrichBlock(k, sidecar, tracked, b, legacy).reverts;
            var c := Cell(k.address(a), k.slot(s));
            var wiped := legacy && a in b.reverts && b.reverts[a].wipeStorage;
            && (Named(t, a, s) <==> Named(b.reverts, a, s) || (wiped && Get(pre, c) != 0))
            && (Named(t, a, s) ==>
                  PreviousWord(t[a].storage[s]) ==
                  if Named(b.reverts, a, s) && b.reverts[a].storage[s].ToValue? then b.reverts[a].storage[s].value
                  else if wiped then Get(pre, c)
                  else 0)
  {
    EnrichedAccount(k, sidecar, tracked, b, legacy, a);
    if legacy && a in b.reverts && b.reverts[a].wipeStorage {
      var slots := tracked[k.address(a)].slots;
      EnrichedEntry(k, sidecar, slots, b.reverts[a].storage, s);
      var c := Cell(k.address(a), k.slot(s));
      assert slots == AccountSlots(pre, k.address(a));
      assert c.slot in slots <==> Get(pre, c) != 0;
      assert c.slot in slots ==> slots[c.slot] == Get(pre, c);
    }
  }

  /** A cell the enriched changeset names but the original one does not belongs to a legacy wipe. */
  lemma {:induction false} NewlyNamed(k: Keccak, sidecar: Sidecar, tracked: Tracked, pre: Store, b: Block,
      legacy: bool, c: Cell)
    requires Injective(k) && Canonical(pre) && Matches(tracked, pre)
    requires legacy ==> Injectable(k, sidecar, tracked, b.reverts)
    ensures var t := EnrichBlock(k, sidecar, tracked, b, legacy).reverts;
            NamedCell(k, t, c) <==>
                NamedCell(k, b.reverts, c) || (legacy && WipedCell(k, b.reverts, c) && Get(pre, c) != 0)
  {
    var t := EnrichBlock(k, sidecar, tracked, b, legacy).reverts;
    if NamedCell(k, t, c) {
      var a, s :| Named(t, a, s) && c == Cell(k.address(a), k.slot(s));
      EnrichedCell(k, sidecar, tracked, pre, b, legacy, a, s);
    }
    if NamedCell(k, b.reverts, c) {
      var a, s :| Named(b.reverts, a, s) && c == Cell(k.address(a), k.slot(s));
      EnrichedCell(k, sidecar, tracked, pre, b, legacy, a, s);
    }
    if legacy && WipedCell(k, b.reverts, c) && Get(pre, c) != 0 {
      var a :| a in WipedAddresses(b.reverts) && k.address(a) == c.account;
      assert tracked[c.account].slots == AccountSlots(pre, c.account);
      var s := sidecar[c.slot];
      EnrichedCell(k, sidecar, tracked, pre, b, legacy, a, s);
      assert Named(t, a, s);
    }
  }

  lemma SoundRevertsRestore(k: Keccak, sidecar: Sidecar, tracked: Tracked, pre: Store, post: Store, b: Block,
      legacy: bool)
    requires Injective(k) && Canonical(pre) && Canonical(post) && Matches(tracked, pre)
    requires legacy ==> Injectable(k, sidecar, tracked, b.reverts)
    requires SoundReverts(k, pre, post, b, legacy)
    ensures UnwindBlock(k, post, EnrichBlock(k, sidecar, tracked, b, legacy).reverts) == pre
  {
    var t := EnrichBlock(k, sidecar, tracked, b, legacy).reverts;
    var back := UnwindBlock(k, post, t);
    forall c ensures Get(back, c) == Get(pre, c) {
      assert Get(back, c) == Unwound(k, t, c, Get(post, c));
      NewlyNamed(k, sidecar, tracked, pre, b, legacy, c);
      if NamedCell(k, t, c) {
        var a, s :| Named(t, a, s) && c == Cell(k.address(a), k.slot(s));
        EnrichedCell(k, sidecar, tracked, pre, b, legacy, a, s);
        UnwoundNamed(k, t, a, s, Get(post, c));
      }
    }
    StoreExtensionality(back, pre);
  }

  lemma RestoredOnlyBySoundReverts(k: Keccak, sidecar: Sidecar, tracked: Tracked, pre: Store, post: Store, b: Block,
      legacy: bool)
    requires Injective(k) && Canonical(pre) && Canonical(post) && Matches(tracked, pre)
    requires legacy ==> Injectable(k, sidecar, tracked, b.reverts)
    requires UnwindBlock(k, post, EnrichBlock(k, sidecar, tracked, b, legacy).reverts) == pre
    ensures SoundReverts(k, pre, post, b, legacy)
  {
    var t := EnrichBlock(k, sidecar, tracked, b, legacy).reverts;
    forall a, s | Named(b.reverts, a, s)
      ensures match b.reverts[a].storage[s]
              case ToValue(v) => v == Get(pre, Cell(k.address(a), k.slot(s)))
              case Destroyed => (legacy && b.reverts[a].wipeStorage) || Get(pre, Cell(k.address(a), k.slot(s))) == 0
    {
      var c := Cell(k.address(a), k.slot(s));
      EnrichedCell(k, sidecar, tracked, pre, b, legacy, a, s);
      UnwoundNamed(k, t, a, s, Get(post, c));
      assert Get(pre, c) == Unwound(k, t, c, Get(post, c));
    }
    forall c | Get(post, c) != Get(pre, c)
      ensures NamedCell(k, b.reverts, c) || (legacy && WipedCell(k, b.reverts, c) && Get(pre, c) != 0)
    {
      NewlyNamed(k, sidecar, tracked, pre, b, legacy, c);
      assert Get(pre, c) == Unwound(k, t, c, Get(post, c));
    }
  }

  /** Unwinding one enriched block restores the store it was applied to exactly when the reverts
      execution recorded were sound for that store. */
  lemma {:induction false} UnwindBlockRestoresIff(k: Keccak, sidecar: Sidecar, tracked: Tracked, pre: Store, b: Block,
      legacy: bool)
    requires Injective(k) && Canonical(pre) && Matches(tracked, pre)
    requires legacy ==> Injectable(k, sidecar, tracked, b.reverts)
    ensures var e := EnrichBlock(k, sidecar, tracked, b, legacy);
            var post := Persist(pre, e.hashed);
            UnwindBlock(k, post, e.reverts) == pre <==> SoundReverts(k, pre, post, b, legacy)
  {
    var e := EnrichBlock(k, sidecar, tracked, b, legacy);
    var post := Persist(pre, e.hashed);
    if SoundReverts(k, pre, post, b, legacy) {
      SoundRevertsRestore(k, sidecar, tracked, pre, post, b, legacy);
    }
    if UnwindBlock(k, post, e.reverts) == pre {
      RestoredOnlyBySoundReverts(k, sidecar, tracked, pre, post, b, legacy);
    }
  }

  // ---------------------------------------------------------------- the batch

  /** For every batch the enrichment accepts, unwinding its blocks in reverse restores the store,
      including words a wipe erased and execution never touched. */
  lemma {:induction false} UnwindRestoresBatch(k: Keccak, sidecar: Sidecar, tracked: Tracked, store: Store,
      blocks: seq<Block>, legacy: seq<bool>)
    requires Injective(k) && Canonical(store) && Matches(tracked, store) && |legacy| == |blocks|
    requires EnrichAll(k, sidecar, tracked, blocks, legacy).Some?
    requires SoundBatch(k, store, blocks, legacy)
    ensures var enriched := EnrichAll(k, sidecar, tracked, blocks, legacy).value;
            UnwindAll(k, PersistAll(store, enriched), enriched) == store
    decreases |blocks|
  {
    if blocks != [] {
      var enriched := EnrichAll(k, sidecar, tracked, blocks, legacy).value;
      var e := EnrichBlock(k, sidecar, tracked, blocks[0], legacy[0]);
      var next := ApplyHashed(tracked, e.hashed);
      assert enriched[0] == e && enriched[1..] == EnrichAll(k, sidecar, next, blocks[1..], legacy[1..]).value;
      EnrichedHashed(k, sidecar, tracked, blocks[0], legacy[0]);
      SimulationStep(tracked, store, e.hashed);
      UnwindRestoresBatch(k, sidecar, next, Persist(store, e.hashed), blocks[1..], legacy[1..]);
      UnwindBlockRestoresIff(k, sidecar, tracked, store, blocks[0], legacy[0]);
    }
  }

  lemma UnwindPastFirst(k: Keccak, store: Store, all: seq<Block>, j: nat)
    requires 0 < j <= |all|
    requires var post, rest := Persist(store, all[0].hashed), all[1..];
             UnwindAll(k, PersistAll(post, rest), rest[j - 1..]) == PersistAll(post, rest[..j - 1])
    ensures UnwindAll(k, PersistAll(store, all), all[j..]) == PersistAll(store, all[..j])
  {
    var rest := all[1..];
    assert all[j..] == rest[j - 1..] && all[..j][0] == all[0] && all[..j][1..] == rest[..j - 1];
  }

  /** Unwinding down to any block of an accepted batch restores the storage that block left. */
  lemma {:induction false} UnwindToAnyBlock(k: Keccak, sidecar: Sidecar, tracked: Tracked, store: Store,
      blocks: seq<Block>, legacy: seq<bool>, j: nat)
    requires Injective(k) && Canonical(store) && Matches(tracked, store) && |legacy| == |blocks| && j <= |blocks|
    requires EnrichAll(k, sidecar, tracked, blocks, legacy).Some?
    requires SoundBatch(k, store, blocks, legacy)
    ensures var enriched := EnrichAll(k, sidecar, tracked, blocks, legacy).value;
            UnwindAll(k, PersistAll(store, enriched), enriched[j..]) == PersistAll(store, enriched[..j])
    decreases |blocks|
  {
    var enriched := EnrichAll(k, sidecar, tracked, blocks, legacy).value;
    if j == 0 {
      UnwindRestoresBatch(k, sidecar, tracked, store, blocks, legacy);
      assert enriched[0..] == enriched && enriched[..0] == [];
    } else {
      var e := EnrichBlock(k, sidecar, tracked, blocks[0], legacy[0]);
      var next, rest := ApplyHashed(tracked, e.hashed), enriched[1..];
      assert enriched[0] == e && rest == EnrichAll(k, sidecar, next, blocks[1..], legacy[1..]).value;
      EnrichedHashed(k, sidecar, tracked, blocks[0], legacy[0]);
      SimulationStep(tracked, store, e.hashed);
      UnwindToAnyBlock(k, sidecar, next, Persist(store, e.hashed), blocks[1..], legacy[1..], j - 1);
      UnwindPastFirst(k, store, enriched, j);
    }
  }

  lemma PersistPrefix(store: Store, all: seq<Block>, j: nat)
    requires 0 < j <= |all|
    ensures PersistAll(store, all[..j]) == PersistAll(Persist(store, all[0].hashed), all[1..][..j - 1])
  {
    assert all[..j][0] == all[0] && all[..j][1..] == all[1..][..j - 1];
  }

  /** The changeset of each block of an accepted batch leads back to the storage before that block. */
  lemma {:induction false} EachBlockUnwinds(k: Keccak, sidecar: Sidecar, tracked: Tracked, store: Store,
      blocks: seq<Block>, legacy: seq<bool>, j: nat)
    requires Injective(k) && Canonical(store) && Matches(tracked, store) && |legacy| == |blocks| && j < |blocks|
    requires EnrichAll(k, sidecar, tracked, blocks, legacy).Some? && SoundBatch(k, store, blocks, legacy)
    ensures var enriched := EnrichAll(k, sidecar, tracked, blocks, legacy).value;
            UnwindBlock(k, PersistAll(store, enriched[..j + 1]), enriched[j].reverts) ==
            PersistAll(store, enriched[..j])
    decreases j
  {
    var enriched := EnrichAll(k, sidecar, tracked, blocks, legacy).value;
    var e := EnrichBlock(k, sidecar, tracked, blocks[0], legacy[0]);
    var next, rest := ApplyHashed(tracked, e.hashed), enriched[1..];
    assert enriched[0] == e && rest == EnrichAll(k, sidecar, next, blocks[1..], legacy[1..]).value;
    EnrichedHashed(k, sidecar, tracked, blocks[0], legacy[0]);
    PersistPrefix(store, enriched, j + 1);
    if j == 0 {
      UnwindBlockRestoresIff(k, sidecar, tracked, store, blocks[0], legacy[0]);
      assert rest[..0] == [] && enriched[..0] == [];
    } else {
      PersistPrefix(store, enriched, j);
      SimulationStep(tracked, store, e.hashed);
      EachBlockUnwinds(k, sidecar, next, Persist(store, e.hashed), blocks[1..], legacy[1..], j - 1);
    }
  }
}
