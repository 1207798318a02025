/**
  Storage V2 persistence: the enrichment a batch of executed blocks receives before it reaches the
  database, so that an unwind restores storage that a legacy (pre-ArbOS-20) wipe erased.

  State is stored under hashed keys, reverts under plain keys; the `sidecar` maps a hashed slot back
  to its plain key.  Addresses, slots, hashes and words are natural numbers: their width plays no
  part here.  keccak256 is a parameter.
*/
module StorageV2 {
  import opened Prelude

  type Address = nat
  type Slot = nat
  type Hash = nat
  type Word = nat

  datatype Keccak = Keccak(address: Address -> Hash, slot: Slot -> Hash)

  ghost predicate Injective(k: Keccak) {
    && (forall a, b :: k.address(a) == k.address(b) ==> a == b)
    && (forall s, t :: k.slot(s) == k.slot(t) ==> s == t)
  }

  // ---------------------------------------------------------------- executed blocks

  datatype RevertToSlot = ToValue(value: Word) | Destroyed

  datatype AccountRevert = AccountRevert(wipeStorage: bool, storage: map<Slot, RevertToSlot>)

  /** The reverts of one block: a block carries exactly one transition. */
  type Transition = map<Address, AccountRevert>

  datatype HashedStorage = HashedStorage(wiped: bool, slots: map<Hash, Word>)

  /** `destroyed` are the accounts whose hashed update is `None`. */
  datatype HashedPostState = HashedPostState(destroyed: set<Hash>, storages: map<Hash, HashedStorage>)

  /** `arbos` is `None` when the header does not decode as an Arbitrum header. */
  datatype Header = Header(number: nat, hash: Hash, parentHash: Hash, arbos: Option<nat>)

  /** `touched` are the storage keys of the bundle state, account by account. */
  datatype Block = Block(header: Header, touched: map<Address, set<Slot>>, reverts: Transition, hashed: HashedPostState)

  const ARBOS_20: nat := 20

  // ---------------------------------------------------------------- the database

  datatype Cell = Cell(account: Hash, slot: Hash)

  /** The `HashedStorages` table: only non-zero words are stored. */
  type Store = map<Cell, Word>

  predicate Canonical(store: Store) {
    forall c <- store :: store[c] != 0
  }

  function Get(store: Store, c: Cell): Word {
    if c in store then store[c] else 0
  }

  lemma StoreExtensionality(s: Store, t: Store)
    requires Canonical(s) && Canonical(t)
    requires forall c :: Get(s, c) == Get(t, c)
    ensures s == t
  {
    forall c ensures c in s <==> c in t {
      assert Get(s, c) == Get(t, c);
    }
    assert s.Keys == t.Keys;
    forall c | c in s ensures s[c] == t[c] {
      assert Get(s, c) == Get(t, c);
    }
  }

  /** The word a hashed update leaves in a cell that held `before`. */
  function Updated(updates: HashedPostState, c: Cell, before: Word): Word {
    if c.account !in updates.storages then before
    else
      var storage := updates.storages[c.account];
      if c.slot in storage.slots then storage.slots[c.slot]
      else if storage.wiped then 0
      else before
  }

  function UpdatedCells(updates: HashedPostState): set<Cell> {
    set a, h | a in updates.storages && h in updates.storages[a].slots :: Cell(a, h)
  }

  /** How the persistence service writes one block's hashed state. */
  function Persist(store: Store, updates: HashedPostState): (r: Store)
    ensures Canonical(r)
    ensures Canonical(store) ==> forall c :: Get(r, c) == Updated(updates, c, Get(store, c))
  {
    var r := map c | c in store.Keys + UpdatedCells(updates) && Updated(updates, c, Get(store, c)) != 0 ::
               Updated(updates, c, Get(store, c));
    assert forall c :: Updated(updates, c, Get(store, c)) != 0 ==> c in store.Keys + UpdatedCells(updates);
    r
  }

  function PersistAll(store: Store, blocks: seq<Block>): (r: Store)
    ensures Canonical(store) ==> Canonical(r)
    decreases |blocks|
  {
    if blocks == [] then store else PersistAll(Persist(store, blocks[0].hashed), blocks[1..])
  }

  /** Hashed slots of one account. */
  function AccountSlots(store: Store, account: Hash): (r: map<Hash, Word>)
    ensures forall h :: h in r <==> Cell(account, h) in store
    ensures forall h <- r :: r[h] == store[Cell(account, h)]
  {
    var keys := set c | c in store && c.account == account :: c.slot;
    assert forall h :: Cell(account, h) in store ==> Cell(account, h).slot in keys;
    map h | h in keys :: store[Cell(account, h)]
  }

  // ---------------------------------------------------------------- unwinding

  predicate Named(t: Transition, a: Address, s: Slot) {
    a in t && s in t[a].storage
  }

  /** The changeset word of a revert entry: a destroyed slot reverts to zero. */
  function PreviousWord(r: RevertToSlot): Word {
    match r
    case ToValue(v) => v
    case Destroyed => 0
  }

  ghost predicate NamedCell(k: Keccak, t: Transition, c: Cell) {
    exists a, s :: Named(t, a, s) && c == Cell(k.address(a), k.slot(s))
  }

  /** The word an unwind writes into cell `c`; `before` when the changeset does not name the cell. */
  ghost function Unwound(k: Keccak, t: Transition, c: Cell, before: Word): Word {
    if NamedCell(k, t, c) then
      var a, s :| Named(t, a, s) && c == Cell(k.address(a), k.slot(s));
      PreviousWord(t[a].storage[s])
    else before
  }

  ghost function NamedCells(k: Keccak, t: Transition): set<Cell> {
    set a, s | a in t && s in t[a].storage :: Cell(k.address(a), k.slot(s))
  }

  /** Unwinding one block replays its changeset over hashed storage. */
  ghost function UnwindBlock(k: Keccak, store: Store, t: Transition): (r: Store)
    ensures Canonical(r)
    ensures Canonical(store) ==> forall c :: Get(r, c) == Unwound(k, t, c, Get(store, c))
  {
    var r := map c | c in store.Keys + NamedCells(k, t) && Unwound(k, t, c, Get(store, c)) != 0 ::
               Unwound(k, t, c, Get(store, c));
    assert forall c :: NamedCell(k, t, c) ==> c in NamedCells(k, t);
    r
  }

  ghost function UnwindAll(k: Keccak, store: Store, blocks: seq<Block>): (r: Store)
    ensures Canonical(store) ==> Canonical(r)
  {
    if blocks == [] then store
    else UnwindBlock(k, UnwindAll(k, store, blocks[1..]), blocks[0].reverts)
  }

  lemma UnwoundNamed(k: Keccak, t: Transition, a: Address, s: Slot, before: Word)
    requires Injective(k) && Named(t, a, s)
    ensures Unwound(k, t, Cell(k.address(a), k.slot(s)), before) == PreviousWord(t[a].storage[s])
  {
    assert NamedCell(k, t, Cell(k.address(a), k.slot(s)));
  }

  // ---------------------------------------------------------------- enrichment

  predicate HasWipe(t: Transition) {
    exists a <- t :: t[a].wipeStorage
  }

  function WipedAddresses(t: Transition): set<Address> {
    set a | a in t && t[a].wipeStorage
  }

  datatype TrackedStorage = TrackedStorage(address: Address, slots: map<Hash, Word>)

  type Tracked = map<Hash, TrackedStorage>
  type Sidecar = map<Hash, Slot>

  /** Every hashed slot has a preimage and the preimage hashes back to it. */
  predicate PreimagesKnown(k: Keccak, sidecar: Sidecar, slots: map<Hash, Word>) {
    forall h <- slots :: h in sidecar && k.slot(sidecar[h]) == h
  }

  /** `storage` with an entry for every slot of the tracked account, keeping recorded words. */
  function EnrichStorage(k: Keccak, sidecar: Sidecar, slots: map<Hash, Word>,
      storage: map<Slot, RevertToSlot>): (r: map<Slot, RevertToSlot>)
    requires PreimagesKnown(k, sidecar, slots)
  {
    var injected := set h | h in slots :: sidecar[h];
    map s | s in storage.Keys + injected ::
      if s in injected && !(s in storage && storage[s].ToValue?) then ToValue(slots[k.slot(s)])
      else storage[s]
  }

  predicate Injectable(k: Keccak, sidecar: Sidecar, tracked: Tracked, t: Transition) {
    forall a <- t :: t[a].wipeStorage ==>
      k.address(a) in tracked && PreimagesKnown(k, sidecar, tracked[k.address(a)].slots)
  }

  function Inject(k: Keccak, sidecar: Sidecar, tracked: Tracked, t: Transition): Transition
    requires Injectable(k, sidecar, tracked, t)
  {
    map a | a in t ::
      if t[a].wipeStorage
      then t[a].(storage := EnrichStorage(k, sidecar, tracked[k.address(a)].slots, t[a].storage))
      else t[a]
  }

  function HashedAddresses(k: Keccak, addresses: set<Address>): set<Hash> {
    set a | a in addresses :: k.address(a)
  }

  /** An explicit wipe marker on the hashed storage of every wiped account. */
  function MarkWipes(k: Keccak, b: Block): Block {
    var wiped := HashedAddresses(k, WipedAddresses(b.reverts));
    var storages := map h | h in b.hashed.storages.Keys + wiped ::
                      if h !in b.hashed.storages then HashedStorage(true, map[])
                      else if h in wiped then b.hashed.storages[h].(wiped := true)
                      else b.hashed.storages[h];
    b.(hashed := b.hashed.(storages := storages))
  }

  /** The simulated slots of one tracked account after a hashed update. */
  function AppliedSlots(slots: map<Hash, Word>, account: Hash, updates: HashedPostState): map<Hash, Word> {
    if account in updates.destroyed then map[]
    else if account !in updates.storages then slots
    else
      var storage := updates.storages[account];
      var kept := if storage.wiped then map[] else slots;
      map h | h in kept.Keys + storage.slots.Keys && (h in storage.slots ==> storage.slots[h] != 0) ::
        if h in storage.slots then storage.slots[h] else kept[h]
  }

  function ApplyHashed(tracked: Tracked, updates: HashedPostState): Tracked {
    map a | a in tracked :: tracked[a].(slots := AppliedSlots(tracked[a].slots, a, updates))
  }

  /** Accounts wiped by legacy blocks of the batch. */
  function WipeAddresses(blocks: seq<Block>, legacy: seq<bool>): set<Address>
    requires |legacy| == |blocks|
  {
    if blocks == [] then {}
    else (if legacy[0] then WipedAddresses(blocks[0].reverts) else {}) + WipeAddresses(blocks[1..], legacy[1..])
  }

  ghost function AddressOf(k: Keccak, addresses: set<Address>, h: Hash): (a: Address)
    requires h in HashedAddresses(k, addresses)
    ensures a in addresses && k.address(a) == h
  {
    var a :| a in addresses && k.address(a) == h;
    a
  }

  /** The database storage of every account the batch wipes. */
  ghost function LoadTracked(k: Keccak, store: Store, addresses: set<Address>): (r: Tracked)
    ensures forall h <- r :: r[h].slots == AccountSlots(store, h)
  {
    map h | h in HashedAddresses(k, addresses) :: TrackedStorage(AddressOf(k, addresses, h), AccountSlots(store, h))
  }

  /** One block of the batch, as it leaves the loop. */
  function EnrichBlock(k: Keccak, sidecar: Sidecar, tracked: Tracked, b: Block, legacy: bool): Block
    requires legacy ==> Injectable(k, sidecar, tracked, b.reverts)
  {
    if legacy && HasWipe(b.reverts)
    then MarkWipes(k, b.(reverts := Inject(k, sidecar, tracked, b.reverts)))
    else b
  }

  /** The enrichment loop over the batch; `None` when some plain key cannot be recovered. */
  function EnrichAll(k: Keccak, sidecar: Sidecar, tracked: Tracked, blocks: seq<Block>,
      legacy: seq<bool>): (r: Option<seq<Block>>)
    requires |legacy| == |blocks|
    ensures r.Some? ==> |r.value| == |blocks|
    decreases |blocks|
  {
    if blocks == [] then Some([])
    else if legacy[0] && !Injectable(k, sidecar, tracked, blocks[0].reverts) then None
    else
      var b := EnrichBlock(k, sidecar, tracked, blocks[0], legacy[0]);
      var rest := EnrichAll(k, sidecar, ApplyHashed(tracked, b.hashed), blocks[1..], legacy[1..]);
      if rest.None? then None else Some([b] + rest.value)
  }

  // ---------------------------------------------------------------- the preimage sidecar

  ghost predicate SidecarSound(k: Keccak, sidecar: Sidecar) {
    forall h <- sidecar :: k.slot(sidecar[h]) == h
  }

  /** Plain slots named by a block's bundle state or by its reverts. */
  function PlainSlots(b: Block): set<Slot> {
    (set a, s | a in b.touched && s in b.touched[a] :: s) +
    (set a, s | a in b.reverts && s in b.reverts[a].storage :: s)
  }

  function LegacySlots(blocks: seq<Block>, legacy: seq<bool>): set<Slot>
    requires |legacy| == |blocks|
  {
    if blocks == [] then {}
    else (if legacy[0] then PlainSlots(blocks[0]) else {}) + LegacySlots(blocks[1..], legacy[1..])
  }

  function HashedSlots(k: Keccak, slots: set<Slot>): set<Hash> {
    set s | s in slots :: k.slot(s)
  }

  /** `entries` maps the hash of each of `slots` to it, and nothing else. */
  ghost predicate PreimagesOf(k: Keccak, entries: Sidecar, slots: set<Slot>) {
    && (forall s <- slots :: k.slot(s) in entries && entries[k.slot(s)] == s)
    && (forall h <- entries :: entries[h] in slots && k.slot(entries[h]) == h)
  }

  ghost function PlainOf(k: Keccak, slots: set<Slot>, h: Hash): (s: Slot)
    requires h in HashedSlots(k, slots)
    ensures s in slots && k.slot(s) == h
  {
    var s :| s in slots && k.slot(s) == h;
    s
  }

  /** The sidecar after inserting the preimages it does not hold yet. */
  ghost function Extend(k: Keccak, sidecar: Sidecar, slots: set<Slot>): Sidecar {
    map h | h in HashedSlots(k, slots) + sidecar.Keys :: if h in sidecar then sidecar[h] else PlainOf(k, slots, h)
  }
}
