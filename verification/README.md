# A verified model of arbitrum-reth's consensus-critical pipelines

arbitrum-reth turns Arbitrum's two inputs, the sequencer feed and batches posted on L1, into blocks and
persists them. This project models four of its pipelines in Dafny 4.11 and proves what they keep over
whole runs. `dafny verify dfyconfig.toml` verifies all of it.

**Storage V2 persistence** (`StorageV2`, `StorageV2Unwind`, `StorageV2Coverage`, `Rollback`,
`PersistenceProxy`, `PersistenceRuns`).
Before a batch of executed blocks reaches the database, storage wipes in blocks older than ArbOS 20 are
found, each wiped account's hashed storage is simulated across the batch, plain slot keys come from a
preimage sidecar, and reverts are injected so that unwinding restores the exact earlier storage. Results:
apply-then-unwind is the identity, exactly when execution's own reverts are sound; batch preparation
against one-at-a-time preparation, with the exact condition under which both succeed; over any mix of saves
and removals no batch is refused, coverage is kept and removal restores the exact earlier storage.

**Ingress to block production** (`SequenceRace`, `Ingress`, `IngressRuns`, `EngineDriver`,
`EngineDriverRuns`, `EngineDriverCursor`, `DriveLoop`, `FiniteRun`, `Fairness`, `TxOrdering`). Racing feed
copies, the feed/L1 scheduler, the driver with its bounded feed-ahead buffer and one overlapped forkchoice
request, the drive loop, and the transaction order inside a block. Arrivals, closes, cancellations
and engine answers are nondeterministic steps; execution is an abstract function.

**L1 derivation** (`Rlp`, `BlobCodec`, `BatchFraming`, `Multiplexer`, `MultiplexerMeaning`, `L2Message`,
`DelayedCache`, `DelayedCacheRuns`, `Derivation`, `WindowDerivation`, `WindowEquivalence`,
`ReportPrecedence`, `WindowSuccess`). Blobs to batch bytes to segments to messages, with wrapping 64-bit
time, the delayed-message cache against the uncached scan, and derivation in windows against derivation in
one call. Blobs follow section "Parameters" of EIP-4844; RLP follows Appendix B of the Ethereum Yellow Paper.

**Full-snapshot stream** (`SnapshotCodec`, `SnapshotRecords`, `SnapshotStream`, `SnapshotRuns`). The writer,
the reader with its section state machine and linkage checks, and what each guarantees about the other.

Code that changes state step by step is modelled by classes and loops proved equal to functions of the old
state; the run-level theorems are about those functions. Hashing, compression, execution, the engine and L1
are parameters. The main lemmas carry `{:induction false}`: their proofs are the bodies shown. Keccak is
assumed injective where a result needs it, decompression a left inverse of compression where a round trip
needs it.

## What the proofs say about the code

- Preparing blocks one at a time can fail where preparing them together succeeds, because a later block of
  the batch can supply the plain key an earlier wipe needs. `BatchMatchesOneByOne` gives the exact condition,
  `BatchSucceedsWhereOneByOneFails` a family of such batches.
- The feed coordinator publishes its resume cursor before it has sent the message the cursor moved over.
  "The cursor never passes a sequence that has not been forwarded" therefore fails for the one message in
  flight; `PublishedAgainstSent` is the exact condition, `PublishedBeforeSent` the instance.
- The final driver cursor is the least undelivered sequence exactly when the message at that cursor never
  overflowed the feed-ahead buffer (`FinalCursor`).
- The blob round trip with an unconditional RLP length header fails exactly on one-byte payloads below 0x80
  (`HeaderedRoundTripIff`); with the canonical short form it always holds.
- The delayed cache gives the uncached answer whenever the uncached scan succeeds. When a window end moves
  back it can also answer where the uncached scan fails, from blocks it scanned before: `CallAgreesIff` is the
  exact condition, `MovedBackDisagrees` the instance.
- Splitting into windows changes nothing as long as no report carries the hash of a later batch
  (`ReportsFine`). The condition matters: one call looks for such a batch among its own and fails, while a
  window that ends before it reads it from L1 (`WindowsSucceedWhereOneCallFails`). Given that the windows
  succeed, `OneCallAgreesIff` is the exact condition for one call.
- The spare-bit error of the blob decoder cannot occur for any blob. Neither can the segment parser's length
  error, because the RLP header decoder in front of it already requires a complete payload; the model
  therefore has no such error.

## Model

| member | source | states |
|---|---|---|
| StorageV2Unwind.SimulationStep | crates/arb-reth-engine/src/storage_v2.rs:776-800 | the tracked slot maps stay equal to what the database would hold after each block of the batch, for every update that leaves no word of a destroyed account |
| StorageV2Unwind.EnrichedCell | crates/arb-reth-engine/src/storage_v2.rs:731-774 | exactly which cells the enriched reverts name and with which earlier words |
| StorageV2Unwind.NewlyNamed | crates/arb-reth-engine/src/storage_v2.rs:731-774 | the enriched reverts name a cell if and only if execution named it or it was a live cell of an account a legacy block wiped |
| StorageV2Unwind.UnwindBlockRestoresIff | crates/arb-reth-engine/src/storage_v2.rs:320-353 | unwinding one enriched block restores the storage it was applied to if and only if execution's reverts were sound for the slots they name |
| StorageV2Unwind.UnwindRestoresBatch | crates/arb-reth-engine/src/storage_v2.rs:320-353 | for every accepted batch, unwinding its blocks in reverse restores exactly the storage before it, including words a wipe erased and execution never touched |
| StorageV2Unwind.UnwindToAnyBlock | crates/arb-reth-engine/src/storage_v2.rs:320-353 | unwinding only the blocks above any block of an accepted batch restores exactly the storage that block left |
| StorageV2Unwind.EachBlockUnwinds | crates/arb-reth-engine/src/storage_v2.rs:320-353 | the changeset of each block of an accepted batch leads back to the storage before that block |
| StorageV2Coverage.BatchMatchesOneByOne | crates/arb-reth-engine/src/storage_v2.rs:320-335 | preparing a batch equals preparing and persisting its blocks one at a time whenever the latter succeeds, and the latter succeeds if and only if the batch does and every injected key was known by then |
| StorageV2Coverage.BatchSucceedsWhereOneByOneFails | crates/arb-reth-engine/src/storage_v2.rs:259-296 | a family of two-block batches that succeed together and fail one at a time |
| StorageV2Coverage.CoveredBatchSucceeds | crates/arb-reth-engine/src/storage_v2.rs:748-758 | from a sidecar covering every live slot no legacy wipe misses a preimage, so the batch is accepted |
| StorageV2Coverage.CoveredWhileLegacy | crates/arb-reth-engine/src/storage_v2.rs:320-353 | the sidecar goes on covering the storage after every block up to which all are legacy |
| StorageV2Coverage.NoLegacyLeavesBlocksAlone | crates/arb-reth-engine/src/storage_v2.rs:320-353 | a batch without legacy blocks is passed on unchanged |
| PersistenceProxy.LinkedByIndex | crates/arb-reth-engine/src/storage_v2.rs:518-551 | the loop's linkage condition is pairwise linkage of consecutive numbers and parent hashes within 64 bits |
| PersistenceProxy.ValidateBlocks | crates/arb-reth-engine/src/storage_v2.rs:518-551 | accepts exactly the batches that continue the frontier block by block |
| PersistenceProxy.CollectPreimages | crates/arb-reth-engine/src/storage_v2.rs:586-615 | collects exactly the preimages of the slots legacy blocks name |
| PersistenceProxy.MissingPreimages | crates/arb-reth-engine/src/storage_v2.rs:356-374 | returns exactly the entries the sidecar lacks, and fails exactly on an entry it holds differently |
| PersistenceProxy.RecordPreimages | crates/arb-reth-engine/src/storage_v2.rs:269-296 | the sidecar is extended by exactly the slots legacy blocks name, and refused exactly when it holds one of them differently |
| PersistenceProxy.LoadWiped | crates/arb-reth-engine/src/storage_v2.rs:706-729 | the tracked maps start as the database's storage of exactly the wiped accounts |
| PersistenceProxy.InjectPlainWipeReverts | crates/arb-reth-engine/src/storage_v2.rs:731-774 | the nested loops produce the specified enriched reverts, failing exactly when a live slot has no known preimage |
| PersistenceProxy.ApplyHashedUpdates | crates/arb-reth-engine/src/storage_v2.rs:776-800 | the loop applies wipes and writes to tracked accounts as specified |
| PersistenceProxy.EnrichBatch | crates/arb-reth-engine/src/storage_v2.rs:320-353 | the batch loop is the recursive enrichment the theorems are about |
| PersistenceProxy.NoWipesLeavesBlocksAlone | crates/arb-reth-engine/src/storage_v2.rs:298-318 | skipping the simulation when there is no legacy wipe changes nothing |
| PersistenceProxy.EnrichWipes | crates/arb-reth-engine/src/storage_v2.rs:298-353 | loading, enriching and the early return without wipes together are the recursive enrichment |
| PersistenceProxy.Proxy.Validate | crates/arb-reth-engine/src/storage_v2.rs:424-443 | a batch passes exactly when it continues the confirmed or durable frontier and its headers carry ArbOS versions; the flags returned are those of the parent headers |
| PersistenceProxy.Proxy.Prepare | crates/arb-reth-engine/src/storage_v2.rs:221-354 | accepts exactly the preparable batches, returns the enriched blocks, and leaves the specified sidecar whether or not a wipe fails afterwards |
| PersistenceProxy.Proxy.SaveBlocks | crates/arb-reth-engine/src/storage_v2.rs:166-194 | fails closed: a batch that cannot be prepared never reaches the delegate and only the sidecar may have grown; a saved one moves sidecar, storage, headers, record and frontiers to the state the run theorems are about |
| PersistenceProxy.Proxy.RemoveBlocksAbove | crates/arb-reth-engine/src/storage_v2.rs:195-205 | an answered removal leaves the delegate at the given block and moves both frontiers there; an unanswered one stops the proxy |
| PersistenceRuns.ValidatedIff | crates/arb-reth-engine/src/storage_v2.rs:108-134 | once the frontiers are the durable tip, a batch passes validation exactly when it builds on that tip block by block |
| PersistenceRuns.ProxyDecides | crates/arb-reth-engine/src/storage_v2.rs:221-354 | with a sound sidecar the proxy hands on exactly the batches that continue the tip, carry ArbOS headers and can be enriched, and never refuses one as corrupt |
| PersistenceRuns.AcceptedBatchUnwinds | crates/arb-reth-engine/src/storage_v2.rs:221-354 | every batch the proxy accepts, from any state, can be unwound to the storage before it or to that of any of its blocks, given sound execution reverts |
| PersistenceRuns.UpgradingFlags | crates/arb-reth-engine/src/storage_v2.rs:553-584 | with non-decreasing ArbOS versions the legacy flags form a prefix |
| PersistenceRuns.DeliveredBatchIsSaved | crates/arb-reth-engine/src/storage_v2.rs:166-194 | a batch as execution delivers it is never refused, and saving it keeps the state invariant |
| PersistenceRuns.RemovalUnwinds | crates/arb-reth-engine/src/storage_v2.rs:195-205 | a removal leaves the storage unwound over exactly the removed blocks |
| PersistenceRuns.RemovalKeepsInvariant | crates/arb-reth-engine/src/storage_v2.rs:195-205 | a removal down to any recorded block keeps the state invariant, coverage of a legacy tip included |
| PersistenceRuns.RunKeepsInvariant | crates/arb-reth-engine/src/storage_v2.rs:163-213 | over any mix of saves and removals no request is refused, every state a removal can reach stays covered while it is legacy, and the recorded changesets lead back to the starting storage |
| PersistenceRuns.RunThenRemoval | crates/arb-reth-engine/src/storage_v2.rs:163-213 | removing everything a run added restores storage, tip and record |
| EngineDriver.ArbEngineDriver.AdvanceWithApplied | crates/arb-reth-engine/src/engine.rs:1567-1625 | one call moves cursor, buffer, tip, callbacks and the request in flight as specified, errors included |
| EngineDriver.ArbEngineDriver.DrainPending | crates/arb-reth-engine/src/engine.rs:1596-1614 | drains the buffer while the next sequence is present |
| EngineDriver.ArbEngineDriver.ApplyOneNative | crates/arb-reth-engine/src/engine.rs:1628-1714 | builds on the tip, settles the earlier request first and queues the new block |
| EngineDriver.ArbEngineDriver.SettlePendingApplied | crates/arb-reth-engine/src/engine.rs:1812-1875 | waits for the request in flight; success reports the block, failure keeps it unreported |
| EngineDriverRuns.AdvanceTraffic | crates/arb-reth-engine/src/engine.rs:1664-1713 | no call ever has two final forkchoice requests in flight, failing calls included |
| EngineDriverRuns.AdvanceKeeps | crates/arb-reth-engine/src/engine.rs:1567-1625 | a call keeps the driver sound, and one that does not defer leaves nothing in flight and every block reported |
| EngineDriverRuns.AdvanceReconciles | crates/arb-reth-engine/src/engine.rs:1502-1504 | at every return, errors included, the cursor is tip - genesis + 1 |
| EngineDriverRuns.RunKeeps | crates/arb-reth-engine/src/engine.rs:1567-1625 | for any interleaving, duplication and reordering of agreeing copies: blocks once each in consecutive order, callbacks an ascending prefix lagging by at most one, none after a call without deferral |
| EngineDriverRuns.RunsBuildOneChain | crates/arb-reth-engine/src/engine.rs:1567-1625 | of two runs of agreeing copies, failing or not, the one with the lower cursor built a prefix of the other's chain; equal cursors mean equal tips and chains |
| EngineDriverRuns.ChainBlocksConsecutive | crates/arb-reth-engine/src/engine.rs:1793-1809 | the produced blocks carry consecutive sequence and block numbers |
| EngineDriverCursor.AdvanceMoves | crates/arb-reth-engine/src/engine.rs:1585-1614 | a call adds its message unless the buffer overflows and moves the cursor only over held messages |
| EngineDriverCursor.RunHolds | crates/arb-reth-engine/src/engine.rs:1585-1614 | over a run, what is held at the end is what was held or delivered, except what overflowed |
| EngineDriverCursor.FinalCursor | crates/arb-reth-engine/src/engine.rs:1585-1614 | the final cursor is the least undelivered sequence if and only if the message at it never overflowed; always when nothing overflowed |
| EngineDriverCursor.OrderedStreamReachesItsEnd | crates/arb-reth-engine/src/engine.rs:1585-1614 | an ordered L1 stream among the calls drives the cursor to its end even when the buffer overflows |
| Ingress.Extend | crates/arb-reth-node/src/launcher.rs:700-735 | a batch is its first message followed by everything buffered and then queued, in order, up to 64; a closed channel is noticed exactly when the batch stopped short |
| Ingress.IngressScheduler.TryFillHead | crates/arb-reth-node/src/launcher.rs:613-642 | takes one message as pending head if there is none; a disconnected channel closes the source |
| Ingress.IngressScheduler.WaitForHead | crates/arb-reth-node/src/launcher.rs:644-667 | fills exactly one head from an open channel that answers |
| Ingress.IngressScheduler.PollNextBatch | crates/arb-reth-node/src/launcher.rs:669-736 | one poll: ready batch, ready end or pending, with heads, buffer and channels as specified |
| Ingress.IngressScheduler.CompleteBatch | crates/arb-reth-node/src/launcher.rs:738-749 | the source owed next after a batch |
| Ingress.IngressScheduler.CloseL1Input | crates/arb-reth-node/src/launcher.rs:596-611 | closing keeps exactly the queued messages at or below the bound, in order |
| IngressRuns.PollHandsOut | crates/arb-reth-node/src/launcher.rs:669-736 | a batch is the front of the chosen source's stream; the other stream is untouched |
| IngressRuns.PollKeeps | crates/arb-reth-node/src/launcher.rs:669-736 | polling keeps the scheduler coherent and never changes whose turn it is |
| IngressRuns.PollWithoutBatch | crates/arb-reth-node/src/launcher.rs:669-736 | no batch is left exactly when both streams are empty and closed; pending exactly when both are empty and one is open |
| IngressRuns.CancelledPollRestarts | crates/arb-reth-node/src/launcher.rs:644-667 | dropping a pending poll is harmless: polling afresh gives the batch and state of resuming |
| IngressRuns.CloseKeepsUpTo | crates/arb-reth-node/src/launcher.rs:596-611 | after closing, the L1 stream is exactly the earlier one restricted to the bound and the feed is untouched |
| IngressRuns.RunBalances | crates/arb-reth-node/src/launcher.rs:596-736 | over any run of sends, polls, cancellations and closes, output followed by what is held is exactly what was accepted, per source and in order, less what the close discards above the bound |
| IngressRuns.ClosedOutputIsFixed | crates/arb-reth-node/src/launcher.rs:596-611 | once the L1 input is closed nothing more is accepted and its total output never changes again |
| IngressRuns.OutputAfterClose | crates/arb-reth-node/src/launcher.rs:596-736 | after a close the remaining L1 output is the queued messages at or below the bound, all handed out once a poll reports the end |
| DriveLoop.GateMatchesBound | crates/arb-reth-node/src/launcher.rs:345-416 | the hand-off gate admits a message exactly when it is at or below the bound used for closing, and then its block is at or below the frontier |
| DriveLoop.LoopReconciles | crates/arb-reth-node/src/launcher.rs:1094-1214 | in every run of the loop, in either mode and with errors, the cursor is tip - genesis + 1 and each block carries genesis + sequence as its number |
| DriveLoop.NoBlockAboveFrontier | crates/arb-reth-node/src/launcher.rs:1094-1214 | in every finite run, whatever the race between closing and selection, the tip and every block built have numbers at or below the frontier, and nothing above it is buffered |
| FiniteRun.RunKeepsLedger | crates/arb-reth-node/src/launcher.rs:1094-1214 | every step of the finite loop keeps the ledger of accepted, delivered and held messages |
| FiniteRun.FinalTipIsFrontier | crates/arb-reth-node/src/launcher.rs:1094-1214 | if all sequences up to the frontier were sent in order before the close and the loop ended normally, the tip is exactly the frontier |
| Fairness.AwaitedMessageMovesCursor | crates/arb-reth-engine/src/engine.rs:1567-1625 | no call moves the cursor back, and a successful call with the awaited message moves it forward |
| Fairness.FeedHeadBypassBound | crates/arb-reth-node/src/launcher.rs:669-749 | in every run of the drive loop, errors included, a feed head at f with cursor n is bypassed by at most max(0, f - n) + 1 L1 batches, one less when the feed is owed |
| Fairness.L1HeadBypassBound | crates/arb-reth-node/src/launcher.rs:669-749 | in every run of the drive loop, errors included, a waiting L1 head is bypassed by at most one feed batch of at most 64 messages, and by none when L1 is owed |
| SequenceRace.SequenceRaceState.ObserveSequence | crates/arb-reth-node/src/feed.rs:266-288 | observing a copy moves cursor and memory as specified and says whether it is the first |
| SequenceRace.EvictionSpares | crates/arb-reth-node/src/feed.rs:253-288 | eviction spares everything at or above the cursor if and only if that fits the bound of 16384 |
| SequenceRace.RunIsConservative | crates/arb-reth-node/src/feed.rs:253-288 | the resume cursor is monotone and everything below it was forwarded, over any run |
| SequenceRace.SeeRemembersIff | crates/arb-reth-node/src/feed.rs:253-288 | a copy is remembered if and only if what is retained at or above the cursor fits the bound |
| SequenceRace.AtMostOnce | crates/arb-reth-node/src/feed.rs:253-288 | as long as it fits, every sequence is forwarded at most once |
| SequenceRace.OverflowForwardsAgain | crates/arb-reth-node/src/feed.rs:253-288 | the first copy that does not fit makes some sequence forwardable a second time |
| SequenceRace.CoordinatorKeeps | crates/arb-reth-node/src/feed.rs:296-337 | over any run of the coordinator the published cursor is monotone and never passes what was taken |
| SequenceRace.PublishedAgainstSent | crates/arb-reth-node/src/feed.rs:302-323 | the published cursor is ahead of the output if and only if the message in flight lies below it and was not sent before |
| SequenceRace.PublishedBeforeSent | crates/arb-reth-node/src/feed.rs:302-323 | an instance in which the cursor is published before the message is sent |
| TxOrdering.Produce | crates/arb-reth-engine/src/engine.rs:464-588 | the queue loop, with senders recovered up front, is the fold the order theorems are about |
| TxOrdering.LoopRunsGeneration | crates/arb-reth-engine/src/engine.rs:464-588 | the queue runs one generation of retries before those it schedules |
| TxOrdering.LoopRunsCascade | crates/arb-reth-engine/src/engine.rs:464-588 | a full retry cascade is drained before the next user transaction |
| TxOrdering.LoopIsBlockOrder | crates/arb-reth-engine/src/engine.rs:402-588 | the included order is the recursive specification: start-block transaction and its cascade, then each user transaction and its cascade; invalid ones dropped; same first error as serial sender recovery |
| TxOrdering.LoopIsDense | crates/arb-reth-engine/src/engine.rs:464-588 | included transactions are indexed densely from zero |
| TxOrdering.LoopSettles | crates/arb-reth-engine/src/engine.rs:464-588 | a larger budget never changes a settled order |
| Rlp.DecodesIffEncoded | crates/arb-reth-derive/src/batch.rs:193-210 | the strict RLP string decoder accepts exactly the canonical encoding followed by the rest |
| Rlp.U64RoundTrip | crates/arb-reth-derive/src/multiplexer.rs:126-128 | every 64-bit integer is decoded from its encoding |
| BlobCodec.SparesDrain | crates/arb-reth-derive/src/blob.rs:62-74 | every four field elements yield three bytes and the accumulator ends empty, whatever the blob holds |
| BlobCodec.DecodeBlob | crates/arb-reth-derive/src/blob.rs:47-78 | both passes over a blob give its bodies followed by its spare bytes, 130048 in all, with no spare bits left |
| BlobCodec.DecodeBlobs | crates/arb-reth-derive/src/blob.rs:47-82 | decoding is RLP decoding of all blobs' data, and the spare-bit error never occurs |
| BlobCodec.SparesRoundTrip | crates/arb-reth-derive/src/blob.rs:93-133 | the 6-bit packing and its inverse agree for every payload of whole groups |
| BlobCodec.BlobRoundTrip | crates/arb-reth-derive/src/blob.rs:93-133 | one blob gives back exactly the chunk it was made of |
| BlobCodec.BlobsRoundTrip | crates/arb-reth-derive/src/blob.rs:47-133 | every payload survives packing into any number of blobs |
| BlobCodec.HeaderedRoundTripIff | crates/arb-reth-derive/src/blob.rs:93-133 | with an unconditional length header the round trip holds if and only if the payload is not one byte below 0x80 |
| BatchFraming.ParseSegments | crates/arb-reth-derive/src/batch.rs:193-210 | the loop over the shrinking buffer is the recursive parse |
| BatchFraming.ParsesConcatenation | crates/arb-reth-derive/src/batch.rs:193-210 | parsing a concatenation of RLP strings returns its non-empty items in order |
| BatchFraming.ParsedIsConcatenation | crates/arb-reth-derive/src/batch.rs:193-210 | whatever parses is a concatenation of canonical strings, so nothing else is accepted |
| BatchFraming.BatchRoundTrip | crates/arb-reth-l1/src/lib.rs:129-148 | any list of segments survives concatenation, compression, flagging, blob packing and decoding |
| BatchFraming.HeaderRoundTrip | crates/arb-reth-derive/src/batch.rs:47-63 | the 40-byte header is parsed back with the payload behind it |
| Multiplexer.TakeSegment | crates/arb-reth-derive/src/multiplexer.rs:65-105 | one turn of the segment loop, errors included |
| Multiplexer.ExtractMessages | crates/arb-reth-derive/src/multiplexer.rs:48-124 | the two loops are the fold the meaning theorems are about |
| MultiplexerMeaning.ExtractMeans | crates/arb-reth-derive/src/multiplexer.rs:48-124 | extraction succeeds if and only if every segment decodes, the named reads fit and every promised index can be read, and then emits the named messages followed by the forced tail |
| MultiplexerMeaning.DelayedOnceEach | crates/arb-reth-derive/src/multiplexer.rs:87-121 | the delayed messages emitted are exactly before..after-1, once each and ascending |
| MultiplexerMeaning.CursorAscends | crates/arb-reth-derive/src/multiplexer.rs:87-121 | the read cursor on the messages never decreases and stays between before and after |
| MultiplexerMeaning.SequencerMessage | crates/arb-reth-derive/src/multiplexer.rs:65-86 | a sequencer message stands right after those of earlier segments; its time and L1 block are the clamp of the sum, modulo 2^64, of earlier advances |
| MultiplexerMeaning.DelayedIsEmitted | crates/arb-reth-derive/src/delayed.rs:60-78 | every index between the cursors is emitted with its own kind, sender, block, time, data, base fee, request id and the cursor just past it |
| MultiplexerMeaning.RequestIdIdentifies | crates/arb-reth-derive/src/delayed.rs:60-63 | the 32-byte request id determines the delayed index |
| MultiplexerMeaning.ExtractReads | crates/arb-reth-derive/src/delayed.rs:129-138 | outcome and messages depend on the delayed source only between the two cursors |
| L2Message.ParsedL2.ParseInto | crates/arb-reth-derive/src/l2message.rs:54-90 | the recursion appends to the collector as the functional parser says, errors included |
| L2Message.ParsedL2.ParseBatch | crates/arb-reth-derive/src/l2message.rs:63-83 | the frame loop, stopping quietly at a cut-off or oversized frame |
| L2Message.ParseMeans | crates/arb-reth-derive/src/l2message.rs:54-90 | parsing the encoding of any message tree gives its meaning, errors included |
| L2Message.EveryInput | crates/arb-reth-derive/src/l2message.rs:48-90 | every byte string is the encoding of a well-formed tree, so the parser is described on every input |
| L2Message.ParseFlattens | crates/arb-reth-derive/src/l2message.rs:48-90 | the left-to-right flattening and the count of unsigned leaves up to 16 nested batches; past that, and only there, the message is refused as too deep |
| DelayedCache.DelayedCache.ScanRange | crates/arb-reth-l1/src/sync.rs:210-232 | the chunk loop asks from the top down as specified, adds what is returned and extends the scanned interval |
| DelayedCache.DelayedCache.CoverIndices | crates/arb-reth-l1/src/sync.rs:241-282 | one call: forward extension, backward walk, answer and pruning as specified; it terminates |
| DelayedCacheRuns.ChunksPartition | crates/arb-reth-l1/src/sync.rs:217-228 | the chunks ask for every block of the range once and for no other |
| DelayedCacheRuns.ScanIs | crates/arb-reth-l1/src/sync.rs:210-232 | scanning a range chunk by chunk holds exactly what one request for the whole range would return |
| DelayedCache.FetchCovering | crates/arb-reth-l1/src/sync.rs:106-144 | the uncached backward scan, with both error cases |
| DelayedCacheRuns.ScanKeeps | crates/arb-reth-l1/src/sync.rs:188-232 | a scan next to the interval keeps it hole-free, sound and complete |
| DelayedCacheRuns.CoverMeans | crates/arb-reth-l1/src/sync.rs:241-282 | a call succeeds if and only if every needed message is delivered by the top block, then returns L1's messages of the range, and keeps the invariant either way |
| DelayedCacheRuns.UncachedMeans | crates/arb-reth-l1/src/sync.rs:106-144 | the uncached scan succeeds if and only if everything needed is delivered, and then holds it |
| DelayedCacheRuns.CallAgreesIff | crates/arb-reth-l1/src/sync.rs:106-283 | an answer is the uncached one if and only if no needed message lies between the call's last block and the highest block scanned; always when the uncached scan succeeds |
| DelayedCacheRuns.RunAgrees | crates/arb-reth-l1/src/sync.rs:179-283 | over any run with non-decreasing needs, window ends moving either way: no hole, no block fetched twice, the uncached answer wherever the uncached scan succeeds, and agreement of each answer under exactly the condition of CallAgreesIff |
| DelayedCacheRuns.ForwardRunAgrees | crates/arb-reth-l1/src/sync.rs:179-283 | when the window ends do not move back every answer is the uncached one restricted to the needed indices |
| DelayedCacheRuns.MovedBackDisagrees | crates/arb-reth-l1/src/sync.rs:241-282 | an instance in which the window end moves back, the cache answers and the uncached scan fails |
| Derivation.SerializedIdentifies | crates/arb-reth-l1/src/batch_serialize.rs:25-47 | the serialized bytes a report hashes determine the batch's header and its footprint on chain |
| Derivation.ReportFields | crates/arb-reth-l1/src/batch_serialize.rs:62-74 | data hash and batch number are read from where a report of the documented layout carries them |
| Derivation.BatchToFeedMessages | crates/arb-reth-l1/src/assemble.rs:53-69 | one batch's messages, numbered from the given start, with statistics on reports |
| Derivation.AssembleFeedMessages | crates/arb-reth-l1/src/assemble.rs:92-113 | the assembly loop over statistics, cursor, numbering and output |
| Derivation.ReportCache.SeedReportStats | crates/arb-reth-l1/src/sync.rs:376-401 | the seeding loop over delayed messages, with cache hits, lookups and errors |
| Derivation.ReportCache.Record | crates/arb-reth-l1/src/sync.rs:346-353 | records a window's own batches without disturbing known hashes |
| Derivation.DeriveFromResolved | crates/arb-reth-l1/src/sync.rs:324-370 | one window: result and both caches afterwards, errors included |
| WindowDerivation.StatsForHashed | crates/arb-reth-l1/src/batch_serialize.rs:49-60 | the statistics of a batch are determined by its data hash |
| WindowDerivation.DecodedElement | crates/arb-reth-l1/src/lib.rs:129-148 | every decoded message is a sequencer message or a delayed one from between the batch's cursors |
| WindowDerivation.DecodeReads | crates/arb-reth-l1/src/lib.rs:129-148 | decoding a batch depends on the delayed source only between its cursors |
| WindowDerivation.IdealSplits | crates/arb-reth-l1/src/assemble.rs:92-113 | deriving two lists one after the other is deriving their concatenation |
| WindowEquivalence.AssembleIdeal | crates/arb-reth-l1/src/assemble.rs:92-113 | assembly over any source and seed that answer as L1 does gives the ideal messages, numbered from zero |
| WindowEquivalence.SeedSucceeds | crates/arb-reth-l1/src/sync.rs:376-401 | seeding answers every report that names no batch of the window, consistently with the hash |
| WindowEquivalence.DeriveIdeal | crates/arb-reth-l1/src/sync.rs:324-370 | one window on caches left by earlier ones gives its ideal messages and leaves caches ready for the next |
| WindowEquivalence.WindowsMatchOneCall | crates/arb-reth-l1/src/sync.rs:319-401 | however a batch list is cut into windows, messages apart from numbering, final cursor and error are those of one call |
| ReportPrecedence.AssembledReportsAreKnown | crates/arb-reth-l1/src/assemble.rs:29-45 | an assembly that succeeds had every report's statistics when it reached the batch that reads it |
| ReportPrecedence.SeedAvoidsOwnBatches | crates/arb-reth-l1/src/sync.rs:383-390 | seeding never answers for a batch of the window itself |
| ReportPrecedence.SuccessNeedsPrecedence | crates/arb-reth-l1/src/sync.rs:324-401 | a call succeeds only if every report it reads that names batches of its own list names one no later than the batch reading it |
| WindowSuccess.SucceededIdeal | crates/arb-reth-l1/src/assemble.rs:92-113 | an assembly that succeeds on consistent statistics has produced the ideal messages |
| WindowSuccess.WindowsSucceeded | crates/arb-reth-l1/src/sync.rs:319-401 | windows that succeed, whatever L1 answered and when, have derived the ideal messages of the whole list |
| WindowSuccess.OneCallAgreesIff | crates/arb-reth-l1/src/sync.rs:319-401 | given that the windows succeed, one call succeeds if and only if everything needed is delivered by its last block and no report names a batch later than the one reading it, and then messages and cursor are the same |
| WindowSuccess.WindowsSucceedWhereOneCallFails | crates/arb-reth-l1/src/sync.rs:319-401 | two windows succeed where one call on the same two batches fails, whenever the first batch reads a report on the second that L1 can look up |
| WindowSuccess.ReportAheadExists | crates/arb-reth-l1/src/sync.rs:376-401 | such batches exist |
| SnapshotCodec.UvarintBack | crates/arb-reth-genesis/src/snapshot_stream.rs:506-522 | every 64-bit varint is read back, whatever follows it |
| SnapshotCodec.WriteUvarint | crates/arb-reth-genesis/src/snapshot_stream.rs:713-719 | the writing loop appends the specified varint |
| SnapshotCodec.ParseUvarint | crates/arb-reth-genesis/src/snapshot_stream.rs:506-522 | the reading loop, refusing an eleventh byte and losing bits past 64 |
| SnapshotCodec.U256Back | crates/arb-reth-genesis/src/snapshot_stream.rs:532-538 | a trimmed 256-bit integer is read back |
| SnapshotRecords.AccountsBack | crates/arb-reth-genesis/src/snapshot_stream.rs:338-367 | history accounts with their slots are read back |
| SnapshotRecords.HeadBack | crates/arb-reth-genesis/src/snapshot_stream.rs:304-309 | a history object's head is read back |
| SnapshotStream.SnapshotReader.NextRecord | crates/arb-reth-genesis/src/snapshot_stream.rs:193-273 | the section loop returns the specified record, end or error and leaves the specified reader |
| SnapshotStream.SnapshotReader.Unread | crates/arb-reth-genesis/src/snapshot_stream.rs:187-190 | the record handed back is the next one returned and nothing else changes |
| SnapshotStream.SnapshotReader.CheckHistoryMeetsState | crates/arb-reth-genesis/src/snapshot_stream.rs:378-397 | succeeds if and only if the last history object ends at the manifest's block and root, telling a wrong block from a wrong root |
| SnapshotStream.Open | crates/arb-reth-genesis/src/snapshot_stream.rs:140-176 | magic, manifest tag and manifest, or the error |
| SnapshotStream.ParentIsFirst | crates/arb-reth-genesis/src/snapshot_stream.rs:447-492 | in any header encoded as an RLP list the first 32-byte string is found as the parent hash |
| SnapshotStream.TaggedSection | crates/arb-reth-genesis/src/snapshot_stream.rs:220-272 | a record read in a section belongs to it and has passed its check |
| SnapshotRuns.ReadIsChecked | crates/arb-reth-genesis/src/snapshot_stream.rs:193-273 | whatever is read to its end is in section order and passes every check |
| SnapshotRuns.ChecksMean | crates/arb-reth-genesis/src/snapshot_stream.rs:276-336 | the checks pass if and only if headers are hashed, consecutive and linked, history is chained, and code hashes to its key |
| SnapshotRuns.LinkedConsecutive | crates/arb-reth-genesis/src/snapshot_stream.rs:276-301 | linked headers have consecutive numbers and each names its predecessor's hash as parent |
| SnapshotRuns.ChainedRoots | crates/arb-reth-genesis/src/snapshot_stream.rs:322-336 | chained history objects advance and start at the root the one before ended at |
| SnapshotRuns.ReadStreamIsSound | crates/arb-reth-genesis/src/snapshot_stream.rs:140-397 | any bytes read to their end give blocks before history before state, linked and chained; the final check holds if and only if the history ends at the manifest's block and root |
| SnapshotRuns.WriteStream | crates/arb-reth-genesis/src/snapshot_stream.rs:558-706 | the builder, section by section and hashing headers and code itself, produces the bytes of the stream theorem |
| SnapshotRuns.SectionBack | crates/arb-reth-genesis/src/snapshot_stream.rs:606-699 | a run of written records is read back, up to the outcome of the checks |
| SnapshotRuns.BuiltStreamIsRead | crates/arb-reth-genesis/src/snapshot_stream.rs:558-724 | every built stream opens with its manifest and its records are read back exactly if they are linked and chained; otherwise the first failed check is reported |
| SnapshotRuns.BuilderStreamIsRead | crates/arb-reth-genesis/src/snapshot_stream.rs:558-724 | what the builder wrote, with the hashes it computed, is read back to its end if and only if headers link and history chains |

## Left out

- RPC, WebSocket, beacon and socket I/O: fetches are oracles, and a failed fetch is not a step of the cache's runs.
- The engine tree, the database, trie roots and the persistence service: only request order and their success or failure appear.
- EVM execution, ArbOS handlers and header assembly: execution is an abstract function, so the transaction theorems carry a budget and hold for every budget.
- The partial state/trie frontier with masking blocks: database tip and state/trie tip are equal, with one revert transition per block.
- An empty persistence batch: the code's flag computation panics on it, the model returns an error.
- Metrics, timing, tracing, thread joins, shutdown and the completion plumbing of finite runs.
- ABI and JSON parsing, calldata selectors, RPC converters and command-line code: thin field mapping.
- Brotli, keccak and KZG: uninterpreted, with injectivity or a left inverse as the only assumptions.
- Accumulator hashing of delayed messages and `verify_accumulator_chain`: not used by the cache or the multiplexer.
- `transactions_root` and the other fields of a snapshot header: only the parent hash is used by the reader's checks.
- Snapshot header numbers at 2^64 - 1: the code's `last_number + 1` overflows there, the model reports a jump.
- A snapshot header whose first field is a string of another length than 32 bytes: the code panics while it formats the error, the model returns it.
- A removal below the oldest block whose changeset the model has recorded: the run theorems speak of removals within the record.
- A snapshot code hash that is neither empty nor 32 bytes: the code panics, the model returns an error.
- SnapshotStream.SnapshotReader.NextRecord: says nothing about the reader's position after an error, because the importer abandons the stream.
- WindowEquivalence.WindowsMatchOneCall: speaks of runs in which the delayed messages a window reads are delivered by its last block, cursors never decrease, no report names a later batch, and L1 answers for reports on batches outside the list; WindowSuccess.OneCallAgreesIff needs none of these of windows that succeed, except ascending cursors.
- SequenceRace.AtMostOnce: speaks of runs within the memory bound; OverflowForwardsAgain shows the bound is needed.
