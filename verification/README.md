# A verified model of the Bitcoin chain graph ingester

The program reads Bitcoin blocks and writes them to a graph store: blocks, transactions, outputs,
inputs and two aggregated relationships per address (PERFORMS for spending, BENEFITS_TO for
receiving). To be fast it ingests many blocks per transaction, one kind of row at a time, and keeps
recent outputs in a sharded LRU cache so that input amounts can be resolved without a query. To be
safe it checkpoints, rolls back, repairs itself after a crash and follows chain reorganisations.
This project models that logic and proves that the fast path means what the slow one means and that
the recovery protocol keeps the store a single, complete chain.

Check everything with `dafny verify --resource-limit 2000000 dfyconfig.toml`.

## The model

**Values.** `Types` holds machine-width integers, outpoints and cached outputs. `Chain` holds blocks
as the parser delivers them and the rows each table gets from them. What the program computes from a
script (its type and address) is part of an output; columns that are copied unread are one opaque
field.

**Cache.** `Lru` is one shard: a most-recent-first list of distinct keys with a capacity. `Cache` has
the sixteen shards twice: as a value with one function per operation, and as the class `UtxoCache`,
whose methods change their fields and are proved against those functions. The batched operations
regroup their keys by shard; `RegroupingIsInvisible` shows that contents, recency order and counters
come out as if the keys had been taken one by one. `Sharding` says which keys share a shard.
`Coherence` says when a cache tells the truth:
`out` is a ghost map from outpoints to outputs (a txid determines its outputs). With `exact` every
field is right; without it, as for prewarmed entries, the amount is. `SnapshotFile` is the binary
snapshot, `CacheRuns` whole lifetimes of a cache with restarts and reloads, `Prewarming` the backward
walk that fills the cache without evicting.

**Store.** `Writer.MockWriter` is the table store with the transaction semantics of the mock writer:
begin saves table lengths, rollback truncates to them, a failed commit rolls back. Each fallible
call may fail at any time, so every theorem about a method covers every pattern of failures. A ghost
`log` counts what failed: calls, rollbacks, relationship writes, and output lookups that ran inside a
transaction. It lets a contract say why something was left: `Explains` states that a transaction is
still open if and only if one rollback has failed, and that tasks are left only if a relationship
write has failed. `Over` says what the tables then are: the last committed ones and rows appended by
what is still under way.

**Ingestion.** `Chunking` is the greedy split by estimated memory. `Aggregation` groups amounts by
address. `RowMeaning` says row by row what the tables get, in terms of blocks, transactions, inputs
and outputs only. `Phase6` is the parallel write of relationships as interleaved queues, `BucketTasks` the
eight tasks on the store, awaited in order and left running when one has failed. `Ingestion` has the
phases, `CachePhases` what they do to the cache, and `Orchestration` the class that runs them: `IngestBlock` for one block,
`IngestBlocksBatch` for many. `Equivalence` runs both on equal stores.
`Refinement` compares stores: `View` keeps blocks, transactions, outputs and inputs in order, the two
relationships as multisets, and the checkpoint's height, hash and file; `Ingested` is what a list of
blocks adds phase by phase, `Sequential` what it adds block by block.

**Recovery.** `Resume` restarts after failures, `Recovery` rolls back and repairs, `CrashRecovery`
follows a single block from a stop after any of its seven writes through recovery, and `Live` finds
fork points and follows a canonical chain that may change from any call to the node to the next.
`LiveTables` says what all six tables hold after any number of its steps.

**Formats.** `BlockIndex` decodes the base-128 numbers and records of Bitcoin Core's block index;
`Encode` is Core's encoder, written here as the reference. `Framing` reads block files,
`LittleEndian` serves both file formats.

## What the code needs, and where it falls short of its comments

- The batch path skips an input it cannot resolve (src/domain/ingestion.rs:1139-1149), although the
  cache's comments call a miss an error. So a batch's `totalInput` never exceeds the truth
  (`RowsAreBounded`). `IngestChunk` says which inputs are resolved: those cached before, those in the
  output table, and those outputs of the chunk that outlive it in the cache. `HeldIff` and
  `CachedIffSurvives` say which these are, by the number of distinct other keys of the shard that
  come after the last insertion. `ChunkIsExactIff` shows that a chunk's transaction rows are the true
  ones if and only if every unresolved input is worth nothing, and `ChunkLosesAnInput` a chunk whose
  are not. Room for the chunk's distinct outputs is enough (`RoomIsEnough`) but more than is needed.
- Only the first block of a chunk has its parent checked (src/domain/ingestion.rs:774-777).
  `IngestWithRestarts` assumes that the blocks it is given are linked; the live loop passes one block
  at a time.
- A Phase 6 task outlives the failure of another one (src/domain/ingestion.rs:1255-1275) and may
  write after the rollback. So a chunk is stored whole or not at all only if nothing is left under
  way; `RunBucketTasks` hands on the rows of the tasks that are left, and the batch and resume
  theorems carry them. The tasks are awaited in order, so when a bucket's failure is noticed those
  below have ended. `RollbackAlwaysHoldsIff` shows that no schedule breaks the rollback if and only
  if that bucket cannot fail, having no rows, or no later one has any; `LateRowOutlivesRollback` is an
  instance with two.
- `rollback_block` finds outputs, inputs and relationships through the block's transactions
  (src/writer/mock.rs:447-477). `RollbackInvertsIngestion` shows that rolling back undoes ingestion
  if and only if no older row names one of the removed txids; `DuplicateCoinbaseIsLost` is the case of
  a repeated coinbase, as in BIP 30.
- The comment on recovery speaks of inputs as well; the code counts transactions only
  (src/domain/ingestion.rs:448-525), and so does `Complete`. `BeforeIff` and `WholeIff` give, for a
  block stopped after any number of its writes, when recovery leaves the tables from before it and
  when the whole block. In between it leaves neither: a block that stopped before its inputs stays
  without them (`InputsAreNotMissed`), and outputs whose transactions were not yet written stay
  behind (`OutputsStayBehind`). `NoRowLeftIff` says when no row of a removed block is left.
- Recovery casts a checkpoint of -1 to an unsigned number and adds 1: `SyncCheckpointWithDb` has the
  overflow as an outcome of its own when overflow is checked, and the intended height 0 when it is not.
- A lost checkpoint write during a rollback leaves a gap that recovery does not close:
  `LostCheckpointWriteLeavesGap`.
- The live loop would step over a height for which the provider gives no block, and the block above
  it would pass the parent check: `SkippedHeightGoesUnnoticed`. The provider never answers so: it
  looks for the reason in the outermost error text only (src/parser/rpc_provider.rs:204-216), which
  is another; a height beyond the chain is an error, and an error ends the loop.
- The live loop looks at its stored chain only when there is a higher block to fetch. `TwoRoundsConverge`
  shows that two rounds with an unchanging chain bring the store to that chain if and only if the
  stored one was no longer than the target or already agreed there: after a reorganisation to a chain
  that is no longer, the stale tip stays until the chain grows (`StaleTipStays`).
- `parse_block_record` accepts a record with either status bit, although the comment asks for both
  (src/parser/block_index.rs:514-519): `DataFlagIsNotRequired`.
- The snapshot writes an address length cast to 16 bits (src/domain/utxo/cache.rs:866):
  `EntryRoundTripIff` shows that an entry survives if and only if its address is shorter than 65,536
  bytes and valid UTF-8.

## Model

| member | source | states |
|---|---|---|
| `Cache.ShardIndex` | src/domain/utxo/cache.rs:385-396 | a key's shard is one of the sixteen |
| `Sharding.OutputsOfOneTx` | src/domain/utxo/cache.rs:385-396 | two outputs of one transaction share a shard if and only if their numbers agree in the low four bits |
| `Sharding.OnlyMixedBytesCount` | src/domain/utxo/cache.rs:385-396 | of the txid only bytes 0, 7, 15, 23 and 31 count |
| `Sharding.EachMixedByteCounts` | src/domain/utxo/cache.rs:385-396 | each of these does: txids that agree on the other four share a shard if and only if its low four bits agree |
| `Sharding.ZeroBytes` | src/domain/utxo/cache.rs:385-396 | where these bytes are zero, the shard is the output number modulo 16 |
| `Lru.PutEffect` | src/domain/utxo/cache.rs:402-407 | putting keeps a shard valid, puts the key in front, invents no entry, and loses none while there is room |
| `Lru.PutOrder` | src/domain/utxo/cache.rs:402-407 | putting brings the key to the front and leaves the others in their order: without its old entry if it was held, without the oldest if it is new and the shard full |
| `Lru.TouchEffect` | src/domain/utxo/cache.rs:416-429 | a read changes neither the map nor the size of a shard |
| `Lru.TouchOrder` | src/domain/utxo/cache.rs:416-429 | reading a held key brings it to the front and leaves the others in their order; reading another changes nothing |
| `Lru.PopEffect` | src/domain/utxo/cache.rs:452-460 | removal takes out precisely the one key |
| `Lru.PopOrder` | src/domain/utxo/cache.rs:452-460 | what stays keeps its order |
| `Lru.HeldIff` | src/domain/utxo/cache.rs:402-407 | a key that was put is still held if and only if fewer distinct other keys than the shard has places were put after it last was |
| `Lru.HeldAfterUsesIff` | src/domain/utxo/cache.rs:402-429 | after any mixed run of puts and reads, a key that was put or hit is held if and only if fewer distinct other keys than the shard has places were put or hit after it last was |
| `Lru.ReadSaves` | src/domain/utxo/cache.rs:416-429 | with two places: put a, put b, read a, put c leaves c and a |
| `Lru.RecentKeysSurvive` | src/domain/utxo/cache.rs:402-407 | as long as the distinct keys put so far fit, they are precisely the newest entries of the shard |
| `Cache.InsertEffect` | src/domain/utxo/cache.rs:402-407 | an insertion makes its key readable with its value and changes no other value that is still cached |
| `Cache.StepEffect` | src/domain/utxo/cache.rs:416-460 | one read leaves the map alone, one removal takes out one key; capacities stay |
| `Cache.EachEffect` | src/domain/utxo/cache.rs:469-499 | the same for any list of keys, duplicates included |
| `Cache.Counting` | src/domain/utxo/cache.rs:217-235 | a read counts one hit or one miss, a removal what it removed, an insertion one in any case; no other counter moves |
| `Cache.CapacityIsShared` | src/domain/utxo/cache.rs:364-377 | each shard has a sixteenth of the capacity rounded down, and one place if that is none |
| `Cache.RegroupedPermutes` | src/domain/utxo/cache.rs:469-499 | visiting keys shard by shard loses no key and adds none |
| `Cache.EachStats` | src/domain/utxo/cache.rs:217-231 | the counters after a list of accesses are those of the accesses inside each shard added up |
| `Cache.RegroupingIsInvisible` | src/domain/utxo/cache.rs:469-499 | regrouped access leaves every shard's contents and order and all counters as access in request order does |
| `Cache.MissesPartition` | src/domain/utxo/cache.rs:469-499 | every requested key is either found or listed as missing as often as it was requested |
| `Cache.RegroupedFoundAndMissing` | src/domain/utxo/cache.rs:469-499 | found map and multiset of misses do not depend on the regrouping |
| `Cache.UtxoCache.constructor` | src/domain/utxo/cache.rs:364-377 | sixteen empty shards, each with a sixteenth of the capacity but at least one place |
| `Cache.UtxoCache.InsertOne` | src/domain/utxo/cache.rs:402-407 | the new state is the one insertion function's |
| `Cache.UtxoCache.Get` | src/domain/utxo/cache.rs:416-429 | returns the map's value and leaves the state of one read: the key in front, a hit or a miss counted |
| `Cache.UtxoCache.GetQuiet` | src/domain/utxo/cache.rs:436-447 | as a read but with all counters unchanged |
| `Cache.UtxoCache.Remove` | src/domain/utxo/cache.rs:452-460 | says whether the key was cached, and removes and counts it if so |
| `Cache.UtxoCache.GetMany` | src/domain/utxo/cache.rs:469-499 | state, counters, found map and misses are those of one read per key in request order |
| `Cache.UtxoCache.RemoveMany` | src/domain/utxo/cache.rs:621-640 | state and counters are those of one removal per key in request order |
| `Cache.UtxoCache.Contains` | src/domain/utxo/cache.rs:646-650 | true if and only if the map has the key |
| `Cache.UtxoCache.AdjustMisses` | src/domain/utxo/cache.rs:662-664 | takes the given number off the miss counter |
| `Cache.UtxoCache.RecordFallback` | src/domain/utxo/cache.rs:233-235 | counts one database fallback |
| `Cache.UtxoCache.InsertPrewarm` | src/domain/utxo/cache.rs:710-721 | inserts if and only if the target shard has room, and else changes nothing |
| `Cache.UtxoCache.HasCapacity` | src/domain/utxo/cache.rs:724-729 | true if and only if some shard has room |
| `Coherence.InsertStaysGood` | src/domain/utxo/cache.rs:402-407 | inserting a true value keeps a truthful cache truthful, evictions included |
| `Coherence.EachStaysGood` | src/domain/utxo/cache.rs:416-499 | reads and removals keep a truthful cache truthful |
| `Coherence.InsertedSurvive` | src/domain/ingestion.rs:1023-1035 | outputs of a chunk that fit their shards are all cached after the chunk's outputs went in |
| `Coherence.AllCachedIffRoom` | src/domain/ingestion.rs:1023-1035 | all keys of a list of insertions are cached afterwards if and only if each shard has room for its share |
| `Coherence.CachedIffSurvives` | src/domain/ingestion.rs:1023-1035 | which keys of a list of insertions are cached afterwards, whatever the cache held before: those followed by fewer distinct other keys of their shard than it has places |
| `SnapshotFile.SaveToFile` | src/domain/utxo/cache.rs:812-903 | the file is the header with entry count, height and checksum, then every entry, shard by shard, newest first |
| `SnapshotFile.ReadEntry` | src/domain/utxo/cache.rs:987-1052 | reads one entry field by field, or fails at the end of data or on a bad string |
| `SnapshotFile.LoadFromFile` | src/domain/utxo/cache.rs:913-1086 | a load that fails leaves the cache untouched; one that succeeds hands each shard its entries oldest first; which files load is said by the next four rows |
| `SnapshotFile.LoadsIffChecksumAgrees` | src/domain/utxo/cache.rs:1054-1065 | well-formed entries under any stored checksum load if and only if it is the checksum of their bytes |
| `SnapshotFile.OtherHeadersAreRejected` | src/domain/utxo/cache.rs:926-967 | data shorter than a header, with another magic, or with another version loads nothing |
| `SnapshotFile.CutFilesAreRejected` | src/domain/utxo/cache.rs:913-1065 | a saved file cut short anywhere loads nothing |
| `SnapshotFile.HeaderLayout` | src/domain/utxo/cache.rs:812-840 | magic, version, entry count, height and checksum stand at their offsets |
| `SnapshotFile.EntryLayout` | src/domain/utxo/cache.rs:842-879 | an entry's fields stand at their offsets, and a flag says whether an address follows |
| `SnapshotFile.EntryRoundTripIff` | src/domain/utxo/cache.rs:842-879 | an entry reads back, whatever follows, if and only if the format can represent its address |
| `SnapshotFile.EntriesRoundTrip` | src/domain/utxo/cache.rs:840-1052 | a list of entries reads back in order up to exactly where it ends |
| `SnapshotFile.FileRoundTrip` | src/domain/utxo/cache.rs:812-1065 | a saved file passes every check and gives the saved entries in order |
| `SnapshotFile.ReversedPutsRestore` | src/domain/utxo/cache.rs:1067-1075 | putting a shard's entries oldest first into an empty shard keeps the newest that fit, in the saved order |
| `SnapshotFile.SnapshotRestores` | src/domain/utxo/cache.rs:812-1086 | loading a saved file into an empty cache gives each shard its most recent entries, all of them when capacities are equal |
| `CacheRuns.OpKeepsInv` | src/domain/utxo/cache.rs:402-1086 | every operation keeps the cache and the file on disk truthful |
| `CacheRuns.EveryCachedValueIsTrue` | src/domain/utxo/cache.rs:402-1086 | after any sequence of insertions, prewarming, reads, removals, saves, loads, restarts and detected file damage, every cached value is the output its key names |
| `Prewarming.RoomyInsertKeeps` | src/domain/utxo/cache.rs:710-721 | an insertion into a shard with room evicts nothing |
| `Prewarming.FullInsertEvicts` | src/domain/utxo/cache.rs:402-407 | inserting a new key keeps all others if and only if its shard has room |
| `Prewarming.PrewarmCache` | src/parser/single_block_loader.rs:424-554 | on return n the outputs of the n blocks just below the start went in, nothing was evicted, all of them are cached, n is at most the limit, and the walk ended at a limit, a missing height or a full shard; it fails only if preloading fails or the next block cannot be loaded |
| `Prewarming.PrewarmedAmounts` | src/parser/single_block_loader.rs:484-532 | every prewarmed output is found with its amount |
| `Prewarming.BlockEntriesMean` | src/parser/single_block_loader.rs:484-532 | what a block feeds in is one entry per output of each of its transactions, with the output's number and value |
| `RowMeaning.FeedsAreTrue` | src/parser/single_block_loader.rs:484-532 | so what prewarming feeds in has the amounts of the blocks' own outputs |
| `Chunking.ComputeAdaptiveChunks` | src/domain/ingestion.rs:123-165 | the chunks are non-empty, contiguous and cover all blocks; each is within budget or one block; none could have taken the next block |
| `Chunking.LoadMeans` | src/domain/ingestion.rs:123-165 | the load of a chunk is the sum of its blocks' estimates |
| `RowMeaning.EstimateMeans` | src/domain/ingestion.rs:99-108 | a block's estimate is a fixed amount, and one per transaction, output and input row that it gives |
| `Chunking.GreedyStaysAhead` | src/domain/ingestion.rs:123-165 | after any number of chunks the greedy split has covered at least as much as any other |
| `Chunking.GreedyIsOptimal` | src/domain/ingestion.rs:123-165 | no other acceptable partition has fewer chunks |
| `Chunking.GreedyIsUnique` | src/domain/ingestion.rs:123-165 | the stated properties determine the chunks |
| `Aggregation.GroupIsPerAddress` | src/domain/ingestion.rs:1139-1149 | each address's group holds the count and amount of its own items, and only addresses with items have one |
| `Aggregation.GroupsConserve` | src/domain/ingestion.rs:1134-1163 | groups plus unaddressed items add up to everything, in count and amount |
| `Aggregation.ValueConservation` | src/domain/ingestion.rs:977-1170 | per transaction, PERFORMS rows plus unaddressed inputs sum to the total input, BENEFITS_TO rows plus unaddressed outputs to the total output, with one row per address |
| `Aggregation.AmountNeverExceeds` | src/domain/ingestion.rs:1139-1149 | a partly resolved input sum never exceeds the true one, and equals it when all keys are resolved |
| `Aggregation.AmountExactIff` | src/domain/ingestion.rs:1139-1149 | an input sum is the true one if and only if every key left unresolved is worth nothing |
| `Aggregation.TxRowsExactIff` | src/domain/ingestion.rs:1119-1170 | transaction rows are the true ones if and only if every spent key left unresolved is worth nothing |
| `Aggregation.RowsAreTrue` | src/domain/ingestion.rs:1119-1170 | with every input resolved exactly, relationship rows are those of the true outputs |
| `Aggregation.AmountsAreTrue` | src/domain/ingestion.rs:1119-1170 | with every amount right, transaction rows are those of the true outputs |
| `Aggregation.RowsAreBounded` | src/domain/ingestion.rs:1119-1170 | in any case each transaction row is right but for an input sum that is at most the true one |
| `Aggregation.DrainPerforms` | src/domain/ingestion.rs:1151-1160 | one PERFORMS row per group, no two for one address |
| `Aggregation.DrainBenefits` | src/domain/ingestion.rs:999-1007 | one BENEFITS_TO row per group, no two for one address |
| `Aggregation.SumInputs` | src/domain/ingestion.rs:1131-1163 | total input and PERFORMS rows of a transaction, unresolved keys skipped; `RowMeaning.PerformsOfOne` says which rows these are |
| `RowMeaning.PerformsOfOne` | src/domain/ingestion.rs:1131-1163 | a transaction has a PERFORMS row for an address if and only if some input of it spends a resolved output of that address; the row has the number of such inputs and the sum of their amounts |
| `RowMeaning.PerformsRowsMean` | src/domain/ingestion.rs:1119-1170 | in the rows of a list of transactions each such row occurs once per transaction it is about |
| `Aggregation.SumOutputs` | src/domain/ingestion.rs:981-1008 | output rows, total output and BENEFITS_TO rows of a transaction; `RowMeaning.BenefitsOfOne` says which rows these are |
| `RowMeaning.BenefitsOfOne` | src/domain/ingestion.rs:981-1008 | a transaction has a BENEFITS_TO row for an address if and only if some output of it pays that address; the row has the number of such outputs and the sum of their values |
| `RowMeaning.BenefitsRowsMean` | src/domain/ingestion.rs:977-1009 | in the rows of a list of transactions each such row occurs once per transaction it is about |
| `RowMeaning.TransactionRowsMean` | src/domain/ingestion.rs:1119-1170 | row by row and in order: txid, height, block hash, time, coinbase flag, what the resolved inputs spend, what the outputs pay, and the fee, which is 0 for a negative difference |
| `RowMeaning.PendingMean` | src/domain/ingestion.rs:1059-1094 | each transaction of each block is among those to write, with its block's height, hash and time |
| `RowMeaning.BlockRowsMean` | src/domain/ingestion.rs:940-953 | block rows in order, with the height, hash, time and transaction count of their blocks |
| `RowMeaning.OutputRowsMean` | src/domain/ingestion.rs:977-1009 | there is an output row for every output of every transaction, found under its txid and number, and no other |
| `RowMeaning.InputRowsMean` | src/domain/ingestion.rs:1206-1218 | there is an input row for every input of every transaction, and no other |
| `RowMeaning.SpentKeysMean` | src/domain/ingestion.rs:1059-1094 | the keys to look up are those that the inputs spend, none for a coinbase |
| `RowMeaning.CheckpointMeans` | src/domain/ingestion.rs:1304-1318 | the checkpoint names the height, hash and file of its block |
| `Writer.RestoreUndoesAppends` | src/writer/mock.rs:566-582 | truncating to the saved lengths undoes any appends and checkpoint writes |
| `Writer.FoundRowsMember` | src/writer/neo4j/queries.rs:242-251 | a batched lookup returns the rows of the table whose id was asked for |
| `Writer.MockWriter.LookupOutputsBatch` | src/writer/neo4j/queries.rs:242-251 | reads the output table, and records whether a transaction was open |
| `Writer.MockWriter.BeginTransaction` | src/writer/mock.rs:524-541 | saves the lengths and the checkpoint and opens a transaction, or fails and changes nothing |
| `Writer.MockWriter.CommitTransaction` | src/writer/mock.rs:543-564 | closes the transaction; a failed commit restores the saved state |
| `Writer.MockWriter.RollbackTransaction` | src/writer/mock.rs:566-582 | restores the saved state and closes the transaction, or fails and changes nothing |
| `Writer.MockWriter.RollbackBlock` | src/writer/mock.rs:447-477 | removes the block, its transactions and every row that names one of their txids, and nothing else |
| `Writer.MockWriter.CheckBlockComplete` | src/writer/mock.rs:584-604 | the recorded and the stored number of transactions at a height; an error when there is no block |
| `Writer.MockWriter.GetMaxBlockHeight` | src/writer/mock.rs:479-482 | the largest stored height, if any |
| `Writer.MockWriter.WriteBlocks` | src/writer/mock.rs:264-271 | appends the rows or fails and changes nothing |
| `Writer.MockWriter.WriteTransactions` | src/writer/mock.rs:273-280 | appends the rows or fails and changes nothing |
| `Writer.MockWriter.WriteOutputs` | src/writer/mock.rs:282-289 | appends the rows or fails and changes nothing |
| `Writer.MockWriter.WriteInputs` | src/writer/mock.rs:297-325 | appends the rows or fails and changes nothing |
| `Writer.MockWriter.WritePerforms` | src/writer/mock.rs:327-334 | appends the rows or fails and changes nothing |
| `Writer.MockWriter.WriteBenefitsTo` | src/writer/mock.rs:336-343 | appends the rows or fails and changes nothing |
| `Writer.MockWriter.UpdateCheckpoint` | src/writer/mock.rs:400-410 | replaces the checkpoint or fails and changes nothing |
| `Writer.MockWriter.LookupBlockHash` | src/writer/mock.rs:438-445 | the hash of the block stored at a height |
| `Phase6.PartitionByAddress` | src/domain/ingestion.rs:1642-1676 | each bucket holds the rows of its addresses in their order |
| `Phase6.BucketOrderIsKept` | src/domain/ingestion.rs:1239-1275 | under any schedule a bucket's rows are written in the bucket's order |
| `Phase6.OnlyTheBucketMatters` | src/writer/neo4j/queries.rs:186-211 | a relationship's final value depends only on the writes of its address's bucket |
| `Phase6.LastWriteWins` | src/writer/neo4j/queries.rs:186-211 | a written pair has the value of its last write, whether or not it existed |
| `Phase6.UnwrittenStays` | src/writer/neo4j/queries.rs:186-211 | a pair that is not written keeps its value or stays absent |
| `Phase6.WrittenKeys` | src/writer/neo4j/queries.rs:186-211 | the pairs afterwards are those before and those written |
| `Phase6.PerformsMerged` | src/writer/neo4j/queries.rs:186-194 | the last PERFORMS row for a pair gives it its count and amount |
| `Phase6.BenefitsMerged` | src/writer/neo4j/queries.rs:203-211 | the last BENEFITS_TO row for a pair gives it its count and amount |
| `Phase6.OthersStay` | src/writer/neo4j/queries.rs:186-211 | a pair for which the lists have no row stays as it was |
| `Phase6.MergedAgain` | src/writer/neo4j/queries.rs:186-194 | written again with other values, a pair takes the new ones |
| `Phase6.ScheduleIndependence` | src/domain/ingestion.rs:1239-1275 | under any interleaving of the queues, once all are empty the relationships are those of writing the unpartitioned lists in order, repeated pairs included |
| `Phase6.StoredRowsDecide` | src/domain/ingestion.rs:1239-1275 | the same for rows as the tables hold them: if each bucket's rows are there in the bucket's order, merging them gives the relationships of the unpartitioned lists |
| `Phase6.BucketsHoldAll` | src/domain/ingestion.rs:1642-1676 | the buckets together hold every row exactly as often as the list |
| `Phase6.RollbackHoldsIff` | src/domain/ingestion.rs:1268-1275 | for one run: after a failed bucket the restored tables stay as they were if and only if every other task that still runs had nothing left |
| `Phase6.RollbackAlwaysHoldsIff` | src/domain/ingestion.rs:1268-1275 | before any task starts: whenever a bucket's failure is noticed, those below having ended, and whatever runs on, the rollback holds, if and only if the bucket has nothing to write or no later one has |
| `Phase6.LateRowOutlivesRollback` | src/domain/ingestion.rs:1268-1275 | two rows in two of the eight buckets: the earlier one fails, and the later one's row, written late, outlives the rollback |
| `Refinement.PhasesCommuteWithBlocks` | src/domain/ingestion.rs:924-1323 | running the phases over a whole list of blocks adds the same as running all phases block by block |
| `Refinement.SequentialConcat` | src/domain/ingestion.rs:766-907 | ingesting chunk after chunk is ingesting the concatenation |
| `Refinement.ExactlyGrows` | src/domain/ingestion.rs:924-1323 | tables extended under truthful amounts grow by true rows with bounded sums |
| `Refinement.GrowsTransitive` | src/domain/ingestion.rs:766-907 | growth by one list of blocks and then another is growth by both |
| `Ingestion.BuildOutputs` | src/domain/ingestion.rs:977-1009 | output rows and BENEFITS_TO rows of a chunk, in chain order |
| `Ingestion.CollectPending` | src/domain/ingestion.rs:1059-1094 | the transactions of a chunk with their slices of the list of spent keys |
| `Ingestion.BuildTransactions` | src/domain/ingestion.rs:1119-1170 | transaction and PERFORMS rows of a chunk for given resolved outputs |
| `Ingestion.BuildInputs` | src/domain/ingestion.rs:1206-1218 | input rows of a chunk, in chain order |
| `Ingestion.GetManyWithFallback` | src/domain/utxo/cache.rs:549-618 | succeeds if and only if no call fails and every miss is in the store, with true results for all keys; the cache afterwards is the one after the batched read, with one fallback counted if there were misses and the stored ones inserted |
| `Ingestion.Supplement` | src/domain/ingestion.rs:1096-1111 | resolved afterwards are precisely the prefetched keys and those in the cache; the cache is left as by one uncounted read of each key not yet had |
| `Ingestion.PopulateCache` | src/domain/ingestion.rs:1023-1035 | inserts the chunk's outputs one by one and keeps the cache truthful |
| `BucketTasks.RunBucketTasks` | src/domain/ingestion.rs:1249-1275 | whichever task acts next, success has stored each bucket's rows in the bucket's order; a failure is noticed at a bucket that had rows, those below are stored, and of each bucket above the rows are stored, held by a task that still runs, or were never written because its task failed; late rows belong to later buckets only; the phase terminates |
| `BucketTasks.WriteSimplifiedLayer` | src/domain/ingestion.rs:1239-1275 | on success the stored rows are those of the two lists, in order within each bucket, and merged into any relationships they give what the unpartitioned lists give, in which the last row for a pair counts |
| `Orchestration.Orchestrator.GetResumeHeight` | src/domain/ingestion.rs:325-336 | the height after the checkpoint, or 0 |
| `Orchestration.Orchestrator.ValidateParentHash` | src/domain/ingestion.rs:543-573 | fails with both hashes if and only if the stored parent differs; passes at height 0 and when no parent is stored |
| `Ingestion.ParentCheckMeans` | src/domain/ingestion.rs:543-573 | the check fails if and only if a block is stored one below with another hash than the one claimed, and names the height and both hashes |
| `Orchestration.Orchestrator.Prefetch` | src/domain/ingestion.rs:787-854 | outside the transaction, resolves precisely the inputs that are cached or in the output table, truthfully; the cache afterwards has the stored misses inserted and the others taken off the miss counter |
| `Orchestration.Orchestrator.ProcessBatchChunk` | src/domain/ingestion.rs:924-1323 | on success the tables are extended by exactly the chunk's rows for the resolved inputs and the cache is that after its phases, spent outputs removed; in any case only appends occur |
| `Orchestration.Orchestrator.IngestChunk` | src/domain/ingestion.rs:766-907 | success adds exactly the chunk's rows for the resolved inputs, which are the cached, the stored and the surviving ones, and leaves the cache of `ChunkCached`; failure leaves the old tables but for what is still under way, a transaction whose rollback failed or tasks left by a failed relationship write |
| `Orchestration.Orchestrator.EndTransaction` | src/domain/ingestion.rs:874-906 | commits after success and otherwise restores the tables from before; the transaction stays open if and only if the rollback itself fails |
| `Orchestration.Orchestrator.IngestBlocksBatch` | src/domain/ingestion.rs:742-915 | however a batch ends, the last committed tables are the old ones plus a whole number of leading chunks, equal to block-by-block ingestion when the chunks find what they spend; a transaction is open only after a failed rollback, tasks are left only after a failed relationship write, no lookup ran inside a transaction, and without a failing call only the parent check can fail; on success the cache is that after all chunks |
| `Orchestration.Orchestrator.IngestBlock` | src/domain/ingestion.rs:672-723 | says how many of the block's seven writes were done and that the tables are those; all seven are one step of block-by-block ingestion with every input resolved and the cache that of `BlockCached` |
| `CachePhases.ChunkEffect` | src/domain/ingestion.rs:766-907 | after a committed chunk nothing that it spends is cached, and every other key is as it was when the chunk's outputs had been inserted; its unspent outputs are cached if and only if they survive that, and no other key becomes cached; removals grow by the number of distinct inputs that were cached |
| `CachePhases.ChunkCounts` | src/domain/ingestion.rs:787-1302 | what a committed chunk adds to each counter: hits and stored misses of the prefetch, insertions of these and of the outputs, removals of cached inputs |
| `CachePhases.BlockEffect` | src/domain/ingestion.rs:672-723 | after a block ingested on its own nothing that it spends is cached, and every other key is as it was when the inputs had been looked up, or, if all were cached, when its outputs had been inserted; removals grow by the number of distinct inputs that were cached |
| `CachePhases.BlockCounts` | src/domain/ingestion.rs:672-723 | what such a block adds to each counter: hits and misses of the lookup, insertions of outputs and stored misses, removals of cached inputs, and one fallback if there was a miss |
| `CachePhases.SpentStaysGone` | src/domain/ingestion.rs:742-915 | over a whole batch, what a chunk has spent is not cached at the end unless a later chunk creates the same key |
| `Orchestration.BatchStep` | src/domain/ingestion.rs:766-907 | one more chunk extends an ingested prefix |
| `Orchestration.ChunkIsExactIff` | src/domain/ingestion.rs:1119-1170 | a chunk's transaction rows are the true ones if and only if every input that is neither cached, nor stored, nor a surviving output of the chunk is worth nothing |
| `Orchestration.RoomIsEnough` | src/domain/ingestion.rs:1023-1111 | valid blocks whose chunks' distinct outputs fit their shards find everything they spend |
| `Overflow.ChunkLosesAnInput` | src/domain/ingestion.rs:1023-1163 | for any capacity, a block of a coinbase, a transaction with one output more than sixteen times the capacity of a shard, and one that spends the first of these, gets a wrong transaction row |
| `Equivalence.IngestOneByOne` | src/domain/ingestion.rs:672-723 | one call per block leaves exactly the blocks, in order, or some of them and the first writes of the next; it ends early only if a call failed |
| `Equivalence.BothWays` | src/domain/ingestion.rs:742-1323 | from equal stores, the batch with any memory budget whose greedy chunks fit the cache and block-by-block ingestion leave the same tables, relationship multisets and checkpoint; each succeeds unless one of its calls fails |
| `Resume.IngestWithRestarts` | src/domain/ingestion.rs:325-336 | over any number of restarts with arbitrary failures and any truthful caches, the last committed tables are always the first r blocks once each; a completed attempt gives the uninterrupted result; the run stops early only with a transaction left by a failed rollback or tasks left by a failed relationship write, and else every attempt that did not complete had a failing call |
| `Resume.ParentIsStored` | src/domain/ingestion.rs:543-573 | the block after an ingested prefix always passes the parent check |
| `Recovery.RollbacksCompose` | src/domain/ingestion.rs:605-643 | rolling back height by height removes exactly the range |
| `Recovery.RollbackInvertsIngestion` | src/domain/ingestion.rs:605-643 | after ingesting above f, rolling back to f restores all six tables if and only if no older row names one of the new txids |
| `Recovery.DuplicateCoinbaseIsLost` | src/domain/ingestion.rs:605-643 | rolling back a block that repeats an earlier coinbase deletes the earlier block's coinbase output |
| `Recovery.RollbackToHeight` | src/domain/ingestion.rs:605-643 | removes the range and puts the checkpoint at the fork point; when only the checkpoint write fails, the range is gone and the checkpoint as before |
| `Recovery.CheckpointAtFork` | src/domain/ingestion.rs:605-643 | the checkpoint then names the fork height and the hash stored there, if a block is stored there at all |
| `Recovery.HighestCompleteIs` | src/domain/ingestion.rs:465-486 | the recovered height is the highest complete one above the checkpoint, or the checkpoint |
| `Recovery.CompleteMeans` | src/writer/mock.rs:584-604 | a height is complete if and only if its block records as many transactions, and not none, as rows are stored for the height |
| `Recovery.CompletenessIsLocal` | src/writer/mock.rs:584-604 | rolling back one height does not change whether another is complete |
| `Recovery.SyncCheckpointWithDb` | src/domain/ingestion.rs:448-525 | returns the height after the recovered one and leaves the recovered tables, a missing checkpoint counting as -1; overflows, with the tables untouched, if and only if that is checked, the checkpoint is -1 and there are blocks; any other failure leaves only incomplete blocks taken off and the checkpoint as before |
| `Recovery.InterruptionDoesNotMatter` | src/domain/ingestion.rs:448-525 | recovery after a recovery that was cut short finds the same height and leaves the same tables as an uninterrupted one |
| `Recovery.RecoveryIsExact` | src/domain/ingestion.rs:448-525 | nothing at or above the returned height survives and the checkpoint names the height below it |
| `Recovery.RecoveryKeepsLowerRows` | src/domain/ingestion.rs:448-525 | rows belonging to the heights that stay are unchanged and in order if and only if none of them names a removed transaction |
| `Recovery.RecoveryIsIdempotent` | src/domain/ingestion.rs:448-525 | a second recovery changes nothing |
| `CrashRecovery.RecoveryLeaves` | src/domain/ingestion.rs:448-525 | the tables that recovery leaves of a block stopped after n of its seven writes |
| `CrashRecovery.BeforeIff` | src/domain/ingestion.rs:448-525 | these are the tables from before the block if and only if at most one write was done, or two of which the second had no rows, or the block has no transactions and its checkpoint was not written |
| `CrashRecovery.WholeIff` | src/domain/ingestion.rs:448-525 | they are those of the whole block if and only if all writes were done, or those of the transactions and each later one that had rows to write |
| `CrashRecovery.TornIff` | src/domain/ingestion.rs:448-525 | for a block with rows in every table, recovery leaves neither if and only if two to five writes were done |
| `CrashRecovery.InputsAreNotMissed` | src/domain/ingestion.rs:448-525 | stopped before its inputs, a block passes for complete and stays without inputs and relationships |
| `CrashRecovery.OutputsStayBehind` | src/writer/mock.rs:447-477 | stopped before its transactions, a block is taken off and its output rows stay |
| `CrashRecovery.NoRowLeftIff` | src/writer/mock.rs:447-477 | the recovered store has no row that names one of some txids if and only if every such row's txid has a transaction row in the removed range |
| `CrashRecovery.IngestOrRecover` | src/domain/ingestion.rs:448-723 | ingesting a block, and recovery if that fails: names the writes done, why ingestion or recovery failed and what tables remain; the tables that this recovery, or a later one if it fails, leaves are those from before the block, the whole block, or neither, under precisely these conditions |
| `Live.AgreementGoesDown` | src/main.rs:1164-1206 | where two linked chains agree they agree on everything below |
| `Live.ForkPointIsExact` | src/main.rs:1164-1206 | the fork point separates agreement from disagreement, is unique, and exists if and only if genesis agrees |
| `Live.WalkOnOneChain` | src/main.rs:1164-1206 | if the chain does not change during the walk, the walk ends at the fork point |
| `Live.FindForkPoint` | src/main.rs:1164-1206 | with one call per height, each of which may meet another chain, returns the height of first agreement; errs if and only if there is none, because genesis differs or a call fails |
| `Live.IngestOrRollBack` | src/main.rs:996-1070 | one step ingests the block, with true rows if it finds what it spends, or rolls back to where the walk ended: a prefix of the chain that agreed there, shorter if and only if the walk's first chain differs at the tip; it stops only on a failed call or another genesis block, and says what it leaves |
| `Live.ChainGrows` | src/domain/ingestion.rs:543-573 | the next block on a stored chain keeps it contiguous, linked and checkpointed |
| `Live.ChainShrinks` | src/domain/ingestion.rs:605-643 | rolling a stored chain back leaves the stored chain up to the fork point |
| `Live.CutAtFork` | src/main.rs:1028-1061 | rolling back to where the walk ended leaves a stored chain that is a prefix of the chain that agreed |
| `Live.FollowTip` | src/main.rs:976-1077 | one notification is a run of legal steps through stored chains, which ends above its target or by going back, or else stops with the last step's tables but for what the error leaves, and only after a failed call or another genesis block |
| `Live.RealTimeLoop` | src/main.rs:926-1100 | whatever the node's chain does from call to call, all rounds are run, or those up to the height limit or an error; every round not cut short by an error is complete and made of legal steps on all six tables; stopping has one of the named causes and leaves the tables of the last step but for what is named |
| `Live.AnsweredIsNotCut` | src/main.rs:971-1100 | a round in which every call is answered by a chain that reaches the target and starts with the stored genesis block has no cause to stop but a failed call to the store |
| `Live.TwoRoundsConverge` | src/main.rs:971-1100 | over two complete rounds with an unchanging chain the store reaches that chain up to the target if and only if it was no longer than the target or agreed with the chain there |
| `Live.StaleTipStays` | src/main.rs:971-1100 | when the node has replaced its tip at the same height, a round makes no step, is complete, and leaves the stale tip |
| `LiveTables.CutHoldsIff` | src/domain/ingestion.rs:605-643 | rolling a stored chain back leaves precisely the rows of the blocks that stay if and only if none of those rows names a transaction of the others |
| `LiveTables.HoldsIffGrown` | src/domain/ingestion.rs:742-915 | the rows of a chain are what ingesting it into an empty store gives |
| `LiveTables.LiveRunKeepsTables` | src/main.rs:926-1100 | over a whole live run in which no stored chain repeats a txid, the six tables are those of ingesting the currently stored chain into an empty store, with true amounts and relationships if every block found what it spends |
| `Live.SkippedHeightGoesUnnoticed` | src/main.rs:1068-1070 | if a height is stepped over, the block above it is accepted, leaving a gap |
| `Live.LostCheckpointWriteLeavesGap` | src/domain/ingestion.rs:605-643 | a rollback whose checkpoint write is lost leaves a checkpoint above the chain that recovery keeps |
| `BlockIndex.DecodeVarint` | src/parser/block_index.rs:557-592 | succeeds precisely on a terminated code whose value fits 64 bits, with its value and length |
| `BlockIndex.DecodedIff` | src/parser/block_index.rs:557-592 | what counts as such a code: continuation bits on all bytes but the last, and the mathematical value |
| `BlockIndex.ValueCountsCodes` | src/parser/block_index.rs:557-592 | a code stands for its seven-bit groups read to base 128, plus the number of shorter codes |
| `BlockIndex.KnownCodes` | src/parser/block_index.rs:607-631 | the two codes of several bytes in the decoder's own tests |
| `BlockIndex.CodesAreUnique` | src/parser/block_index.rs:545-556 | each number has exactly one code, the one the reference encoder writes |
| `BlockIndex.TenBytes` | src/parser/block_index.rs:557-592 | a 64-bit number takes one to ten bytes |
| `BlockIndex.DecodeInvertsEncode` | src/parser/block_index.rs:557-592 | decoding inverts the encoder, whatever follows |
| `BlockIndex.OnlyEncodedDecodes` | src/parser/block_index.rs:557-592 | anything that decodes begins with the encoder's output |
| `BlockIndex.ParseBlockRecord` | src/parser/block_index.rs:493-542 | succeeds if and only if six numbers can be read and a status bit is set, with the fields in order, cut to their widths |
| `BlockIndex.RecordRoundTrip` | src/parser/block_index.rs:493-542 | six numbers written one after the other parse back to their entry, whatever follows |
| `BlockIndex.OnlyEncodedRecordsParse` | src/parser/block_index.rs:493-542 | any record that parses begins with the codes of six numbers with an accepted status |
| `BlockIndex.DataFlagIsNotRequired` | src/parser/block_index.rs:514-519 | a record with the chain flag but without the data flag parses |
| `Framing.BlockFileReader.NextBlock` | src/parser/block_file.rs:107-165 | answer, cursor and count for each kind of frame; the cursor is past the header when size or data are bad |
| `Framing.BlockFileReader.ReadBlockAt` | src/parser/block_file.rs:189-228 | the answer for the frame at an offset; padding is a bad magic |
| `Framing.LoadBlock` | src/parser/single_block_loader.rs:357-392 | the block whose data starts at an offset, its header eight bytes before, its size trusted |
| `Framing.FrameRoundTrip` | src/parser/block_file.rs:107-165 | the frame of a readable block reads back whatever stands around it |
| `Framing.OnlyFramesAreRead` | src/parser/block_file.rs:107-165 | only frames of readable blocks are read as blocks |
| `Framing.BadBlockIsNotSkipped` | src/parser/block_file.rs:107-165 | a block that does not decode is an error, and the next call looks for a frame inside it |
| `Framing.BadSizeIsSkipped` | src/parser/block_file.rs:107-165 | a size of zero or above 4,000,000 is an error, and the next call starts after the header |
| `Framing.CallsReadTheFile` | src/parser/block_file.rs:107-165 | on frames followed by zeros, the calls give exactly the blocks in order and then the end of the file for ever, the cursor on frame boundaries |
| `Framing.EveryWayGivesTheBlock` | src/parser/block_file.rs:189-228 | random access at a boundary and loading at boundary + 8 give the block that reading in order gives |
| `Framing.LoadAgrees` | src/parser/single_block_loader.rs:357-392 | loading agrees with random access wherever the size is one that random access takes |
| `LittleEndian.LeastFirst` | src/parser/block_file.rs:136-142 | byte i of a little-endian number is its digit of weight 256 to the i |

## Left out

- The Neo4j driver, its pool, timeouts, retries and schema setup; of its queries only the output lookup and the two relationship merges have a meaning here. Its `write_outputs` bypasses the open transaction (src/writer/neo4j/mod.rs:411-489); atomicity is stated for the mock's semantics.
- RPC and ZMQ transport: an arbitrary environment gives tip, hashes and blocks. Receive failures and their counter, and shutdown, are not modelled.
- The catch-up phase of the live run and the command line, configuration, logging, statistics text and wall-clock timestamps.
- Hashing, block deserialisation, UTF-8 validation, CRC32 and script classification: function parameters or fields, with the assumption that a txid determines its outputs and a block hash commits to its parent's.
- Integer overflow of sums of amounts: sums are unbounded naturals.
- The address hash that picks a bucket: any function of the address; the results hold for each.
- File-system effects of saving (temporary file, rename), snapshots taken during a batch, and concurrent access to the cache: the cache is sequential.
- LevelDB iteration and main-chain selection, and the targeted prewarm, which ignores failed insertions.
- The relationships between transactions and outputs, which the mock does not store, and the spent-output mark.
- `prewarm_mode`, which no insertion consults.
- BucketTasks.RunBucketTasks: a task writes its PERFORMS rows in one step and its BENEFITS_TO rows in another; the rows of tasks that are left running are known only as rows that may appear.
- Live.FollowTip: a height beyond the chain is an error, as the provider makes it; the branch for an absent block is not taken.
- Writer.MockWriter.LookupOutputsBatch: one row per requested id, as under the store's uniqueness constraint on output ids.
