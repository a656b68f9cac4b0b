/** The orchestrator object: parent check, chunk and block ingestion, and the batch loop around them. */
module Orchestration {
  import opened Types
  import opened Lru
  import opened Chain
  import opened Aggregation
  import opened Cache
  import opened Coherence
  import opened Writer
  import opened Refinement
  import opened Chunking
  import opened Phase6
  import opened BucketTasks
  import opened Ingestion
  import opened CachePhases

  /** Every input spends an output of the table, or of a block up to and including its own. */
  ghost predicate Spendable(items: seq<Item>, outputs: seq<OutputData>) {
    forall n, k :: 0 <= n <= |items| && k in CollectInputKeys(items[..n]) ==>
        k in KeysOfRows(outputs) + NewKeys(items[..n])
  }

  /** Each chunk's distinct outputs fit the shards they go to. */
  ghost predicate RoomForChunks(caps: seq<nat>, items: seq<Item>, chunks: seq<Range>) {
    forall c :: c in chunks && c.start <= c.end <= |items| ==> Room(caps, NewKeys(items[c.start..c.end]))
  }

  /**
    Where an input of a chunk can be resolved from: the cache before, the table before, or the
    chunk's own outputs in the cache.
    */
  ghost predicate Resolvable(c: CacheState, outputs: seq<OutputData>, caps: seq<nat>, chunk: seq<Item>, k: UtxoKey)
    requires |c.shards| == NUM_SHARDS
  {
    Lookup(c, k).Some? || k in KeysOfRows(outputs) || Survives(caps, ChunkEntries(chunk), k)
  }

  /**
    Each chunk finds what it spends in the table, in the blocks before it, or among its own outputs
    that stay cached.
    */
  ghost predicate SpentSurvive(caps: seq<nat>, items: seq<Item>, chunks: seq<Range>, outputs: seq<OutputData>) {
    forall c :: c in chunks && c.start <= c.end <= |items| ==> ChunkResolves(caps, items, c, outputs)
  }

  ghost predicate ChunkResolves(caps: seq<nat>, items: seq<Item>, c: Range, outputs: seq<OutputData>)
    requires c.start <= c.end <= |items|
  {
    forall k :: k in CollectInputKeys(items[c.start..c.end]) ==>
                  k in KeysOfRows(outputs) + NewKeys(items[..c.start])
                    || Survives(caps, ChunkEntries(items[c.start..c.end]), k)
  }

  lemma OutputsTrueConcat(a: seq<OutputData>, b: seq<OutputData>, out: Resolved)
    ensures OutputsTrue(a + b, out) <==> OutputsTrue(a, out) && OutputsTrue(b, out)
  {
    assert forall o :: o in a + b <==> o in a || o in b;
  }

  /** Which writer calls are used: CREATE, MERGE for BIP 30 chunks, or those of a single block. */
  datatype WritePath = FastPath | MergePath | SingleBlock

  class Orchestrator {
    const writer: MockWriter
    const cache: UtxoCache
    const hash: Address -> nat
    const maxMemory: nat
    ghost const caps: seq<nat>

    constructor (writer: MockWriter, cache: UtxoCache, hash: Address -> nat, maxMemory: nat)
      ensures this.writer == writer && this.cache == cache && this.hash == hash && this.maxMemory == maxMemory
      ensures caps == Caps(cache.State())
    {
      this.writer := writer;
      this.cache := cache;
      this.hash := hash;
      this.maxMemory := maxMemory;
      this.caps := Caps(cache.State());
    }

    /** The cache and the output table tell the truth, and nothing is under way. */
    ghost predicate Ready(out: Resolved, exact: bool)
      reads this, writer, cache
    {
      Good(cache.State(), caps, out, exact) && OutputsTrue(writer.outputs, out) && writer.Settled()
    }

    method GetResumeHeight() returns (h: nat)
      ensures h == match writer.checkpoint
                   case Some(c) => if c.height < 0 then 0 else c.height + 1
                   case None => 0
    {
      match writer.checkpoint
      case Some(c) => h := if c.height < 0 then 0 else c.height + 1;
      case None => h := 0;
    }

    method ValidateParentHash(item: Item) returns (r: Outcome<WriterError>)
      ensures r == ParentCheck(writer.blocks, item)
    {
      if item.height == 0 {
        return Pass;
      }
      var stored := writer.LookupBlockHash(item.height - 1);
      match stored
      case None => r := Pass;
      case Some(h) =>
        if h == item.block.prevHash {
          r := Pass;
        } else {
          r := Fail(ReorgDetected(item.height, item.block.prevHash, h));
        }
    }

    /** Looks up what the chunk spends, before its transaction opens; `misses` are the keys that the cache lacks. */
    method Prefetch(chunk: seq<Item>, ghost out: Resolved, ghost exact: bool)
      returns (r: Result<Resolved, WriterError>, ghost misses: seq<UtxoKey>)
      requires Ready(out, exact)
      modifies cache`shards, cache`hits, cache`misses, cache`inserts, writer`log
      ensures Ready(out, exact) && misses == Misses(old(cache.State()), CollectInputKeys(chunk))
      ensures r.Success? ==> cache.State() == AfterPrefetch(Each(Reading, old(cache.State()), CollectInputKeys(chunk)),
                                                            misses, writer.outputs)
      ensures r.Failure? ==>
                cache.State() == Each(Reading, old(cache.State()), CollectInputKeys(chunk)) && r.error == QueryFailed
      ensures r.Success? ==> Sound(r.value, out, exact)
      ensures r.Success? ==> PrefetchedKeys(old(cache.State()), writer.outputs, CollectInputKeys(chunk), r.value)
      ensures Steady(old(writer.log), writer.log) && (r.Failure? <==> old(writer.log.failures) < writer.log.failures)
    {
      ghost var c := cache.State();
      var keys := CollectInputKeys(chunk);
      if keys == [] {
        NoKeys(c);
        return Success(map[]), [];
      }
      var found, missed := ReadCache(cache, keys, caps, out, exact);
      misses := missed;
      if missed == [] {
        NothingMissed(c, keys, found, writer.outputs);
        r := Success(found);
      } else {
        r := ResolvePrefetch(keys, found, missed, c, out, exact);
      }
    }

    /** The store lookup within `Prefetch`; misses that will be met within the chunk are not counted as such. */
    method ResolvePrefetch(keys: seq<UtxoKey>, found: Resolved, missed: seq<UtxoKey>, ghost c: CacheState,
                           ghost out: Resolved, ghost exact: bool)
      returns (r: Result<Resolved, WriterError>)
      requires Ready(out, exact) && Sound(found, out, exact) && |c.shards| == NUM_SHARDS
      requires found == FoundOf(c, keys) && forall k :: k in keys <==> k in found || k in missed
      modifies cache`shards, cache`misses, cache`inserts, writer`log
      ensures Ready(out, exact)
      ensures r.Success? ==> cache.State() == AfterPrefetch(old(cache.State()), missed, writer.outputs)
      ensures r.Failure? ==> cache.State() == old(cache.State()) && r.error == QueryFailed
      ensures r.Success? ==> Sound(r.value, out, exact) && PrefetchedKeys(c, writer.outputs, keys, r.value)
      ensures Steady(old(writer.log), writer.log) && (r.Failure? <==> old(writer.log.failures) < writer.log.failures)
    {
      var missing, rows;
      r, missing, rows := LookUpMisses(cache, writer, missed, found, caps, out, exact);
      if r.Success? {
        SomeMissed(c, keys, found, missed, writer.outputs, r.value);
        CorrectMisses(|missed| - rows, out, exact);
      }
    }

    method CorrectMisses(count: nat, ghost out: Resolved, ghost exact: bool)
      requires Ready(out, exact)
      modifies cache`misses
      ensures Ready(out, exact) && cache.State() == Corrected(old(cache.State()), count)
    {
      ghost var c := cache.State();
      if count > 0 {
        cache.AdjustMisses(count);
      }
      CountersDoNotMatter(c, cache.State(), caps, out, exact);
    }

    /** Phases 1 and 2: blocks, then outputs written and cached side by side; `n` of the two writes succeeded. */
    method WriteBlocksAndOutputs(chunk: seq<Item>, rows: seq<OutputData>, path: WritePath, ghost out: Resolved,
                                 ghost exact: bool)
      returns (r: Outcome<WriterError>, ghost n: nat)
      requires Good(cache.State(), caps, out, exact)
      requires rows == OutputRows(TxsOf(chunk)) && OutputsTrue(rows, out)
      modifies cache`shards, cache`inserts, writer`blocks, writer`outputs, writer`log
      ensures Good(cache.State(), caps, out, exact)
      ensures n <= 2 && writer.Contents() == FirstWrites(old(writer.Contents()), chunk, n)
      ensures r.Pass? <==> n == 2
      ensures n >= 1 ==> cache.State() == InsertEach(old(cache.State()), EntriesOf(rows))
      ensures r.Fail? ==> r.error == QueryFailed && old(writer.log.failures) < writer.log.failures
      ensures Steady(old(writer.log), writer.log)
    {
      n := 0;
      var wrote;
      if path.SingleBlock? {
        wrote := writer.WriteBlocks(BlockRows(chunk));
      } else {
        wrote := writer.WriteBlocksFast(BlockRows(chunk));
      }
      if wrote.Fail? {
        return Fail(QueryFailed), n;
      }
      if path.FastPath? {
        wrote := writer.WriteOutputsFast(rows);
      } else {
        wrote := writer.WriteOutputs(rows);
      }
      PopulateCache(cache, rows, caps, out, exact);
      if wrote.Fail? {
        return Fail(QueryFailed), 1;
      }
      r, n := Pass, 2;
    }

    /** Phases 3 and 4: transactions and inputs; `n` of the two writes succeeded. */
    method WriteTransactionsAndInputs(transactions: seq<TransactionData>, inputs: seq<InputData>, path: WritePath)
      returns (r: Outcome<WriterError>, ghost n: nat)
      modifies writer`transactions, writer`inputs, writer`log
      ensures n <= 2
      ensures writer.Contents() == old(writer.Contents()).(
                                       transactions := old(writer.transactions) + if n >= 1 then transactions else [],
                                       inputs := old(writer.inputs) + if n >= 2 then inputs else [])
      ensures r.Pass? <==> n == 2
      ensures r.Fail? ==> r.error == QueryFailed && old(writer.log.failures) < writer.log.failures
      ensures Steady(old(writer.log), writer.log)
    {
      n := 0;
      var wrote;
      if path.FastPath? {
        wrote := writer.WriteTransactionsFast(transactions);
      } else {
        wrote := writer.WriteTransactions(transactions);
      }
      if wrote.Fail? {
        return Fail(QueryFailed), n;
      }
      if path.FastPath? {
        wrote := writer.WriteInputsFast(inputs);
      } else {
        wrote := writer.WriteInputs(inputs);
      }
      if wrote.Fail? {
        return Fail(QueryFailed), 1;
      }
      r, n := Pass, 2;
    }

    /** Phases 3a to 3c: resolves the chunk's inputs and builds its transaction and PERFORMS rows. */
    method ResolveAndBuild(chunk: seq<Item>, prefetched: Resolved, ghost out: Resolved, ghost exact: bool)
      returns (resolved: Resolved, transactions: seq<TransactionData>, performs: seq<PerformsData>)
      requires Good(cache.State(), caps, out, exact) && Sound(prefetched, out, exact)
      modifies cache`shards
      ensures Good(cache.State(), caps, out, exact) && Sound(resolved, out, exact)
      ensures cache.State() == Supplied(old(cache.State()), prefetched.Keys, CollectInputKeys(chunk))
      ensures forall k :: k in CollectInputKeys(chunk) ==> (k in resolved <==>
                                                            k in prefetched || Lookup(old(cache.State()), k).Some?)
      ensures transactions == TxRows(TxsOf(chunk), resolved)
      ensures multiset(performs) == PerformsRows(TxsOf(chunk), resolved)
    {
      var slots, keys := CollectPending(chunk);
      resolved := Supplement(cache, keys, prefetched, caps, out, exact);
      transactions, performs := BuildTransactions(slots, keys, resolved, TxsOf(chunk));
    }

    /** Phase 6 of a single block: two plain writes, each skipped when empty; `n` of the two are done. */
    method WriteRelationsInTurn(performs: seq<PerformsData>, benefits: seq<BenefitsToData>)
      returns (r: Outcome<WriterError>, ghost n: nat)
      modifies writer`performs, writer`benefits, writer`log
      ensures n <= 2
      ensures writer.Contents() == old(writer.Contents()).(
                                       performs := old(writer.performs) + if n >= 1 then performs else [],
                                       benefits := old(writer.benefits) + if n >= 2 then benefits else [])
      ensures r.Pass? <==> n == 2
      ensures r.Fail? ==> r.error == QueryFailed && old(writer.log.failures) < writer.log.failures
      ensures Steady(old(writer.log), writer.log)
    {
      n := 0;
      if performs != [] {
        var wrote := writer.WritePerforms(performs);
        if wrote.Fail? {
          return Fail(QueryFailed), n;
        }
      }
      if benefits != [] {
        var wrote := writer.WriteBenefitsTo(benefits);
        if wrote.Fail? {
          return Fail(QueryFailed), 1;
        }
      }
      r, n := Pass, 2;
    }

    /** Phase 6 of a chunk: bucketed tasks. */
    method WriteRelations(performs: seq<PerformsData>, benefits: seq<BenefitsToData>) returns (r: Outcome<WriterError>)
      requires writer.Quiet()
      modifies writer`performs, writer`benefits, writer`log,
               writer`latePerforms, writer`lateBenefits
      ensures Appended(old(writer.Contents()), writer.Contents())
      ensures r.Pass? ==>
                writer.Quiet()
                && Related(old(writer.Contents()), writer.Contents(), multiset(performs), multiset(benefits))
      ensures r.Fail? ==>
                r.error == QueryFailed && old(writer.log.failures) < writer.log.failures
                && old(writer.log.relations) < writer.log.relations
      ensures Steady(old(writer.log), writer.log)
    {
      r := WriteSimplifiedLayer(writer, hash, performs, benefits);
      if r.Fail? {
        r := Fail(QueryFailed);
      }
    }

    /** Phase 7 and the checkpoint. */
    method RemoveSpentAndCheckpoint(chunk: seq<Item>, offset: Option<nat>, ghost out: Resolved, ghost exact: bool)
      returns (r: Outcome<WriterError>)
      requires chunk != [] && Good(cache.State(), caps, out, exact)
      modifies cache`shards, cache`removals, writer`checkpoint, writer`log
      ensures Good(cache.State(), caps, out, exact)
      ensures cache.State() == Each(Removing, old(cache.State()), CollectInputKeys(chunk))
      ensures writer.checkpoint == if r.Pass? then Some(CheckpointFor(chunk[|chunk| - 1], offset))
              else old(writer.checkpoint)
      ensures r.Fail? ==> r.error == QueryFailed && old(writer.log.failures) < writer.log.failures
      ensures Steady(old(writer.log), writer.log)
    {
      EachStaysGood(Removing, cache.State(), caps, out, exact, CollectInputKeys(chunk));
      cache.RemoveMany(CollectInputKeys(chunk));
      r := writer.UpdateCheckpoint(CheckpointFor(chunk[|chunk| - 1], offset));
      if r.Fail? {
        r := Fail(QueryFailed);
      }
    }

    /** All phases over one chunk. `resolved` is what its inputs were resolved to: precisely the resolvable ones. */
    method ProcessBatchChunk(chunk: seq<Item>, prefetched: Resolved, ghost out: Resolved, ghost exact: bool)
      returns (r: Outcome<WriterError>, ghost resolved: Resolved, ghost t1: Tables)
      requires chunk != [] && Good(cache.State(), caps, out, exact) && writer.Quiet()
      requires Sound(prefetched, out, exact) && OutputsTrue(OutputRows(TxsOf(chunk)), out)
      requires forall k :: k in CollectInputKeys(chunk) && Lookup(cache.State(), k).Some? ==> k in prefetched
      modifies cache`shards, cache`inserts, cache`removals, writer`blocks, writer`transactions, writer`outputs,
               writer`inputs,
               writer`performs, writer`benefits, writer`checkpoint, writer`log,
               writer`latePerforms, writer`lateBenefits
      ensures Good(cache.State(), caps, out, exact)
      ensures t1 == writer.Contents() && Appended(old(writer.Contents()), t1)
      ensures r.Fail? || writer.Quiet()
      ensures r.Fail? || cache.State() == AfterPhases(old(cache.State()), prefetched.Keys, chunk)
      ensures r.Fail? || (Sound(resolved, out, exact) && Exactly(old(writer.Contents()), t1, chunk, resolved))
      ensures r.Fail? || ResolvedAre(resolved, prefetched, caps, chunk)
      ensures r.Fail? ==> r.error == QueryFailed && old(writer.log.failures) < writer.log.failures
      ensures !writer.Quiet() ==> old(writer.log.relations) < writer.log.relations
      ensures Steady(old(writer.log), writer.log)
    {
      resolved := prefetched;
      ghost var t0, c := writer.Contents(), cache.State();
      var path := if exists i :: 0 <= i < |chunk| && chunk[i].height in BIP30_HEIGHTS then MergePath else FastPath;
      var outputs, benefits := BuildOutputs(chunk);
      ghost var n;
      r, n := WriteBlocksAndOutputs(chunk, outputs, path, out, exact);
      if r.Pass? {
        r, resolved := FinishChunk(chunk, prefetched, benefits, path, t0, out, exact);
        SurvivorsAreResolved(c, caps, out, exact, chunk, prefetched, resolved);
      }
      t1 := writer.Contents();
    }

    /** Phases 3 to 7 of a chunk; `t0` are the tables before Phase 1. */
    method FinishChunk(chunk: seq<Item>, prefetched: Resolved, benefits: seq<BenefitsToData>, path: WritePath,
                       ghost t0: Tables, ghost out: Resolved, ghost exact: bool)
      returns (r: Outcome<WriterError>, ghost resolved: Resolved)
      requires chunk != [] && Good(cache.State(), caps, out, exact) && writer.Quiet()
      requires Sound(prefetched, out, exact) && multiset(benefits) == BenefitsRows(TxsOf(chunk))
      requires writer.Contents() == FirstWrites(t0, chunk, 2)
      modifies cache`shards, cache`removals, writer`transactions, writer`inputs, writer`performs, writer`benefits,
               writer`checkpoint, writer`log, writer`latePerforms, writer`lateBenefits
      ensures Good(cache.State(), caps, out, exact)
      ensures r.Fail? || cache.State() == Spent(old(cache.State()), prefetched.Keys, CollectInputKeys(chunk))
      ensures Appended(t0, writer.Contents())
      ensures r.Fail? || (writer.Quiet() && Sound(resolved, out, exact))
      ensures r.Fail? || Exactly(t0, writer.Contents(), chunk, resolved)
      ensures forall k :: k in CollectInputKeys(chunk) ==>
                            (k in resolved <==> k in prefetched || Lookup(old(cache.State()), k).Some?)
      ensures r.Fail? ==> r.error == QueryFailed && old(writer.log.failures) < writer.log.failures
      ensures !writer.Quiet() ==> old(writer.log.relations) < writer.log.relations
      ensures Steady(old(writer.log), writer.log)
    {
      ghost var t1 := writer.Contents();
      var all, transactions, performs := ResolveAndBuild(chunk, prefetched, out, exact);
      resolved := all;
      r := WriteRest(chunk, transactions, performs, benefits, path, out, exact);
      PhasesCompose(t0, t1, writer.Contents(), chunk, None, resolved);
    }

    /** Phases 3 to 7 of a chunk once the rows are built. */
    method WriteRest(chunk: seq<Item>, transactions: seq<TransactionData>, performs: seq<PerformsData>,
                     benefits: seq<BenefitsToData>, path: WritePath, ghost out: Resolved, ghost exact: bool)
      returns (r: Outcome<WriterError>)
      requires chunk != [] && Good(cache.State(), caps, out, exact) && writer.Quiet()
      modifies cache`shards, cache`removals, writer`transactions, writer`inputs, writer`performs, writer`benefits,
               writer`checkpoint, writer`log, writer`latePerforms, writer`lateBenefits
      ensures Good(cache.State(), caps, out, exact)
      ensures r.Fail? || cache.State() == Each(Removing, old(cache.State()), CollectInputKeys(chunk))
      ensures Appended(old(writer.Contents()), writer.Contents())
      ensures r.Pass? ==> writer.Quiet()
      ensures r.Pass? ==>
                Rest(old(writer.Contents()), writer.Contents(), chunk, None, transactions, multiset(performs),
                     multiset(benefits))
      ensures r.Fail? ==> r.error == QueryFailed && old(writer.log.failures) < writer.log.failures
      ensures !writer.Quiet() ==> old(writer.log.relations) < writer.log.relations
      ensures Steady(old(writer.log), writer.log)
    {
      ghost var t0 := writer.Contents();
      var inputs := BuildInputs(chunk);
      ghost var n;
      r, n := WriteTransactionsAndInputs(transactions, inputs, path);
      if r.Pass? {
        ghost var t1 := writer.Contents();
        r := WriteRelations(performs, benefits);
        AppendedTransitive(t0, t1, writer.Contents());
        if r.Pass? {
          ghost var t2 := writer.Contents();
          r := RemoveSpentAndCheckpoint(chunk, None, out, exact);
          AppendedTransitive(t0, t2, writer.Contents());
        }
      }
    }

    // ----------------------------------------------------------------
    // Chunks in transactions
    // ----------------------------------------------------------------

    /**
      One chunk: parent check, prefetch, then all phases in a transaction that commits or
      rolls back. `resolved` is what the inputs were resolved to.
      */
    method IngestChunk(chunk: seq<Item>, ghost out: Resolved, ghost exact: bool)
      returns (r: Outcome<WriterError>, ghost resolved: Resolved)
      requires chunk != [] && Ready(out, exact) && OutputsTrue(OutputRows(TxsOf(chunk)), out)
      modifies writer, cache
      ensures Good(cache.State(), caps, out, exact)
      ensures Explains(old(writer.log), writer.log, writer.inTransaction, writer.Quiet())
      ensures r.Pass? ==> writer.Settled() && ParentCheck(old(writer.blocks), chunk[0]).Pass?
      ensures r.Fail? || cache.State() == ChunkCached(old(cache.State()), old(writer.outputs), chunk)
      ensures r.Pass? ==>
                Sound(resolved, out, exact) && Exactly(old(writer.Contents()), writer.Contents(), chunk, resolved)
      ensures r.Pass? ==> forall k :: k in CollectInputKeys(chunk) ==>
                                        (k in resolved <==>
                                         Resolvable(old(cache.State()), old(writer.outputs), caps, chunk, k))
      ensures r.Fail? ==> writer.Over(old(writer.Contents()))
      ensures r.Fail? && (r.error.ReorgDetected? || writer.log.failures == old(writer.log.failures)) ==>
                writer.Settled() && r == ParentCheck(old(writer.blocks), chunk[0])
    {
      resolved := map[];
      r := ValidateParentHash(chunk[0]);
      if r.Pass? {
        r, resolved := IngestValidChunk(chunk, out, exact);
      }
    }

    /** A chunk whose first block has passed the parent check. */
    method IngestValidChunk(chunk: seq<Item>, ghost out: Resolved, ghost exact: bool)
      returns (r: Outcome<WriterError>, ghost resolved: Resolved)
      requires chunk != [] && Ready(out, exact) && OutputsTrue(OutputRows(TxsOf(chunk)), out)
      modifies writer, cache
      ensures Good(cache.State(), caps, out, exact)
      ensures Explains(old(writer.log), writer.log, writer.inTransaction, writer.Quiet())
      ensures r.Pass? ==> writer.Settled() && Sound(resolved, out, exact)
      ensures r.Fail? || cache.State() == ChunkCached(old(cache.State()), old(writer.outputs), chunk)
      ensures r.Pass? ==> Exactly(old(writer.Contents()), writer.Contents(), chunk, resolved)
      ensures r.Pass? ==> forall k :: k in CollectInputKeys(chunk) ==>
                                        (k in resolved <==>
                                         Resolvable(old(cache.State()), old(writer.outputs), caps, chunk, k))
      ensures r.Fail? ==> writer.Over(old(writer.Contents()))
      ensures r.Fail? ==> r.error == QueryFailed && old(writer.log.failures) < writer.log.failures
    {
      ghost var c, outputs := cache.State(), writer.outputs;
      var prefetched := PrefetchAll(chunk, out, exact);
      resolved := map[];
      if prefetched.Failure? {
        r := Fail(QueryFailed);
      } else {
        r, resolved := IngestPrefetched(chunk, prefetched.value, out, exact);
        PrefetchedIsHad(c, outputs, chunk, prefetched.value);
      }
    }

    /** Prefetching leaves no input in the cache that it has not returned. */
    method PrefetchAll(chunk: seq<Item>, ghost out: Resolved, ghost exact: bool)
      returns (r: Result<Resolved, WriterError>)
      requires Ready(out, exact)
      modifies cache`shards, cache`hits, cache`misses, cache`inserts, writer`log
      ensures Ready(out, exact)
      ensures r.Success? ==> Sound(r.value, out, exact)
      ensures r.Failure? || cache.State() == PrefetchedCache(old(cache.State()), writer.outputs, chunk)
      ensures r.Success? ==> forall k :: k in CollectInputKeys(chunk) && Lookup(cache.State(), k).Some? ==> k in r.value
      ensures r.Success? ==> PrefetchedKeys(old(cache.State()), writer.outputs, CollectInputKeys(chunk), r.value)
      ensures Steady(old(writer.log), writer.log) && (r.Failure? <==> old(writer.log.failures) < writer.log.failures)
    {
      ghost var c := cache.State();
      ghost var misses;
      r, misses := Prefetch(chunk, out, exact);
      if r.Success? {
        CachedIsPrefetched(c, caps, out, exact, writer.outputs, CollectInputKeys(chunk), misses, r.value);
      }
    }

    /** The transaction around a chunk whose inputs have been prefetched. */
    method IngestPrefetched(chunk: seq<Item>, prefetched: Resolved, ghost out: Resolved, ghost exact: bool)
      returns (r: Outcome<WriterError>, ghost resolved: Resolved)
      requires chunk != [] && Ready(out, exact) && OutputsTrue(OutputRows(TxsOf(chunk)), out)
      requires Sound(prefetched, out, exact)
      requires forall k :: k in CollectInputKeys(chunk) && Lookup(cache.State(), k).Some? ==> k in prefetched
      modifies writer, cache
      ensures Good(cache.State(), caps, out, exact)
      ensures Explains(old(writer.log), writer.log, writer.inTransaction, writer.Quiet())
      ensures r.Pass? ==> writer.Settled()
      ensures r.Fail? || cache.State() == AfterPhases(old(cache.State()), prefetched.Keys, chunk)
      ensures r.Fail? || Sound(resolved, out, exact)
      ensures r.Fail? || Exactly(old(writer.Contents()), writer.Contents(), chunk, resolved)
      ensures r.Fail? || ResolvedAre(resolved, prefetched, caps, chunk)
      ensures r.Fail? ==> writer.Over(old(writer.Contents()))
      ensures r.Fail? ==> r.error == QueryFailed && old(writer.log.failures) < writer.log.failures
    {
      resolved := map[];
      r := writer.BeginTransaction();
      if r.Fail? {
        r := Fail(QueryFailed);
      } else {
        ghost var t1;
        r, resolved, t1 := Transact(chunk, prefetched, out, exact);
      }
    }

    /** The phases and the end of an open transaction. */
    method Transact(chunk: seq<Item>, prefetched: Resolved, ghost out: Resolved, ghost exact: bool)
      returns (r: Outcome<WriterError>, ghost resolved: Resolved, ghost t1: Tables)
      requires chunk != [] && Good(cache.State(), caps, out, exact) && OutputsTrue(OutputRows(TxsOf(chunk)), out)
      requires writer.inTransaction && writer.Quiet() && writer.snapshot == Some(SnapshotOf(writer.Contents()))
      requires Sound(prefetched, out, exact)
      requires forall k :: k in CollectInputKeys(chunk) && Lookup(cache.State(), k).Some? ==> k in prefetched
      modifies writer`blocks, writer`transactions, writer`outputs, writer`inputs, writer`performs, writer`benefits,
               writer`checkpoint,
               writer`inTransaction, writer`snapshot, writer`commitCount, writer`log, writer`latePerforms,
               writer`lateBenefits,
               cache`shards, cache`inserts, cache`removals
      ensures Good(cache.State(), caps, out, exact)
      ensures Explains(old(writer.log), writer.log, writer.inTransaction, writer.Quiet())
      ensures r.Fail? || (writer.Settled() && writer.Contents() == t1)
      ensures r.Fail? || cache.State() == AfterPhases(old(cache.State()), prefetched.Keys, chunk)
      ensures r.Fail? || (Sound(resolved, out, exact) && Exactly(old(writer.Contents()), t1, chunk, resolved))
      ensures r.Fail? || ResolvedAre(resolved, prefetched, caps, chunk)
      ensures r.Pass? || writer.Over(old(writer.Contents()))
      ensures r.Fail? ==> r.error == QueryFailed && old(writer.log.failures) < writer.log.failures
    {
      ghost var t0, log0 := writer.Contents(), writer.log;
      var outcome;
      outcome, resolved, t1 := ProcessBatchChunk(chunk, prefetched, out, exact);
      r := EndTransaction(outcome, t0, log0);
    }

    /**
      Commits after success, rolls back after failure; a failed commit rolls itself back.
      `log0` is the log when the transaction had been opened.
      */
    method EndTransaction(outcome: Outcome<WriterError>, ghost t0: Tables, ghost log0: Log)
      returns (r: Outcome<WriterError>)
      requires writer.inTransaction && writer.snapshot == Some(SnapshotOf(t0)) && Appended(t0, writer.Contents())
      requires outcome.Fail? ==> outcome.error == QueryFailed && log0.failures < writer.log.failures
      requires Steady(log0, writer.log) && (!writer.Quiet() ==> log0.relations < writer.log.relations)
      requires outcome.Pass? ==> writer.Quiet()
      modifies writer`blocks, writer`transactions, writer`outputs, writer`inputs, writer`performs, writer`benefits,
               writer`checkpoint,
               writer`inTransaction, writer`snapshot, writer`commitCount, writer`log
      ensures Explains(log0, writer.log, writer.inTransaction, writer.Quiet())
      ensures r.Pass? ==> outcome.Pass? && !writer.inTransaction && writer.Contents() == old(writer.Contents())
      ensures r.Fail? ==> r.error == QueryFailed && writer.Over(t0) && log0.failures < writer.log.failures
    {
      RestoreUndoesAppends(t0, writer.Contents());
      r := outcome;
      if outcome.Pass? {
        r := writer.CommitTransaction();
        if r.Fail? {
          r := Fail(QueryFailed);
        }
      } else {
        var rolledBack := writer.RollbackTransaction();
        ghost var t1 := writer.Contents();
        writer.LateWrites();
        AppendedTransitive(t0, t1, writer.Contents());
      }
    }

    /**
      Chunk `i` of a batch. `inv` is what holds of the tables after so many blocks, `base`
      the tables after the last commit.
      */
    method IngestRange(items: seq<Item>, ranges: seq<Range>, i: nat, ghost inv: BatchInvariant, ghost track: CacheTrack,
                       ghost out: Resolved, ghost exact: bool)
      returns (r: Outcome<WriterError>, ghost base: Tables)
      requires Partition(Memories(items), maxMemory, ranges) && i < |ranges| && Within(ranges, |items|)
      requires Good(cache.State(), caps, out, exact) && writer.Settled() && OutputsTrue(OutputRows(TxsOf(items)), out)
      requires Inductive(inv, items, ranges, caps, out, exact) && inv(writer.Contents(), StartOf(ranges, i))
      requires Tracking(WholeChunk, track, items, ranges) && track(cache.State(), writer.outputs, i)
      modifies writer, cache
      ensures Good(cache.State(), caps, out, exact)
      ensures Explains(old(writer.log), writer.log, writer.inTransaction, writer.Quiet())
      ensures StartOf(ranges, i) < StartOf(ranges, i + 1) <= |items|
      ensures r.Fail? || track(cache.State(), writer.outputs, i + 1)
      ensures r.Pass? ==> writer.Settled() && base == writer.Contents() && inv(base, StartOf(ranges, i + 1))
      ensures r.Fail? ==> base == old(writer.Contents()) && writer.Over(base)
      ensures r.Fail? && (r.error.ReorgDetected? || writer.log.failures == old(writer.log.failures)) ==>
                writer.Settled() && r == ParentCheck(base.blocks, items[StartOf(ranges, i)])
    {
      RangeAt(Memories(items), maxMemory, ranges, i);
      var chunk := Part(items, ranges, i);
      OutputsOfPart(items, ranges[i].start, ranges[i].end, out);
      base := writer.Contents();
      assert OutputsTrue(base.outputs, out);
      ghost var resolved;
      ghost var c := cache.State();
      r, resolved := IngestChunk(chunk, out, exact);
      if r.Pass? {
        ChunkOutcome(base, writer.Contents(), chunk, c, resolved, caps, out, exact);
        base := writer.Contents();
      }
    }

    /**
      A batch, chunk by chunk. However it ends, `base`, the tables after the last commit,
      are the old ones plus the first `done` blocks, a whole number `n` of leading chunks.
      The store is `base` unless a rollback failed or a relationship write did and left
      tasks behind; no transaction is open unless a rollback failed; no lookup ran inside
      one; and without a failing call only the parent check ends the batch early.
      */
    method IngestBlocksBatch(items: seq<Item>, ghost out: Resolved, ghost exact: bool)
      returns (r: Outcome<WriterError>, ghost done: nat, ghost chunks: seq<Range>, ghost n: nat, ghost base: Tables)
      requires Ready(out, exact) && OutputsTrue(OutputRows(TxsOf(items)), out)
      modifies writer, cache
      ensures Partition(Memories(items), maxMemory, chunks) && Maximal(Memories(items), maxMemory, chunks)
      ensures n <= |chunks| && done == StartOf(chunks, n) <= |items|
      ensures Good(cache.State(), caps, out, exact) && Within(chunks, |items|)
      ensures r.Fail? || cache.State() == BatchCached(old(cache.State()), old(writer.outputs), items, chunks, |chunks|)
      ensures Explains(old(writer.log), writer.log, writer.inTransaction, writer.Quiet())
      ensures PrefixIngested(old(writer.Contents()), base, items, done, chunks, caps, out, exact) && writer.Over(base)
      ensures writer.Settled() ==> Ready(out, exact)
      ensures r.Pass? ==> done == |items| && writer.Settled()
      ensures r.Fail? ==> n < |chunks| && done < |items|
      ensures r.Fail? && (r.error.ReorgDetected? || writer.log.failures == old(writer.log.failures)) ==>
                writer.Settled() && r == ParentCheck(writer.blocks, items[done])
    {
      var ranges := ComputeAdaptiveChunks(Memories(items), maxMemory);
      chunks := ranges;
      PartitionIsWithin(Memories(items), maxMemory, ranges);
      ghost var t0 := writer.Contents();
      ghost var track := RunTrack(WholeChunk, cache.State(), writer.outputs, items, ranges);
      RunIsTracked(WholeChunk, cache.State(), writer.outputs, items, ranges);
      ghost var inv := PrefixInvariant(t0, items, ranges, caps, out, exact);
      PrefixIsInductive(t0, items, maxMemory, ranges, caps, out, exact);
      r, n, base := IngestRanges(items, ranges, inv, track, out, exact);
      done := StartOf(ranges, n);
      PrefixOutputsTrue(t0, base, items, done, out);
      if r.Pass? {
        writer.OverItself();
      }
    }

    method IngestRanges(items: seq<Item>, ranges: seq<Range>, ghost inv: BatchInvariant, ghost track: CacheTrack,
                        ghost out: Resolved, ghost exact: bool)
      returns (r: Outcome<WriterError>, ghost n: nat, ghost base: Tables)
      requires Partition(Memories(items), maxMemory, ranges) && Within(ranges, |items|)
      requires Good(cache.State(), caps, out, exact) && writer.Settled() && OutputsTrue(OutputRows(TxsOf(items)), out)
      requires Inductive(inv, items, ranges, caps, out, exact) && inv(writer.Contents(), 0)
      requires Tracking(WholeChunk, track, items, ranges) && track(cache.State(), writer.outputs, 0)
      modifies writer, cache
      ensures n <= |ranges| && StartOf(ranges, n) <= |items|
      ensures Good(cache.State(), caps, out, exact)
      ensures r.Fail? || track(cache.State(), writer.outputs, n)
      ensures Explains(old(writer.log), writer.log, writer.inTransaction, writer.Quiet())
      ensures inv(base, StartOf(ranges, n))
      ensures if r.Pass? then base == writer.Contents() && writer.Settled() && n == |ranges|
              else writer.Over(base) && n < |ranges| && StartOf(ranges, n) < |items|
      ensures r.Fail? && (r.error.ReorgDetected? || writer.log.failures == old(writer.log.failures)) ==>
                writer.Settled() && r == ParentCheck(base.blocks, items[StartOf(ranges, n)])
    {
      n, r, base := 0, Pass, writer.Contents();
      for i := 0 to |ranges|
        invariant n == i && StartOf(ranges, i) <= |items| && r.Pass?
        invariant Good(cache.State(), caps, out, exact) && writer.Settled()
        invariant Explains(old(writer.log), writer.log, writer.inTransaction, writer.Quiet())
        invariant track(cache.State(), writer.outputs, i)
        invariant base == writer.Contents() && inv(base, StartOf(ranges, i))
      {
        r, base := IngestRange(items, ranges, i, inv, track, out, exact);
        if r.Fail? {
          return;
        }
        n := i + 1;
      }
    }

    // ----------------------------------------------------------------
    // One block, outside a transaction
    // ----------------------------------------------------------------

    /**
      All phases over one block, each a single write; `n` of the seven writes are done when
      the call ends, and the tables are exactly those that many writes give. On success
      every input was resolved, so the rows carry the true amounts.
      */
    method IngestBlock(item: Item, offset: Option<nat>, ghost out: Resolved, ghost exact: bool)
      returns (r: Outcome<WriterError>, ghost n: nat)
      requires Ready(out, exact) && OutputsTrue(OutputRows(TxsOf([item])), out)
      modifies writer, cache
      ensures Ready(out, exact)
      ensures Explains(old(writer.log), writer.log, writer.inTransaction, writer.Quiet())
      ensures Reached(old(writer.Contents()), writer.Contents(), item, offset, out, exact, n)
      ensures r.Pass? <==> n == 7
      ensures r.Fail? || cache.State() == BlockCached(old(cache.State()), old(writer.outputs), item)
      ensures ParentCheck(old(writer.blocks), item).Fail? ==> n == 0 && r == ParentCheck(old(writer.blocks), item)
      ensures r.Pass? ==> Grows(old(writer.Contents()), writer.Contents(), [item], out)
      ensures r.Pass? && exact ==> ViewOf(writer.Contents()) == Sequential(ViewOf(old(writer.Contents())), [item], out)
      ensures (writer.log.failures == old(writer.log.failures) && ParentCheck(old(writer.blocks), item).Pass?
               && Spendable([item], old(writer.outputs))) ==> r.Pass?
    {
      ghost var t0 := writer.Contents();
      r := ValidateParentHash(item);
      n := 0;
      NothingReached(t0, item, offset, out, exact);
      if r.Pass? {
        r, n := IngestValidBlock(item, offset, out, exact);
        if r.Pass? {
          ReachedAll(t0, writer.Contents(), item, offset, out, exact);
        }
      }
    }

    method IngestValidBlock(item: Item, offset: Option<nat>, ghost out: Resolved, ghost exact: bool)
      returns (r: Outcome<WriterError>, ghost n: nat)
      requires Ready(out, exact) && OutputsTrue(OutputRows(TxsOf([item])), out)
      modifies cache, writer`blocks, writer`transactions, writer`outputs, writer`inputs, writer`performs,
               writer`benefits,
               writer`checkpoint, writer`log
      ensures Ready(out, exact)
      ensures Explains(old(writer.log), writer.log, writer.inTransaction, writer.Quiet())
      ensures Reached(old(writer.Contents()), writer.Contents(), item, offset, out, exact, n)
      ensures r.Pass? <==> n == 7
      ensures r.Fail? || cache.State() == BlockCached(old(cache.State()), old(writer.outputs), item)
      ensures writer.log.failures == old(writer.log.failures) && Spendable([item], old(writer.outputs)) ==> r.Pass?
    {
      ghost var t0 := writer.Contents();
      var benefits;
      r, benefits, n := BeginBlock(item, out, exact);
      if r.Pass? {
        SpendableOne(item, t0.outputs, OutputRows(TxsOf([item])));
        r, n := FinishBlock(item, offset, benefits, t0, out, exact);
      } else {
        EarlyStop(t0, item, offset, out, exact, n);
      }
    }

    /** Phases 1 and 2 of a single block. */
    method BeginBlock(item: Item, ghost out: Resolved, ghost exact: bool)
      returns (r: Outcome<WriterError>, benefits: seq<BenefitsToData>, ghost n: nat)
      requires Ready(out, exact) && OutputsTrue(OutputRows(TxsOf([item])), out)
      modifies cache`shards, cache`inserts, writer`blocks, writer`outputs, writer`log
      ensures Ready(out, exact) && multiset(benefits) == BenefitsRows(TxsOf([item]))
      ensures n <= 2 && writer.Contents() == FirstWrites(old(writer.Contents()), [item], n)
      ensures r.Pass? <==> n == 2
      ensures r.Fail? || cache.State() == InsertEach(old(cache.State()), ChunkEntries([item]))
      ensures r.Fail? ==> old(writer.log.failures) < writer.log.failures
      ensures Steady(old(writer.log), writer.log)
    {
      var outputs;
      outputs, benefits := BuildOutputs([item]);
      OutputsTrueConcat(writer.outputs, outputs, out);
      r, n := WriteBlocksAndOutputs([item], outputs, SingleBlock, out, exact);
    }

    /** Phases 3 to 7 of a single block; `t0` are the tables before Phase 1. */
    method FinishBlock(item: Item, offset: Option<nat>, benefits: seq<BenefitsToData>, ghost t0: Tables,
                       ghost out: Resolved, ghost exact: bool)
      returns (r: Outcome<WriterError>, ghost n: nat)
      requires Ready(out, exact) && multiset(benefits) == BenefitsRows(TxsOf([item]))
      requires writer.Contents() == FirstWrites(t0, [item], 2)
      modifies writer`transactions, writer`inputs, writer`performs, writer`benefits, writer`checkpoint, writer`log,
               cache
      ensures Ready(out, exact)
      ensures Explains(old(writer.log), writer.log, writer.inTransaction, writer.Quiet())
      ensures Reached(t0, writer.Contents(), item, offset, out, exact, n)
      ensures r.Pass? <==> n == 7
      ensures r.Fail? || cache.State() == LookedUpAndSpent(old(cache.State()), CollectInputKeys([item]), writer.outputs)
      ensures writer.log.failures == old(writer.log.failures)
              && (forall k :: k in CollectInputKeys([item]) ==> FindOutput(writer.outputs, k).Some?) ==>
                r.Pass?
    {
      var resolved, transactions, performs;
      r, resolved, transactions, performs := ResolveOrFail([item], out, exact);
      if r.Pass? {
        r, n := WriteBuilt(item, resolved, transactions, performs, benefits, offset, t0, out, exact);
      } else {
        n := 2;
        EarlyStop(t0, item, offset, out, exact, n);
      }
    }

    /** The remaining writes of a single block whose inputs are all resolved. */
    method WriteBuilt(item: Item, resolved: Resolved, transactions: seq<TransactionData>, performs: seq<PerformsData>,
                      benefits: seq<BenefitsToData>, offset: Option<nat>, ghost t0: Tables, ghost out: Resolved,
                      ghost exact: bool)
      returns (r: Outcome<WriterError>, ghost n: nat)
      requires Good(cache.State(), caps, out, exact) && multiset(benefits) == BenefitsRows(TxsOf([item]))
      requires Sound(resolved, out, exact) && forall k :: k in CollectInputKeys([item]) ==> k in resolved
      requires transactions == TxRows(TxsOf([item]), resolved)
               && multiset(performs) == PerformsRows(TxsOf([item]), resolved)
      requires writer.Contents() == FirstWrites(t0, [item], 2)
      modifies cache`shards, cache`removals, writer`transactions, writer`inputs, writer`performs, writer`benefits,
               writer`checkpoint, writer`log
      ensures Good(cache.State(), caps, out, exact)
      ensures Reached(t0, writer.Contents(), item, offset, out, exact, n)
      ensures r.Pass? <==> n == 7
      ensures r.Fail? || cache.State() == Each(Removing, old(cache.State()), CollectInputKeys([item]))
      ensures r.Fail? ==> old(writer.log.failures) < writer.log.failures
      ensures Steady(old(writer.log), writer.log)
    {
      ghost var t1 := writer.Contents();
      ghost var done;
      r, done := WriteInTurn(item, transactions, performs, benefits, offset, out, exact);
      n := 2 + done;
      SingleBlockOutcome(t0, t1, writer.Contents(), item, offset, resolved, out, exact, done);
    }

    /** Phases 3 to 7 of a single block once the rows are built; `n` of the five writes are done. */
    method WriteInTurn(item: Item, transactions: seq<TransactionData>, performs: seq<PerformsData>,
                       benefits: seq<BenefitsToData>,
                       offset: Option<nat>, ghost out: Resolved, ghost exact: bool)
      returns (r: Outcome<WriterError>, ghost n: nat)
      requires Good(cache.State(), caps, out, exact)
      modifies cache`shards, cache`removals, writer`transactions, writer`inputs, writer`performs, writer`benefits,
               writer`checkpoint, writer`log
      ensures Good(cache.State(), caps, out, exact)
      ensures r.Fail? || cache.State() == Each(Removing, old(cache.State()), CollectInputKeys([item]))
      ensures LastWrites(old(writer.Contents()), writer.Contents(), item, offset, transactions, multiset(performs),
                         multiset(benefits), n)
      ensures r.Pass? <==> n == 5
      ensures r.Fail? ==> old(writer.log.failures) < writer.log.failures
      ensures Steady(old(writer.log), writer.log)
    {
      ghost var t0 := writer.Contents();
      var inputs := BuildInputs([item]);
      r, n := WriteTransactionsAndInputs(transactions, inputs, SingleBlock);
      if r.Pass? {
        ghost var done;
        r, done := WriteRelationsInTurn(performs, benefits);
        n := 2 + done;
        if r.Pass? {
          r := RemoveSpentAndCheckpoint([item], offset, out, exact);
          n := if r.Pass? then 5 else 4;
        }
      }
    }

    /** Phases 3a to 3c of a single block: an input that cannot be resolved is an error. */
    method ResolveOrFail(chunk: seq<Item>, ghost out: Resolved, ghost exact: bool)
      returns (r: Outcome<WriterError>, resolved: Resolved, transactions: seq<TransactionData>,
               performs: seq<PerformsData>)
      requires Ready(out, exact)
      modifies cache, writer`log
      ensures Ready(out, exact)
      ensures r.Fail? || cache.State() == LookedUp(old(cache.State()), CollectInputKeys(chunk), writer.outputs)
      ensures r.Pass? ==> Sound(resolved, out, exact) && forall k :: k in CollectInputKeys(chunk) ==> k in resolved
      ensures r.Pass? ==> transactions == TxRows(TxsOf(chunk), resolved)
      ensures r.Pass? ==> multiset(performs) == PerformsRows(TxsOf(chunk), resolved)
      ensures Steady(old(writer.log), writer.log)
      ensures (&& writer.log.failures == old(writer.log.failures)
               && forall k :: k in CollectInputKeys(chunk) ==> FindOutput(writer.outputs, k).Some?) ==> r.Pass?
    {
      var slots, keys := CollectPending(chunk);
      var looked := ResolveAll(keys, out, exact);
      r, resolved, transactions, performs := Fail(QueryFailed), map[], [], [];
      if looked.Success? {
        r, resolved := Pass, looked.value;
        transactions, performs := BuildTransactions(slots, keys, resolved, TxsOf(chunk));
      }
    }

    method ResolveAll(keys: seq<UtxoKey>, ghost out: Resolved, ghost exact: bool)
      returns (r: Result<Resolved, WriterError>)
      requires Ready(out, exact)
      modifies cache, writer`log
      ensures Ready(out, exact)
      ensures r.Failure? || cache.State() == LookedUp(old(cache.State()), keys, writer.outputs)
      ensures r.Success? ==> Sound(r.value, out, exact) && forall k :: k in keys ==> k in r.value
      ensures Steady(old(writer.log), writer.log)
      ensures (&& writer.log.failures == old(writer.log.failures)
               && forall k :: k in keys ==> FindOutput(writer.outputs, k).Some?) ==> r.Success?
    {
      ghost var misses;
      r, misses := GetManyWithFallback(cache, writer, keys, caps, out, exact);
    }
  }

  // ------------------------------------------------------------------
  // How far a single block got
  // ------------------------------------------------------------------

  /** `t0` after the first `n` of the writes of blocks and outputs. */
  function FirstWrites(t0: Tables, chunk: seq<Item>, n: nat): Tables {
    t0.(blocks := t0.blocks + if n >= 1 then BlockRows(chunk) else [],
        outputs := t0.outputs + if n >= 2 then OutputRows(TxsOf(chunk)) else [])
  }

  /** `t` is `t0` after the first `n` of the last five writes of a block. */
  ghost predicate LastWrites(t0: Tables, t: Tables, item: Item, offset: Option<nat>, transactions: seq<TransactionData>,
                             performs: multiset<PerformsData>, benefits: multiset<BenefitsToData>, n: nat) {
    && n <= 5
    && t.blocks == t0.blocks && t.outputs == t0.outputs
    && t.transactions == t0.transactions + (if n >= 1 then transactions else [])
    && t.inputs == t0.inputs + (if n >= 2 then InputRows(TxsOf([item])) else [])
    && t0.performs <= t.performs && multiset(t.performs) ==
      multiset(t0.performs) + (if n >= 3 then performs else multiset{})
    && t0.benefits <= t.benefits && multiset(t.benefits) ==
      multiset(t0.benefits) + (if n >= 4 then benefits else multiset{})
    && t.checkpoint == if n >= 5 then Some(CheckpointFor(item, offset)) else t0.checkpoint
  }

  /**
    `t` is `t0` after the first `n` of a block's seven writes: block, outputs,
    transactions, inputs, PERFORMS, BENEFITS_TO, checkpoint. Transaction rows are the
    true ones; PERFORMS rows are when the cache is exact.
    */
  ghost predicate Reached(t0: Tables, t: Tables, item: Item, offset: Option<nat>, out: Resolved, exact: bool, n: nat) {
    var ps := TxsOf([item]);
    && n <= 7
    && t.blocks == t0.blocks + (if n >= 1 then BlockRows([item]) else [])
    && t.outputs == t0.outputs + (if n >= 2 then OutputRows(ps) else [])
    && t.transactions == t0.transactions + (if n >= 3 then TxRows(ps, out) else [])
    && t.inputs == t0.inputs + (if n >= 4 then InputRows(ps) else [])
    && t0.performs <= t.performs && (n < 5 ==> t.performs == t0.performs)
    && (n >= 5 && exact ==> multiset(t.performs) == multiset(t0.performs) + PerformsRows(ps, out))
    && (n >= 5 ==> PerformsAmong(t.performs[|t0.performs|..], Txids(ps)))
    && t0.benefits <= t.benefits && (n < 6 ==> t.benefits == t0.benefits)
    && (n >= 6 ==> multiset(t.benefits) == multiset(t0.benefits) + BenefitsRows(ps))
    && t.checkpoint == if n >= 7 then Some(CheckpointFor(item, offset)) else t0.checkpoint
  }

  lemma NothingReached(t: Tables, item: Item, offset: Option<nat>, out: Resolved, exact: bool)
    ensures Reached(t, t, item, offset, out, exact, 0)
  {
  }

  lemma EarlyStop(t0: Tables, item: Item, offset: Option<nat>, out: Resolved, exact: bool, n: nat)
    requires n <= 2
    ensures Reached(t0, FirstWrites(t0, [item], n), item, offset, out, exact, n)
  {
  }

  /** Rows appended that add nothing to the multiset are none. */
  lemma NoneAdded<T>(xs: seq<T>, ys: seq<T>)
    requires xs <= ys && multiset(ys) == multiset(xs)
    ensures ys == xs
  {
    assert |multiset(ys)| == |multiset(xs)|;
  }

  lemma SingleBlockOutcome(t0: Tables, t1: Tables, t: Tables, item: Item, offset: Option<nat>, m: Resolved,
                           out: Resolved, exact: bool, done: nat)
    requires t1 == FirstWrites(t0, [item], 2)
    requires Sound(m, out, exact) && forall k :: k in CollectInputKeys([item]) ==> k in m
    requires LastWrites(t1, t, item, offset, TxRows(TxsOf([item]), m), PerformsRows(TxsOf([item]), m),
                        BenefitsRows(TxsOf([item])), done)
    ensures Reached(t0, t, item, offset, out, exact, 2 + done)
  {
    var ps := TxsOf([item]);
    AmountsAreTrue(ps, m, out);
    if exact {
      RowsAreTrue(ps, m, out);
    }
    if done < 3 {
      NoneAdded(t0.performs, t.performs);
    } else {
      PerformsRowsNamed(t0.performs, t.performs, ps, m);
    }
    if done < 4 {
      NoneAdded(t0.benefits, t.benefits);
    }
  }

  lemma PerformsRowsNamed(before: seq<PerformsData>, after: seq<PerformsData>, ps: seq<Pending>, m: Resolved)
    requires before <= after && multiset(after) == multiset(before) + PerformsRows(ps, m)
    ensures PerformsAmong(after[|before|..], Txids(ps))
  {
    AppendedRows(before, after, PerformsRows(ps, m));
    forall r | r in after[|before|..]
      ensures r.toTxid in Txids(ps)
    {
      assert r in multiset(after[|before|..]);
      PerformsName(ps, m, r);
    }
  }

  /** A block of which every write is done is ingested. */
  lemma ReachedAll(t0: Tables, t: Tables, item: Item, offset: Option<nat>, out: Resolved, exact: bool)
    requires Reached(t0, t, item, offset, out, exact, 7)
    ensures Grows(t0, t, [item], out)
    ensures exact ==> ViewOf(t) == Sequential(ViewOf(t0), [item], out)
  {
    var ps := TxsOf([item]);
    RowsAreBounded(ps, out, out);
    assert t.transactions[|t0.transactions|..] == TxRows(ps, out);
    AppendedRows(t0.benefits, t.benefits, BenefitsRows(ps));
    forall r | r in t.benefits[|t0.benefits|..]
      ensures r.fromTxid in Txids(ps)
    {
      assert r in multiset(t.benefits[|t0.benefits|..]);
      BenefitsName(ps, r);
    }
    if exact {
      PhasesCommuteWithBlocks(ViewOf(t0), [item], out);
    }
  }

  /** Every input of the chunk is in the output table or among its own outputs that stay cached. */
  ghost predicate FindsInputs(caps: seq<nat>, outputs: seq<OutputData>, chunk: seq<Item>) {
    forall k :: k in CollectInputKeys(chunk) ==> k in KeysOfRows(outputs) || Survives(caps, ChunkEntries(chunk), k)
  }

  /**
    The tables after a committed chunk whose inputs all resolve, and in any case rows
    that are bounded by the truth.
    */
  ghost predicate ChunkDone(t0: Tables, t: Tables, chunk: seq<Item>, caps: seq<nat>, out: Resolved, exact: bool) {
    && Grows(t0, t, chunk, out)
    && (FindsInputs(caps, t0.outputs, chunk) ==>
          && t.transactions == t0.transactions + TxRows(TxsOf(chunk), out)
          && (exact ==> ViewOf(t) == Ingested(ViewOf(t0), chunk, out)))
  }

  lemma ChunkOutcome(t0: Tables, t: Tables, chunk: seq<Item>, c: CacheState, m: Resolved, caps: seq<nat>, out: Resolved,
                     exact: bool)
    requires |c.shards| == NUM_SHARDS && Exactly(t0, t, chunk, m) && Sound(m, out, exact)
    requires forall k :: k in CollectInputKeys(chunk) ==> (k in m <==> Resolvable(c, t0.outputs, caps, chunk, k))
    ensures ChunkDone(t0, t, chunk, caps, out, exact)
  {
    FullyResolved(t0, t, chunk, m, out, exact);
  }

  /**
    A chunk's transaction rows are the true ones if and only if every input that cannot
    be resolved is worth nothing.
    */
  lemma ChunkIsExactIff(t0: Tables, t: Tables, chunk: seq<Item>, c: CacheState, m: Resolved, caps: seq<nat>,
                        out: Resolved, exact: bool)
    requires |c.shards| == NUM_SHARDS && Exactly(t0, t, chunk, m) && Sound(m, out, exact)
    requires forall k :: k in CollectInputKeys(chunk) ==> (k in m <==> Resolvable(c, t0.outputs, caps, chunk, k))
    ensures t.transactions == t0.transactions + TxRows(TxsOf(chunk), out) <==>
            forall k :: k in CollectInputKeys(chunk) && !Resolvable(c, t0.outputs, caps, chunk, k) ==>
                k !in out || out[k].amount == 0
  {
    var ps := TxsOf(chunk);
    TxRowsExactIff(ps, m, out);
    assert forall k :: k in SpentKeys(ps) ==> (Harmless(k, m, out) <==>
                                               Resolvable(c, t0.outputs, caps, chunk, k) || k !in out
                                                 || out[k].amount == 0);
    TailAfterAppend(t0.transactions, TxRows(ps, m), TxRows(ps, out));
  }

  lemma TailAfterAppend<T>(xs: seq<T>, a: seq<T>, b: seq<T>)
    ensures xs + a == xs + b <==> a == b
  {
    if xs + a == xs + b {
      assert a == (xs + a)[|xs|..] == (xs + b)[|xs|..] == b;
    }
  }

  /**
    The tables after the first `done` blocks of a batch. In any case nothing but
    the input amounts is open, and these never exceed the truth. When each chunk finds
    what it spends in the table or among its own outputs that stay cached, amounts are
    exact, and with a fully truthful cache the store is that of block-by-block
    ingestion. The first block has passed the check of its parent, and no block means no change.
    */
  ghost predicate PrefixIngested(t0: Tables, t: Tables, items: seq<Item>, done: nat, chunks: seq<Range>, caps: seq<nat>,
                             out: Resolved, exact: bool)
    requires done <= |items|
  {
    && Grows(t0, t, items[..done], out) && (done == 0 ==> t == t0)
    && (done > 0 ==> ParentCheck(t0.blocks, items[0]).Pass?)
    && (SpentSurvive(caps, items, chunks, t0.outputs) ==>
          && t.transactions == t0.transactions + TxRows(TxsOf(items[..done]), out)
          && (exact ==> ViewOf(t) == Sequential(ViewOf(t0), items[..done], out)))
  }

  /** What holds of the tables after so many blocks. */
  type BatchInvariant = (Tables, int) -> bool

  /** Each committed chunk carries `inv` on, and `inv` keeps the output table true. */
  ghost predicate Inductive(inv: BatchInvariant, items: seq<Item>, ranges: seq<Range>, caps: seq<nat>, out: Resolved,
                            exact: bool) {
    && (forall t1, t2, i {:trigger ChunkDone(t1, t2, items[ranges[i].start..ranges[i].end], caps, out, exact)} ::
          (&& 0 <= i < |ranges| && ranges[i].start < ranges[i].end <= |items| && inv(t1, ranges[i].start)
           && ChunkDone(t1, t2, items[ranges[i].start..ranges[i].end], caps, out, exact)
           && ParentCheck(t1.blocks, items[ranges[i].start]).Pass?) ==> inv(t2, ranges[i].end))
    && (forall t, d {:trigger inv(t, d), OutputsTrue(t.outputs, out)} :: inv(t, d) ==> OutputsTrue(t.outputs, out))
  }

  ghost function PrefixInvariant(t0: Tables, items: seq<Item>, chunks: seq<Range>, caps: seq<nat>, out: Resolved,
                                 exact: bool): BatchInvariant {
    (t: Tables, d: int) => 0 <= d <= |items| && PrefixIngested(t0, t, items, d, chunks, caps, out, exact)
  }

  lemma PrefixIsInductive(t0: Tables, items: seq<Item>, budget: nat, chunks: seq<Range>, caps: seq<nat>, out: Resolved,
                          exact: bool)
    requires Partition(Memories(items), budget, chunks)
    requires OutputsTrue(t0.outputs, out) && OutputsTrue(OutputRows(TxsOf(items)), out)
    ensures Inductive(PrefixInvariant(t0, items, chunks, caps, out, exact), items, chunks, caps, out, exact)
    ensures PrefixInvariant(t0, items, chunks, caps, out, exact)(t0, 0)
  {
    var inv := PrefixInvariant(t0, items, chunks, caps, out, exact);
    BatchStart(t0, items, chunks, caps, out, exact);
    forall t1, t2, i | && 0 <= i < |chunks| && chunks[i].start < chunks[i].end <= |items| && inv(t1, chunks[i].start)
                       && ChunkDone(t1, t2, items[chunks[i].start..chunks[i].end], caps, out, exact)
                       && ParentCheck(t1.blocks, items[chunks[i].start]).Pass?
      ensures inv(t2, chunks[i].end)
    {
      BatchStep(t0, t1, t2, items, chunks, i, caps, out, exact);
    }
    forall t, d | inv(t, d)
      ensures OutputsTrue(t.outputs, out)
    {
      PrefixOutputsTrue(t0, t, items, d, out);
    }
  }

  lemma PrefixOutputsTrue(t0: Tables, base: Tables, items: seq<Item>, done: nat, out: Resolved)
    requires done <= |items| && Grows(t0, base, items[..done], out)
    requires OutputsTrue(t0.outputs, out) && OutputsTrue(OutputRows(TxsOf(items)), out)
    ensures OutputsTrue(base.outputs, out)
  {
    OutputsOfPart(items, 0, done, out);
    assert items[0..done] == items[..done];
    OutputsTrueConcat(t0.outputs, OutputRows(TxsOf(items[..done])), out);
  }

  lemma BatchStart(t0: Tables, items: seq<Item>, chunks: seq<Range>, caps: seq<nat>, out: Resolved, exact: bool)
    ensures PrefixIngested(t0, t0, items, 0, chunks, caps, out, exact)
  {
    GrowsNothing(t0, out);
    assert items[..0] == [];
    assert TxRows([], out) == [];
  }

  lemma TwoParts<T>(s: seq<T>, lo: nat, hi: nat)
    requires lo <= hi <= |s|
    ensures s[..hi] == s[..lo] + s[lo..hi]
  {
  }

  lemma BatchStep(t0: Tables, t1: Tables, t2: Tables, items: seq<Item>, chunks: seq<Range>, i: nat, caps: seq<nat>,
                  out: Resolved, exact: bool)
    requires i < |chunks| && chunks[i].start < chunks[i].end <= |items|
    requires PrefixIngested(t0, t1, items, chunks[i].start, chunks, caps, out, exact)
    requires ChunkDone(t1, t2, items[chunks[i].start..chunks[i].end], caps, out, exact)
    requires ParentCheck(t1.blocks, items[chunks[i].start]).Pass?
    ensures PrefixIngested(t0, t2, items, chunks[i].end, chunks, caps, out, exact)
  {
    var lo, hi := chunks[i].start, chunks[i].end;
    var a, b := items[..lo], items[lo..hi];
    TwoParts(items, lo, hi);
    GrowsTransitive(t0, t1, t2, a, b, out);
    if lo == 0 {
      assert BlockRows(a) == [];
      assert t1.blocks == t0.blocks;
    }
    if SpentSurvive(caps, items, chunks, t0.outputs) {
      assert FindsInputs(caps, t1.outputs, b) by {
        assert chunks[i] in chunks;
        EarlierOutputsStored(t0, t1, a, out);
        assert ChunkResolves(caps, items, chunks[i], t0.outputs);
      }
      ExactStep(t0, t1, t2, a, b, out, exact);
    }
  }

  lemma ExactStep(t0: Tables, t1: Tables, t2: Tables, a: seq<Item>, b: seq<Item>, out: Resolved, exact: bool)
    requires t1.transactions == t0.transactions + TxRows(TxsOf(a), out)
             && t2.transactions == t1.transactions + TxRows(TxsOf(b), out)
    requires exact ==> ViewOf(t1) == Sequential(ViewOf(t0), a, out) && ViewOf(t2) == Ingested(ViewOf(t1), b, out)
    ensures t2.transactions == t0.transactions + TxRows(TxsOf(a + b), out)
    ensures exact ==> ViewOf(t2) == Sequential(ViewOf(t0), a + b, out)
  {
    TxsConcat(a, b);
    TxRowsConcat(TxsOf(a), TxsOf(b), out);
    Assoc(t0.transactions, TxRows(TxsOf(a), out), TxRows(TxsOf(b), out));
    PhasesCommuteWithBlocks(Sequential(ViewOf(t0), a, out), b, out);
    SequentialConcat(ViewOf(t0), a, b, out);
  }

  lemma EarlierOutputsStored(t0: Tables, t1: Tables, a: seq<Item>, out: Resolved)
    requires Grows(t0, t1, a, out)
    ensures KeysOfRows(t1.outputs) == KeysOfRows(t0.outputs) + NewKeys(a)
  {
    KeysOfRowsConcat(t0.outputs, OutputRows(TxsOf(a)));
  }

  /** Valid blocks whose chunks' outputs fit the cache need nothing more. */
  lemma RoomIsEnough(caps: seq<nat>, items: seq<Item>, chunks: seq<Range>, outputs: seq<OutputData>)
    requires RoomForChunks(caps, items, chunks) && Spendable(items, outputs)
    ensures SpentSurvive(caps, items, chunks, outputs)
  {
    forall c | c in chunks && c.start <= c.end <= |items|
      ensures ChunkResolves(caps, items, c, outputs)
    {
      RoomIsEnoughForOne(caps, items, c.start, c.end, outputs);
    }
  }

  lemma RoomIsEnoughForOne(caps: seq<nat>, items: seq<Item>, lo: nat, hi: nat, outputs: seq<OutputData>)
    requires lo <= hi <= |items| && Spendable(items, outputs) && Room(caps, NewKeys(items[lo..hi]))
    ensures ChunkResolves(caps, items, Range(lo, hi), outputs)
  {
    var a, b := items[..lo], items[lo..hi];
    assert items[..hi] == a + b;
    TxsConcat(a, b);
    SpentConcat(TxsOf(a), TxsOf(b));
    OutputsConcat(TxsOf(a), TxsOf(b));
    KeysOfRowsConcat(OutputRows(TxsOf(a)), OutputRows(TxsOf(b)));
    EntriesOfRows(OutputRows(TxsOf(b)), map[], false);
    forall k | k in CollectInputKeys(b)
      ensures k in KeysOfRows(outputs) + NewKeys(a) || Survives(caps, ChunkEntries(b), k)
    {
      assert k in CollectInputKeys(items[..hi]);
      if k in NewKeys(b) {
        RoomSurvives(caps, ChunkEntries(b), k);
      }
    }
  }

  lemma KeysOfRowsConcat(a: seq<OutputData>, b: seq<OutputData>)
    ensures KeysOfRows(a + b) == KeysOfRows(a) + KeysOfRows(b)
  {
    assert forall o :: o in a + b <==> o in a || o in b;
  }

  lemma OutputsOfPart(items: seq<Item>, lo: nat, hi: nat, out: Resolved)
    requires lo <= hi <= |items| && OutputsTrue(OutputRows(TxsOf(items)), out)
    ensures OutputsTrue(OutputRows(TxsOf(items[lo..hi])), out)
  {
    ThreeParts(items, lo, hi);
    OutputsOfMiddle(items[..lo], items[lo..hi], items[hi..], out);
  }

  lemma RangeAt(memory: seq<nat>, budget: nat, ranges: seq<Range>, i: nat)
    requires Partition(memory, budget, ranges) && i < |ranges|
    ensures ranges[i].start == StartOf(ranges, i) && StartOf(ranges, i + 1) == ranges[i].end
    ensures ranges[i].start < ranges[i].end <= |memory|
  {
    assert Fits(memory, budget, ranges, i);
  }

  lemma ThreeParts<T>(s: seq<T>, lo: nat, hi: nat)
    requires lo <= hi <= |s|
    ensures s[..lo] + s[lo..hi] + s[hi..] == s
  {
  }

  lemma OutputsOfMiddle(a: seq<Item>, b: seq<Item>, c: seq<Item>, out: Resolved)
    requires OutputsTrue(OutputRows(TxsOf(a + b + c)), out)
    ensures OutputsTrue(OutputRows(TxsOf(b)), out)
  {
    OutputsSplit(a + b, c, out);
    OutputsSplit(a, b, out);
  }

  lemma OutputsSplit(a: seq<Item>, b: seq<Item>, out: Resolved)
    ensures OutputsTrue(OutputRows(TxsOf(a + b)), out) <==>
            OutputsTrue(OutputRows(TxsOf(a)), out) && OutputsTrue(OutputRows(TxsOf(b)), out)
  {
    TxsConcat(a, b);
    OutputsConcat(TxsOf(a), TxsOf(b));
    OutputsTrueConcat(OutputRows(TxsOf(a)), OutputRows(TxsOf(b)), out);
  }

  lemma SpendableOne(item: Item, outputs: seq<OutputData>, rows: seq<OutputData>)
    requires rows == OutputRows(TxsOf([item]))
    ensures Spendable([item], outputs) ==>
              forall k :: k in CollectInputKeys([item]) ==> FindOutput(outputs + rows, k).Some?
  {
    if Spendable([item], outputs) {
      forall k | k in CollectInputKeys([item])
        ensures FindOutput(outputs + rows, k).Some?
      {
        assert [item][..1] == [item];
        var o :| o in outputs + rows && o.key == k;
        KeysInTable(outputs + rows, k);
      }
    }
  }

  /** When every input was resolved, the tables are those of the true outputs. */
  lemma FullyResolved(t0: Tables, t: Tables, items: seq<Item>, m: Resolved, out: Resolved, exact: bool)
    requires Exactly(t0, t, items, m) && Sound(m, out, exact)
    ensures Grows(t0, t, items, out)
    ensures (forall k :: k in CollectInputKeys(items) ==> k in m) ==>
              t.transactions == t0.transactions + TxRows(TxsOf(items), out)
    ensures exact && (forall k :: k in CollectInputKeys(items) ==> k in m) ==>
              ViewOf(t) == Ingested(ViewOf(t0), items, out)
  {
    ExactlyGrows(t0, t, items, m, out);
    if forall k :: k in CollectInputKeys(items) ==> k in m {
      AmountsAreTrue(TxsOf(items), m, out);
      if exact {
        RowsAreTrue(TxsOf(items), m, out);
        ExactlyIsIngested(t0, t, items, m);
      }
    }
  }

  lemma AppendedTransitive(t0: Tables, t1: Tables, t2: Tables)
    requires Appended(t0, t1) && Appended(t1, t2)
    ensures Appended(t0, t2)
  {
  }

  /** `t` is `t0` after the writes of Phase 6, in some order. */
  ghost predicate Related(t0: Tables, t: Tables, performs: multiset<PerformsData>, benefits: multiset<BenefitsToData>) {
    && t == t0.(performs := t.performs, benefits := t.benefits)
    && t0.performs <= t.performs && multiset(t.performs) == multiset(t0.performs) + performs
    && t0.benefits <= t.benefits && multiset(t.benefits) == multiset(t0.benefits) + benefits
  }

  /** `t` is `t0` after phases 3 to 7 with the given rows. */
  ghost predicate Rest(t0: Tables, t: Tables, chunk: seq<Item>, offset: Option<nat>, transactions: seq<TransactionData>,
                       performs: multiset<PerformsData>, benefits: multiset<BenefitsToData>) {
    && chunk != []
    && t.checkpoint == Some(CheckpointFor(chunk[|chunk| - 1], offset))
    && Related(t0.(transactions := t0.transactions + transactions, inputs := t0.inputs + InputRows(TxsOf(chunk)),
                   checkpoint := t.checkpoint),
               t, performs, benefits)
  }

  /** Precisely those inputs are resolved that were prefetched or are outputs of the chunk that stay cached. */
  ghost predicate ResolvedAre(resolved: Resolved, prefetched: Resolved, caps: seq<nat>, chunk: seq<Item>) {
    forall k :: k in CollectInputKeys(chunk) ==>
                  (k in resolved <==> k in prefetched || Survives(caps, ChunkEntries(chunk), k))
  }

  lemma SurvivorsAreResolved(c: CacheState, caps: seq<nat>, out: Resolved, exact: bool, chunk: seq<Item>,
                             prefetched: Resolved, resolved: Resolved)
    requires Good(c, caps, out, exact)
    requires forall k :: k in CollectInputKeys(chunk) && Lookup(c, k).Some? ==> k in prefetched
    requires forall k :: k in CollectInputKeys(chunk) ==>
                           (k in resolved <==>
                            k in prefetched || Lookup(InsertEach(c, ChunkEntries(chunk)), k).Some?)
    ensures ResolvedAre(resolved, prefetched, caps, chunk)
  {
    FreshOutputsCached(c, caps, out, exact, chunk);
  }

  lemma PhasesCompose(t0: Tables, t1: Tables, t: Tables, chunk: seq<Item>, offset: Option<nat>, m: Resolved)
    requires t1 == FirstWrites(t0, chunk, 2)
    ensures Appended(t1, t) ==> Appended(t0, t)
    ensures Rest(t1, t, chunk, offset, TxRows(TxsOf(chunk), m), PerformsRows(TxsOf(chunk), m),
                 BenefitsRows(TxsOf(chunk))) ==>
              Exactly(t0, t, chunk, m)
  {
  }
}
