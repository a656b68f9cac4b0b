/** The two ways to ingest a list of blocks, run side by side. */
module Equivalence {
  import opened Types
  import opened Chain
  import opened Aggregation
  import opened Cache
  import opened Coherence
  import opened Writer
  import opened Refinement
  import opened Chunking
  import opened Ingestion
  import opened CachePhases
  import opened Orchestration
  import opened Resume

  lemma SpendableNext(base: Tables, t: Tables, blocks: seq<Item>, i: nat, out: Resolved)
    requires i < |blocks| && Spendable(blocks, base.outputs) && Grows(base, t, blocks[..i], out)
    ensures Spendable([blocks[i]], t.outputs)
  {
    SpendableSuffix(base, t, blocks, i, out);
    forall n, k | 0 <= n <= 1 && k in CollectInputKeys([blocks[i]][..n])
      ensures k in KeysOfRows(t.outputs) + NewKeys([blocks[i]][..n])
    {
      assert blocks[i..][..n] == [blocks[i]][..n];
    }
  }

  lemma PrefixGrows<T>(s: seq<T>, i: nat)
    requires i < |s|
    ensures s[..i + 1] == s[..i] + [s[i]] && s[i..i + 1] == [s[i]]
  {
  }

  lemma OneMoreBlock(base: Tables, t1: Tables, t2: Tables, blocks: seq<Item>, i: nat, out: Resolved)
    requires i < |blocks| && IngestedUpTo(base, t1, blocks, i, out)
    requires Grows(t1, t2, [blocks[i]], out) && ViewOf(t2) == Sequential(ViewOf(t1), [blocks[i]], out)
    ensures IngestedUpTo(base, t2, blocks, i + 1, out)
  {
    PrefixGrows(blocks, i);
    assert Grows(base, t2, blocks[..i] + [blocks[i]], out) by {
      GrowsTransitive(base, t1, t2, blocks[..i], [blocks[i]], out);
    }
    SequentialConcat(ViewOf(base), blocks[..i], [blocks[i]], out);
  }

  lemma OneIsTrue(blocks: seq<Item>, i: nat, out: Resolved)
    requires i < |blocks| && OutputsTrue(OutputRows(TxsOf(blocks)), out)
    ensures OutputsTrue(OutputRows(TxsOf([blocks[i]])), out)
  {
    PrefixGrows(blocks, i);
    OutputsOfPart(blocks, i, i + 1, out);
  }

  /**
    One call of `IngestBlock` per block; `done` blocks are ingested, and `n` writes of the next one
    if a call failed.
    */
  method IngestOneByOne(o: Orchestrator, blocks: seq<Item>, ghost h0: nat, ghost out: Resolved)
    returns (ok: bool, ghost done: nat, ghost n: nat, ghost last: Tables)
    requires o.Ready(out, true) && Extendable(o.writer.Contents(), blocks, h0, out)
    modifies o.writer, o.cache
    ensures o.Ready(out, true) && Explains(old(o.writer.log), o.writer.log, o.writer.inTransaction, o.writer.Quiet())
    ensures done <= |blocks| && IngestedUpTo(old(o.writer.Contents()), last, blocks, done, out)
    ensures ok ==> done == |blocks| && o.writer.Contents() == last
    ensures !ok ==> old(o.writer.log.failures) < o.writer.log.failures
    ensures !ok ==> done < |blocks| && n < 7 && Reached(last, o.writer.Contents(), blocks[done], None, out, true, n)
  {
    ghost var base := o.writer.Contents();
    NothingIngested(base, blocks, out);
    done, n, last := 0, 0, base;
    for i := 0 to |blocks|
      invariant o.Ready(out, true) && Explains(old(o.writer.log), o.writer.log, o.writer.inTransaction,
                                               o.writer.Quiet())
      invariant done == i && last == o.writer.Contents() && IngestedUpTo(base, last, blocks, i, out)
    {
      ok, n := IngestNth(o, blocks, i, base, h0, out);
      if !ok {
        return;
      }
      done, last := i + 1, o.writer.Contents();
    }
    ok := true;
  }

  method IngestNth(o: Orchestrator, blocks: seq<Item>, i: nat, ghost base: Tables, ghost h0: nat, ghost out: Resolved)
    returns (ok: bool, ghost n: nat)
    requires i < |blocks| && o.Ready(out, true) && Extendable(base, blocks, h0, out)
    requires IngestedUpTo(base, o.writer.Contents(), blocks, i, out)
    modifies o.writer, o.cache
    ensures o.Ready(out, true) && Explains(old(o.writer.log), o.writer.log, o.writer.inTransaction, o.writer.Quiet())
    ensures ok ==> IngestedUpTo(base, o.writer.Contents(), blocks, i + 1, out)
    ensures !ok ==> old(o.writer.log.failures) < o.writer.log.failures
    ensures !ok ==> n < 7 && Reached(old(o.writer.Contents()), o.writer.Contents(), blocks[i], None, out, true, n)
  {
    ghost var t1 := o.writer.Contents();
    OneIsTrue(blocks, i, out);
    ParentIsStored(base, t1, blocks, h0, i, out);
    assert Spendable([blocks[i]], t1.outputs) by {
      SpendableNext(base, t1, blocks, i, out);
    }
    var r;
    r, n := o.IngestBlock(blocks[i], None, out, true);
    ok := r.Pass?;
    if ok {
      OneMoreBlock(base, t1, o.writer.Contents(), blocks, i, out);
    }
  }

  /**
    Batch refines sequential: from equal stores, the chunked, phase-reordered batch
    with any memory budget and one `IngestBlock` call per block leave the same view,
    when the outputs of each chunk that the budget gives fit the cache of the batch;
    each succeeds unless one of its calls fails. The caches may differ, and that of the
    block-by-block run may have any capacity.
    */
  method BothWays(fast: Orchestrator, slow: Orchestrator, blocks: seq<Item>, h0: nat, ghost out: Resolved)
    returns (a: bool, b: bool)
    requires fast.writer != slow.writer && fast.cache != slow.cache
    requires fast.writer.Contents() == slow.writer.Contents()
    requires fast.Ready(out, true) && slow.Ready(out, true)
    requires Extendable(fast.writer.Contents(), blocks, h0, out) && RoomForGreedy(fast.caps, fast.maxMemory, blocks)
    modifies fast.writer, fast.cache, slow.writer, slow.cache
    ensures a && b ==> ViewOf(fast.writer.Contents()) == ViewOf(slow.writer.Contents())
    ensures !a ==> old(fast.writer.log.failures) < fast.writer.log.failures
    ensures !b ==> old(slow.writer.log.failures) < slow.writer.log.failures
  {
    ghost var base := fast.writer.Contents();
    NothingIngested(base, blocks, out);
    assert blocks[..|blocks|] == blocks && blocks[0..] == blocks;
    ghost var done, n, last;
    b, done, n, last := IngestOneByOne(slow, blocks, h0, out);
    var clean;
    ghost var r, fastLast;
    a, clean, r, fastLast := AttemptWith(fast, blocks, h0, base, 0, out);
  }
}
