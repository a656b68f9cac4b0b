/** Restarting after failures: whatever fails and whenever, no block is lost and none is ingested twice. */
module Resume {
  import opened Types
  import opened Chain
  import opened Aggregation
  import opened Cache
  import opened Coherence
  import opened Writer
  import opened Refinement
  import opened Chunking
  import opened Ingestion
  import opened CachePhases
  import opened Orchestration

  /** Consecutive heights from `h0` on, each block naming its predecessor's hash. */
  ghost predicate Linked(blocks: seq<Item>, h0: int) {
    && (forall i :: 0 <= i < |blocks| ==> blocks[i].height == h0 + i)
    && (forall i :: 0 < i < |blocks| ==> blocks[i].block.prevHash == blocks[i - 1].block.hash)
  }

  /** The chunks that the greedy split forms have outputs that fit the cache. */
  ghost predicate RoomForGreedy(caps: seq<nat>, budget: nat, blocks: seq<Item>) {
    forall chunks :: Partition(Memories(blocks), budget, chunks) && Maximal(Memories(blocks), budget, chunks) ==>
                       RoomForChunks(caps, blocks, chunks)
  }

  /** So it is wherever ingestion may resume. */
  ghost predicate RoomFromAnywhere(caps: seq<nat>, budget: nat, blocks: seq<Item>) {
    forall r :: 0 <= r <= |blocks| ==> RoomForGreedy(caps, budget, blocks[r..])
  }

  lemma SpendableSuffix(base: Tables, t: Tables, blocks: seq<Item>, r: nat, out: Resolved)
    requires r <= |blocks| && Spendable(blocks, base.outputs) && Grows(base, t, blocks[..r], out)
    ensures Spendable(blocks[r..], t.outputs)
  {
    EarlierOutputsStored(base, t, blocks[..r], out);
    forall n, k | 0 <= n <= |blocks[r..]| && k in CollectInputKeys(blocks[r..][..n])
      ensures k in KeysOfRows(t.outputs) + NewKeys(blocks[r..][..n])
    {
      SpendableAt(blocks, base.outputs, r, n, k);
    }
  }

  lemma SpendableAt(blocks: seq<Item>, outputs: seq<OutputData>, r: nat, n: nat, k: UtxoKey)
    requires r <= |blocks| && n <= |blocks[r..]| && Spendable(blocks, outputs)
             && k in CollectInputKeys(blocks[r..][..n])
    ensures k in KeysOfRows(outputs) + NewKeys(blocks[..r]) + NewKeys(blocks[r..][..n])
  {
    var a, b := blocks[..r], blocks[r..][..n];
    assert blocks[..r + n] == a + b;
    TxsConcat(a, b);
    SpentConcat(TxsOf(a), TxsOf(b));
    OutputsConcat(TxsOf(a), TxsOf(b));
    KeysOfRowsConcat(OutputRows(TxsOf(a)), OutputRows(TxsOf(b)));
    assert k in CollectInputKeys(blocks[..r + n]);
  }

  /** The store after exactly the first `r` blocks. */
  ghost predicate IngestedUpTo(base: Tables, t: Tables, blocks: seq<Item>, r: nat, out: Resolved)
    requires r <= |blocks|
  {
    && Grows(base, t, blocks[..r], out)
    && ViewOf(t) == Sequential(ViewOf(base), blocks[..r], out)
  }

  lemma NothingIngested(base: Tables, blocks: seq<Item>, out: Resolved)
    ensures IngestedUpTo(base, base, blocks, 0, out)
  {
    GrowsNothing(base, out);
    assert blocks[..0] == [];
  }

  lemma MoreIngested(base: Tables, t1: Tables, t2: Tables, blocks: seq<Item>, r0: nat, done: nat, r: nat,
                     chunks: seq<Range>,
                     caps: seq<nat>, budget: nat, out: Resolved)
    requires r == r0 + done <= |blocks| && IngestedUpTo(base, t1, blocks, r0, out)
    requires Partition(Memories(blocks[r0..]), budget, chunks) && Maximal(Memories(blocks[r0..]), budget, chunks)
    requires RoomForGreedy(caps, budget, blocks[r0..]) && Spendable(blocks, base.outputs)
    requires PrefixIngested(t1, t2, blocks[r0..], done, chunks, caps, out, true)
    ensures IngestedUpTo(base, t2, blocks, r, out)
  {
    var a, b := blocks[..r0], blocks[r0..][..done];
    assert blocks[..r] == a + b;
    assert Grows(base, t2, a + b, out) by {
      GrowsTransitive(base, t1, t2, a, b, out);
    }
    assert SpentSurvive(caps, blocks[r0..], chunks, t1.outputs) by {
      SpendableSuffix(base, t1, blocks, r0, out);
      RoomIsEnough(caps, blocks[r0..], chunks, t1.outputs);
    }
    SequentialConcat(ViewOf(base), a, b, out);
  }

  // ------------------------------------------------------------------
  // The next block's parent is in the store
  // ------------------------------------------------------------------

  lemma {:induction false} FindBlockConcat(a: seq<BlockData>, b: seq<BlockData>, h: int)
    ensures FindBlock(a + b, h) == if FindBlock(a, h).Some? then FindBlock(a, h) else FindBlock(b, h)
  {
    if a == [] {
      assert a + b == b;
    } else {
      assert (a + b)[1..] == a[1..] + b;
      FindBlockConcat(a[1..], b, h);
    }
  }

  lemma {:induction false} FindInRun(blocks: seq<Item>, h0: int, i: nat)
    requires Linked(blocks, h0) && i < |blocks|
    ensures FindBlock(BlockRows(blocks), h0 + i) == Some(BlockRow(blocks[i]))
  {
    assert BlockRows(blocks)[1..] == BlockRows(blocks[1..]);
    if i > 0 {
      assert forall j :: 0 <= j < |blocks| - 1 ==> blocks[1..][j] == blocks[j + 1];
      FindInRun(blocks[1..], h0 + 1, i - 1);
    }
  }

  /** The block height that follows the checkpoint. */
  function NextHeight(c: Option<Checkpoint>): nat {
    match c
    case Some(c) => if c.height < 0 then 0 else c.height + 1
    case None => 0
  }

  /** `blocks` continue the chain in `base`, whose next height is `h0`. */
  ghost predicate Extendable(base: Tables, blocks: seq<Item>, h0: nat, out: Resolved) {
    && OutputsTrue(OutputRows(TxsOf(blocks)), out)
    && Linked(blocks, h0) && Spendable(blocks, base.outputs)
    && h0 == NextHeight(base.checkpoint)
    && (forall b :: b in base.blocks ==> b.height < h0)
    && (blocks != [] ==> ParentCheck(base.blocks, blocks[0]).Pass?)
  }

  lemma LastIsFound(before: seq<BlockData>, run: seq<Item>, h0: nat)
    requires run != [] && Linked(run, h0) && forall b :: b in before ==> b.height < h0
    ensures FindBlock(before + BlockRows(run), h0 + |run| - 1) == Some(BlockRow(run[|run| - 1]))
  {
    var h := h0 + |run| - 1;
    FindInRun(run, h0, |run| - 1);
    FindBlockConcat(before, BlockRows(run), h);
    FindBlockFinds(before, h);
  }

  lemma ParentIsStored(base: Tables, t: Tables, blocks: seq<Item>, h0: nat, r: nat, out: Resolved)
    requires Extendable(base, blocks, h0, out) && r < |blocks| && Grows(base, t, blocks[..r], out)
    ensures ParentCheck(t.blocks, blocks[r]).Pass?
  {
    if r == 0 {
      assert t.blocks == base.blocks;
    } else {
      LastIsFound(base.blocks, blocks[..r], h0);
      assert blocks[r].block.prevHash == blocks[r - 1].block.hash && blocks[r].height == h0 + r;
    }
  }

  lemma HeightAfter(base: Tables, t: Tables, blocks: seq<Item>, h0: nat, r: nat, out: Resolved)
    requires Extendable(base, blocks, h0, out) && r <= |blocks| && Grows(base, t, blocks[..r], out)
    ensures NextHeight(t.checkpoint) == h0 + r
  {
  }

  // ------------------------------------------------------------------
  // Runs with failures
  // ------------------------------------------------------------------

  /** Orchestrators on one store whose caches tell the truth. They may share a cache or not. */
  ghost predicate AllGood(os: seq<Orchestrator>, w: MockWriter, blocks: seq<Item>, out: Resolved)
    reads set i | 0 <= i < |os| :: os[i].cache
  {
    forall i :: 0 <= i < |os| ==>
                  && os[i].writer == w && Good(os[i].cache.State(), os[i].caps, out, true)
                  && RoomFromAnywhere(os[i].caps, os[i].maxMemory, blocks)
  }

  /**
    Attempt after attempt, each with its own orchestrator, each starting at the block
    after the checkpoint. After any failures whatever, `last`, the tables after the last
    commit, are the first `r` blocks, once each, and the store is `last` but for what is
    left under way. The run ends early (`clean` false) only with something under way, that
    is after a failed rollback, or a failed relationship write that left tasks behind. An
    attempt in which no call fails completes, and then all blocks are there.
    */
  method IngestWithRestarts(w: MockWriter, os: seq<Orchestrator>, blocks: seq<Item>, h0: nat, ghost out: Resolved)
    returns (completed: bool, clean: bool, ghost r: nat, ghost last: Tables)
    requires AllGood(os, w, blocks, out) && w.Settled()
    requires OutputsTrue(w.outputs, out) && Extendable(w.Contents(), blocks, h0, out)
    modifies w, set i | 0 <= i < |os| :: os[i].cache
    ensures r <= |blocks| && IngestedUpTo(old(w.Contents()), last, blocks, r, out) && w.Over(last)
    ensures Explains(old(w.log), w.log, w.inTransaction, w.Quiet()) && (clean <==> w.Settled())
    ensures completed ==>
              clean && r == |blocks| && ViewOf(w.Contents()) == Sequential(ViewOf(old(w.Contents())), blocks, out)
    ensures !completed && clean ==> w.log.failures >= old(w.log.failures) + |os|
  {
    ghost var base := w.Contents();
    completed, clean, r, last := false, true, 0, base;
    NothingIngested(base, blocks, out);
    w.OverItself();
    for i := 0 to |os|
      invariant r <= |blocks| && last == w.Contents() && IngestedUpTo(base, last, blocks, r, out)
      invariant AllGood(os, w, blocks, out) && w.Settled() && OutputsTrue(w.outputs, out)
      invariant Explains(old(w.log), w.log, w.inTransaction, w.Quiet()) && w.log.failures >= old(w.log.failures) + i
      invariant clean && !completed && w.Over(last)
    {
      completed, clean, r, last := Attempt(w, os, i, blocks, h0, base, r, out);
      if completed {
        assert blocks[..|blocks|] == blocks;
      }
      if completed || !clean {
        return;
      }
    }
  }

  /** One restart of the process: read the checkpoint, ingest what follows it. */
  method Attempt(w: MockWriter, os: seq<Orchestrator>, i: nat, blocks: seq<Item>, h0: nat,
                 ghost base: Tables, ghost r0: nat, ghost out: Resolved)
    returns (completed: bool, clean: bool, ghost r: nat, ghost last: Tables)
    requires i < |os| && AllGood(os, w, blocks, out) && w.Settled()
    requires OutputsTrue(w.outputs, out) && Extendable(base, blocks, h0, out)
    requires r0 <= |blocks| && IngestedUpTo(base, w.Contents(), blocks, r0, out)
    modifies w, set i | 0 <= i < |os| :: os[i].cache
    ensures AllGood(os, w, blocks, out) && (clean ==> OutputsTrue(w.outputs, out))
    ensures r <= |blocks| && IngestedUpTo(base, last, blocks, r, out) && w.Over(last)
    ensures Explains(old(w.log), w.log, w.inTransaction, w.Quiet()) && (clean <==> w.Settled())
    ensures completed ==> clean && r == |blocks|
    ensures !completed ==> old(w.log.failures) < w.log.failures
  {
    completed, clean, r, last := AttemptWith(os[i], blocks, h0, base, r0, out);
    forall j | 0 <= j < |os|
      ensures Good(os[j].cache.State(), os[j].caps, out, true)
    {
      if os[j].cache == os[i].cache {
        assert os[j].caps == os[i].caps;
      }
    }
  }

  method AttemptWith(o: Orchestrator, blocks: seq<Item>, h0: nat,
                     ghost base: Tables, ghost r0: nat, ghost out: Resolved)
    returns (completed: bool, clean: bool, ghost r: nat, ghost last: Tables)
    requires o.Ready(out, true) && r0 <= |blocks| && RoomForGreedy(o.caps, o.maxMemory, blocks[r0..])
    requires Extendable(base, blocks, h0, out) && IngestedUpTo(base, o.writer.Contents(), blocks, r0, out)
    modifies o.writer, o.cache
    ensures Good(o.cache.State(), o.caps, out, true) && (clean ==> OutputsTrue(o.writer.outputs, out))
    ensures r <= |blocks| && IngestedUpTo(base, last, blocks, r, out) && o.writer.Over(last)
    ensures Explains(old(o.writer.log), o.writer.log, o.writer.inTransaction, o.writer.Quiet())
            && (clean <==> o.writer.Settled())
    ensures completed ==> clean && r == |blocks|
    ensures !completed ==> old(o.writer.log.failures) < o.writer.log.failures
  {
    ghost var t1 := o.writer.Contents();
    NextIsAccepted(base, t1, blocks, h0, r0, out);
    assert OutputsTrue(OutputRows(TxsOf(blocks[r0..])), out) by {
      RestIsTrue(blocks, r0, out);
    }
    ghost var done, chunks;
    var items := BlocksLeft(o, blocks, h0, r0);
    completed, clean, done, chunks, last := RunBatch(o, items, out);
    r := r0 + done;
    AfterBatch(base, t1, last, blocks, items, h0, r0, done, r, chunks, o.caps, o.maxMemory, out);
  }

  /** What a batch from block `r0` on has done to the whole. */
  lemma AfterBatch(base: Tables, t1: Tables, t2: Tables, blocks: seq<Item>, items: seq<Item>, h0: nat, r0: nat,
                   done: nat, r: nat, chunks: seq<Range>,
                   caps: seq<nat>, budget: nat, out: Resolved)
    requires Extendable(base, blocks, h0, out) && r0 <= |blocks| && items == blocks[r0..]
             && IngestedUpTo(base, t1, blocks, r0, out)
    requires Partition(Memories(items), budget, chunks) && Maximal(Memories(items), budget, chunks)
             && RoomForGreedy(caps, budget, items)
    requires r == r0 + done && done <= |items| && PrefixIngested(t1, t2, items, done, chunks, caps, out, true)
    ensures IngestedUpTo(base, t2, blocks, r, out)
    ensures done < |items| ==> ParentCheck(t2.blocks, items[done]).Pass?
  {
    MoreIngested(base, t1, t2, blocks, r0, done, r, chunks, caps, budget, out);
    NextIsAccepted(base, t2, blocks, h0, r, out);
  }

  lemma NextIsAccepted(base: Tables, t: Tables, blocks: seq<Item>, h0: nat, r: nat, out: Resolved)
    requires Extendable(base, blocks, h0, out) && r <= |blocks| && IngestedUpTo(base, t, blocks, r, out)
    ensures r < |blocks| ==> ParentCheck(t.blocks, blocks[r]).Pass?
    ensures NextHeight(t.checkpoint) == h0 + r
  {
    HeightAfter(base, t, blocks, h0, r, out);
    if r < |blocks| {
      ParentIsStored(base, t, blocks, h0, r, out);
    }
  }

  /** The blocks that are left, by the height after the checkpoint. */
  method BlocksLeft(o: Orchestrator, blocks: seq<Item>, h0: nat, ghost r0: nat) returns (items: seq<Item>)
    requires r0 <= |blocks| && NextHeight(o.writer.checkpoint) == h0 + r0
    ensures items == blocks[r0..]
  {
    var h := o.GetResumeHeight();
    items := blocks[h - h0..];
  }

  /** One batch, with what the caller learns of how it ended. */
  method RunBatch(o: Orchestrator, items: seq<Item>, ghost out: Resolved)
    returns (completed: bool, clean: bool, ghost done: nat, ghost chunks: seq<Range>, ghost last: Tables)
    requires o.Ready(out, true) && OutputsTrue(OutputRows(TxsOf(items)), out)
    modifies o.writer, o.cache
    ensures Partition(Memories(items), o.maxMemory, chunks) && Maximal(Memories(items), o.maxMemory, chunks)
            && done <= |items|
    ensures Good(o.cache.State(), o.caps, out, true) && (clean ==> OutputsTrue(o.writer.outputs, out))
    ensures PrefixIngested(old(o.writer.Contents()), last, items, done, chunks, o.caps, out, true)
            && o.writer.Over(last)
    ensures Explains(old(o.writer.log), o.writer.log, o.writer.inTransaction, o.writer.Quiet())
            && (clean <==> o.writer.Settled())
    ensures completed ==> clean && done == |items|
    ensures !completed && o.writer.log.failures == old(o.writer.log.failures) ==>
              done < |items| && ParentCheck(last.blocks, items[done]).Fail?
  {
    var outcome;
    ghost var n;
    outcome, done, chunks, n, last := o.IngestBlocksBatch(items, out, true);
    clean := !o.writer.inTransaction && o.writer.latePerforms == [] && o.writer.lateBenefits == [];
    completed := outcome.Pass?;
  }

  lemma SplitAt<T>(s: seq<T>, r: nat)
    requires r <= |s|
    ensures s[..r] + s[r..] == s
  {
  }

  lemma RestIsTrue(blocks: seq<Item>, r: nat, out: Resolved)
    requires r <= |blocks| && OutputsTrue(OutputRows(TxsOf(blocks)), out)
    ensures OutputsTrue(OutputRows(TxsOf(blocks[r..])), out)
  {
    SplitAt(blocks, r);
    OutputsSplit(blocks[..r], blocks[r..], out);
  }
}
