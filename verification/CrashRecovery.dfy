/**
  Ingesting a block outside a transaction, stopping anywhere, and recovering: what is
  left depends on how many of the block's seven writes were done.
  */
module CrashRecovery {
  import opened Types
  import opened Chain
  import opened Aggregation
  import opened Cache
  import opened Coherence
  import opened Writer
  import opened Refinement
  import opened Ingestion
  import opened Orchestration
  import opened Recovery

  /** The store knows nothing above its checkpoint, and `item` is the block that follows. */
  ghost predicate Follows(t0: Tables, item: Item) {
    var c := Effective(t0.checkpoint);
    -1 <= c.height && UpToHeight(t0, c.height) && item.height == c.height + 1
  }

  function AfterRecovery(t: Tables): Tables {
    Recovered(t, Effective(t.checkpoint))
  }

  // ------------------------------------------------------------------
  // The tables after recovery, write by write
  // ------------------------------------------------------------------

  lemma NewBlockIsFound(blocks: seq<BlockData>, item: Item)
    requires forall b :: b in blocks ==> b.height < item.height
    ensures FindBlock(blocks + BlockRows([item]), item.height) == Some(BlockRow(item))
    ensures MaxHeight(blocks + BlockRows([item])) == item.height
  {
    assert BlockRows([item]) == [BlockRow(item)];
    FindBlockSnoc(blocks, BlockRow(item), item.height);
    FindBlockFinds(blocks, item.height);
    MaxHeightIsHighest(blocks + [BlockRow(item)]);
    assert BlockRow(item) in blocks + [BlockRow(item)];
  }

  lemma NoTransactionsYet(ts: seq<TransactionData>, f: int)
    requires forall r :: r in ts ==> r.blockHeight <= f
    ensures TxCountAt(ts, f + 1) == 0 && TxidsIn(ts, f, f + 1) == {} && Filter(TxOutside(f, f + 1), ts) == ts
  {
    FilterNone(TxAt(f + 1), ts);
    FilterAll(TxOutside(f, f + 1), ts);
  }

  lemma OneBlock(item: Item)
    ensures TxsOf([item]) == BlockTxs(item, |item.block.txs|)
  {
    var ps := BlockTxs(item, |item.block.txs|);
    assert [item][..0] == [] && TxsOf([]) == [];
    assert [] + ps == ps;
  }

  lemma RowsAtHeight(ps: seq<Pending>, out: Resolved, height: int)
    requires forall i :: 0 <= i < |ps| ==> ps[i].height == height
    ensures forall r :: r in TxRows(ps, out) ==> r.blockHeight == height
  {
    var rows := TxRows(ps, out);
    forall r | r in rows
      ensures r.blockHeight == height
    {
      var i :| 0 <= i < |rows| && rows[i] == r;
    }
  }

  lemma AllTransactionsThere(ts: seq<TransactionData>, item: Item, out: Resolved)
    requires forall r :: r in ts ==> r.blockHeight < item.height
    ensures TxCountAt(ts + TxRows(TxsOf([item]), out), item.height) == |item.block.txs|
  {
    var rows := TxRows(TxsOf([item]), out);
    OneBlock(item);
    FilterConcat(TxAt(item.height), ts, rows);
    FilterNone(TxAt(item.height), ts);
    RowsAtHeight(BlockTxs(item, |item.block.txs|), out, item.height);
    FilterAll(TxAt(item.height), rows);
  }

  lemma NothingNamed(t: Tables)
    ensures Filter(OutputNotOf({}), t.outputs) == t.outputs && Filter(InputNotOf({}), t.inputs) == t.inputs
    ensures Filter(PerformsNotOf({}), t.performs) == t.performs && Filter(BenefitsNotOf({}), t.benefits) == t.benefits
  {
    FilterAll(OutputNotOf({}), t.outputs);
    FilterAll(InputNotOf({}), t.inputs);
    FilterAll(PerformsNotOf({}), t.performs);
    FilterAll(BenefitsNotOf({}), t.benefits);
  }

  lemma NoTransactionsMeansIncomplete(t: Tables, h: int)
    requires TxCountAt(t.transactions, h) == 0
    ensures !Complete(t, h)
  {
  }

  lemma NothingComplete(t0: Tables, t: Tables, item: Item)
    requires Follows(t0, item) && t.blocks == t0.blocks + BlockRows([item]) && t.transactions == t0.transactions
    ensures t.blocks != [] && MaxHeight(t.blocks) == item.height
    ensures RecoveredHeight(t, Effective(t0.checkpoint)) == item.height - 1
  {
    NewBlockIsFound(t0.blocks, item);
    NoTransactionsYet(t.transactions, item.height - 1);
    NoTransactionsMeansIncomplete(t, item.height);
    OneBelow(t, item.height);
  }

  lemma OneBelow(t: Tables, h: int)
    requires !Complete(t, h)
    ensures HighestComplete(t, h - 1, h) == h - 1
  {
    assert HighestComplete(t, h - 1, h - 1) == h - 1;
  }

  /** A block without transaction rows is taken off, and nothing else is. */
  lemma BlockTakenOff(t0: Tables, t: Tables, item: Item)
    requires Follows(t0, item) && t.blocks == t0.blocks + BlockRows([item])
    requires t.transactions == t0.transactions && t.checkpoint == t0.checkpoint
    ensures AfterRecovery(t) == t.(blocks := t0.blocks)
  {
    var c := Effective(t0.checkpoint);
    NothingComplete(t0, t, item);
    BlockRemoved(t0, t, item, c.height);
  }

  lemma BlockRemoved(t0: Tables, t: Tables, item: Item, f: int)
    requires UpToHeight(t0, f) && item.height == f + 1
    requires t.blocks == t0.blocks + BlockRows([item]) && t.transactions == t0.transactions
    ensures RemoveRange(t, f, item.height) == t.(blocks := t0.blocks)
  {
    NoTransactionsYet(t.transactions, f);
    OldBlocksAreLeft(t0.blocks, [item], f, item.height);
    NothingNamed(t);
  }

  /** A block with all its transaction rows, and at least one, stays as it is. */
  lemma BlockKept(t0: Tables, t: Tables, item: Item, out: Resolved)
    requires Follows(t0, item) && t.blocks == t0.blocks + BlockRows([item]) && item.block.txs != []
    requires t.transactions == t0.transactions + TxRows(TxsOf([item]), out) && t.checkpoint == t0.checkpoint
    ensures RecoveredHeight(t, Effective(t.checkpoint)) == item.height
    ensures AfterRecovery(t) == t.(checkpoint := Some(Checkpoint(item.height, item.block.hash,
                                                                 Effective(t0.checkpoint).file, None)))
  {
    NewBlockIsFound(t0.blocks, item);
    AllTransactionsThere(t0.transactions, item, out);
    assert Complete(t, item.height);
    RemoveNothing(t, item.height, item.height);
  }

  lemma NoPerforms(rows: seq<PerformsData>)
    requires forall r :: r in rows ==> r.toTxid in Txids([])
    ensures rows == []
  {
    FilterAll(PerformsNotOf({}), rows);
    FilterNone(PerformsNotOf({}), rows);
  }

  /** A block without transactions has no rows but its own. */
  lemma EmptyBlock(t0: Tables, t: Tables, item: Item, offset: Option<nat>, out: Resolved, exact: bool, n: nat)
    requires Reached(t0, t, item, offset, out, exact, n) && item.block.txs == []
    ensures t == t0.(blocks := t.blocks, checkpoint := t.checkpoint)
  {
    assert [item][..0] == [] && TxsOf([item]) == [];
    if n >= 5 {
      NoPerforms(t.performs[|t0.performs|..]);
      TailAfter(t0.performs, t.performs);
    }
    if n >= 6 {
      NoneAdded(t0.benefits, t.benefits);
    }
  }

  /** The tables that recovery leaves, for every number of writes done. */
  function Left(t0: Tables, t: Tables, item: Item, n: nat): Tables {
    if n == 0 || n >= 7 then t
    else if n <= 2 || item.block.txs == [] then t.(blocks := t0.blocks)
    else t.(checkpoint := Some(Checkpoint(item.height, item.block.hash, Effective(t0.checkpoint).file, None)))
  }

  lemma RecoveryLeaves(t0: Tables, t: Tables, item: Item, offset: Option<nat>, out: Resolved, exact: bool, n: nat)
    requires Follows(t0, item) && Reached(t0, t, item, offset, out, exact, n)
    ensures AfterRecovery(t) == Left(t0, t, item, n)
  {
    if t.blocks != [] {
      MaxHeightIsHighest(t.blocks);
    }
    if n == 0 || n == 7 {
      assert BlockRows([item]) == [BlockRow(item)];
      NothingToRecover(t, Effective(t.checkpoint));
    } else if n <= 2 {
      BlockTakenOff(t0, t, item);
    } else if item.block.txs == [] {
      EmptyBlock(t0, t, item, offset, out, exact, n);
      BlockTakenOff(t0, t, item);
    } else {
      BlockKept(t0, t, item, out);
    }
  }

  // ------------------------------------------------------------------
  // Before the block, the whole block, or neither
  // ------------------------------------------------------------------

  ghost predicate SameRows(t0: Tables, t: Tables) {
    && t.blocks == t0.blocks && t.transactions == t0.transactions && t.outputs == t0.outputs
    && t.inputs == t0.inputs && t.performs == t0.performs && t.benefits == t0.benefits
  }

  /** All rows of the block are there, with true amounts. */
  ghost predicate WholeRows(t0: Tables, t: Tables, item: Item, out: Resolved) {
    var ps := TxsOf([item]);
    && t.blocks == t0.blocks + BlockRows([item]) && t.transactions == t0.transactions + TxRows(ps, out)
    && t.outputs == t0.outputs + OutputRows(ps) && t.inputs == t0.inputs + InputRows(ps)
    && multiset(t.performs) == multiset(t0.performs) + PerformsRows(ps, out)
    && multiset(t.benefits) == multiset(t0.benefits) + BenefitsRows(ps)
  }

  /**
    Recovery leaves the tables from before the block if and only if its outputs had not been
    written, or there were none to write.
    */
  lemma BeforeIff(t0: Tables, t: Tables, item: Item, offset: Option<nat>, out: Resolved, exact: bool, n: nat)
    requires Follows(t0, item) && Reached(t0, t, item, offset, out, exact, n)
    ensures SameRows(t0, AfterRecovery(t)) <==>
            n <= 1 || (n == 2 && OutputRows(TxsOf([item])) == []) || (n < 7 && item.block.txs == [])
  {
    RecoveryLeaves(t0, t, item, offset, out, exact, n);
    assert [item][..0] == [];
    assert |BlockRows([item])| == 1 && |TxRows(TxsOf([item]), out)| == |item.block.txs|;
    if item.block.txs == [] {
      EmptyBlock(t0, t, item, offset, out, exact, n);
    }
    if n == 2 && SameRows(t0, AfterRecovery(t)) {
      assert |t0.outputs + OutputRows(TxsOf([item]))| == |t0.outputs|;
    }
  }

  /**
    Recovery leaves the whole block if and only if all writes were done, or those of its
    transactions and every write after them that had rows to write.
    */
  lemma WholeIff(t0: Tables, t: Tables, item: Item, offset: Option<nat>, out: Resolved, n: nat)
    requires Follows(t0, item) && Reached(t0, t, item, offset, out, true, n)
    ensures WholeRows(t0, AfterRecovery(t), item, out) <==>
            || n == 7
            || (n >= 3 && item.block.txs != []
                && (n >= 4 || InputRows(TxsOf([item])) == [])
                && (n >= 5 || PerformsRows(TxsOf([item]), out) == multiset{})
                && (n >= 6 || BenefitsRows(TxsOf([item])) == multiset{}))
  {
    RecoveryLeaves(t0, t, item, offset, out, true, n);
    assert |BlockRows([item])| == 1;
    if 3 <= n < 7 {
      MissingRows(t0, t, item, offset, out, n);
    }
  }

  /** Which of the block's rows are there after its transactions have been written. */
  lemma MissingRows(t0: Tables, t: Tables, item: Item, offset: Option<nat>, out: Resolved, n: nat)
    requires Reached(t0, t, item, offset, out, true, n) && 3 <= n < 7
    ensures WholeRows(t0, t, item, out) <==>
            && (n >= 4 || InputRows(TxsOf([item])) == [])
            && (n >= 5 || PerformsRows(TxsOf([item]), out) == multiset{})
            && (n >= 6 || BenefitsRows(TxsOf([item])) == multiset{})
  {
    var ps := TxsOf([item]);
    if n == 3 && WholeRows(t0, t, item, out) {
      assert |t0.inputs + InputRows(ps)| == |t0.inputs|;
    }
    if n < 5 {
      NothingAddedIff(multiset(t0.performs), PerformsRows(ps, out));
    }
    if n < 6 {
      NothingAddedIff(multiset(t0.benefits), BenefitsRows(ps));
    }
  }

  lemma NothingAddedIff<T>(a: multiset<T>, b: multiset<T>)
    ensures a == a + b <==> b == multiset{}
  {
    if a == a + b {
      assert |a + b| == |a| + |b|;
    }
  }

  /** For a block with rows in every table, recovery leaves neither if the store stopped after two to five writes. */
  lemma TornIff(t0: Tables, t: Tables, item: Item, offset: Option<nat>, out: Resolved, n: nat)
    requires Follows(t0, item) && Reached(t0, t, item, offset, out, true, n)
    requires item.block.txs != [] && OutputRows(TxsOf([item])) != [] && InputRows(TxsOf([item])) != []
    requires PerformsRows(TxsOf([item]), out) != multiset{} && BenefitsRows(TxsOf([item])) != multiset{}
    ensures SameRows(t0, AfterRecovery(t)) <==> n <= 1
    ensures WholeRows(t0, AfterRecovery(t), item, out) <==> n >= 6
    ensures !SameRows(t0, AfterRecovery(t)) && !WholeRows(t0, AfterRecovery(t), item, out) <==> 2 <= n <= 5
  {
    BeforeIff(t0, t, item, offset, out, true, n);
    WholeIff(t0, t, item, offset, out, n);
  }

  // ------------------------------------------------------------------
  // Two stops that leave a torn block
  // ------------------------------------------------------------------

  /**
    Recovery counts transactions only: stopped before its inputs, a block passes for complete and
    stays without them.
    */
  lemma InputsAreNotMissed(t0: Tables, t: Tables, item: Item, offset: Option<nat>, out: Resolved, exact: bool)
    requires Follows(t0, item) && Reached(t0, t, item, offset, out, exact, 3) && item.block.txs != []
    ensures RecoveredHeight(t, Effective(t.checkpoint)) == item.height
    ensures var left := AfterRecovery(t);
            && BlockRow(item) in left.blocks && left.transactions == t0.transactions + TxRows(TxsOf([item]), out)
            && left.inputs == t0.inputs && left.performs == t0.performs && left.benefits == t0.benefits
  {
    BlockKept(t0, t, item, out);
    assert BlockRows([item]) == [BlockRow(item)];
    assert BlockRow(item) in t0.blocks + [BlockRow(item)];
  }

  /** Outputs are found through transactions: stopped before those, a block is taken off and its outputs stay. */
  lemma OutputsStayBehind(t0: Tables, t: Tables, item: Item, offset: Option<nat>, out: Resolved, exact: bool,
                          o: OutputData)
    requires Follows(t0, item) && Reached(t0, t, item, offset, out, exact, 2) && o in OutputRows(TxsOf([item]))
    ensures AfterRecovery(t).blocks == t0.blocks && AfterRecovery(t).transactions == t0.transactions
    ensures o in AfterRecovery(t).outputs
  {
    BlockTakenOff(t0, t, item);
  }

  // ------------------------------------------------------------------
  // Rows of removed heights
  // ------------------------------------------------------------------

  /** Every row that names one of these txids names one with a transaction row in the removed range. */
  ghost predicate FoundThrough(t: Tables, txids: set<Txid>, gone: set<Txid>) {
    && (forall o :: o in t.outputs && o.key.txid in txids ==> o.key.txid in gone)
    && (forall i :: i in t.inputs && i.txid in txids ==> i.txid in gone)
    && (forall p :: p in t.performs && p.toTxid in txids ==> p.toTxid in gone)
    && (forall b :: b in t.benefits && b.fromTxid in txids ==> b.fromTxid in gone)
  }

  /**
    For any txids, such as those of the blocks that recovery removes: the recovered store
    holds no row that names them if and only if every such row's txid has a transaction
    row in the removed range.
    */
  lemma NoRowLeftIff(t: Tables, c: Checkpoint, txids: set<Txid>)
    requires t.blocks != []
    ensures Fresh(Recovered(t, c), txids) <==>
            FoundThrough(t, txids, TxidsIn(t.transactions, RecoveredHeight(t, c), MaxHeight(t.blocks)))
  {
    var gone := TxidsIn(t.transactions, RecoveredHeight(t, c), MaxHeight(t.blocks));
    forall o
      ensures o in Filter(OutputNotOf(gone), t.outputs) <==> o in t.outputs && o.key.txid !in gone
    {
      FilterMember(OutputNotOf(gone), t.outputs, o);
    }
    forall i
      ensures i in Filter(InputNotOf(gone), t.inputs) <==> i in t.inputs && i.txid !in gone
    {
      FilterMember(InputNotOf(gone), t.inputs, i);
    }
    forall p
      ensures p in Filter(PerformsNotOf(gone), t.performs) <==> p in t.performs && p.toTxid !in gone
    {
      FilterMember(PerformsNotOf(gone), t.performs, p);
    }
    forall b
      ensures b in Filter(BenefitsNotOf(gone), t.benefits) <==> b in t.benefits && b.fromTxid !in gone
    {
      FilterMember(BenefitsNotOf(gone), t.benefits, b);
    }
  }

  // ------------------------------------------------------------------
  // Ingestion, a failure, and recovery
  // ------------------------------------------------------------------

  lemma OneHeightMore(blocks: seq<BlockData>, item: Item)
    requires forall b :: b in blocks ==> b.height < item.height
    ensures forall h :: item.height - 1 < h <= MaxHeight(blocks + BlockRows([item])) ==>
              FindBlock(blocks + BlockRows([item]), h).Some?
  {
    NewBlockIsFound(blocks, item);
  }

  /** The store has every height from the checkpoint to its highest block, wherever a block stopped. */
  lemma StoppedIsContiguous(t0: Tables, t: Tables, item: Item, offset: Option<nat>, out: Resolved, exact: bool, n: nat)
    requires Follows(t0, item) && Reached(t0, t, item, offset, out, exact, n)
    ensures Contiguous(t, Effective(t.checkpoint).height)
  {
    if n == 0 {
      if t.blocks != [] {
        MaxHeightIsHighest(t.blocks);
      }
    } else {
      NewBlockIsFound(t0.blocks, item);
      OneHeightMore(t0.blocks, item);
    }
  }

  /** How an unsuccessful recovery of `t` leaves the tables: untouched on overflow, else cut short by a failed call. */
  ghost predicate CutShort(t: Tables, now: Tables, overflowChecks: bool, failed: bool) {
    if overflowChecks && Effective(t.checkpoint).height == -1 && t.blocks != [] then now == t
    else failed && Interrupted(t, now, Effective(t.checkpoint))
  }

  /**
    Ingests the block after the checkpoint and, if it does not get through, restarts with
    recovery; `n` of the seven writes had been done, and `t` is what they left. Recovery may fail
    in its turn; the tables are then `t` with some of it done, and a later one that succeeds
    leaves what this one would have.
    */
  method IngestOrRecover(o: Orchestrator, item: Item, offset: Option<nat>, overflowChecks: bool, ghost out: Resolved)
    returns (ingested: bool, recovered: bool, ghost n: nat, ghost t: Tables)
    requires o.Ready(out, true) && OutputsTrue(OutputRows(TxsOf([item])), out) && Follows(o.writer.Contents(), item)
    modifies o.writer, o.cache
    ensures Reached(old(o.writer.Contents()), t, item, offset, out, true, n) && (ingested <==> n == 7)
    ensures ingested ==> !recovered && o.writer.Contents() == t && WholeRows(old(o.writer.Contents()), t, item, out)
    ensures !ingested ==> || old(o.writer.log.failures) < o.writer.log.failures
                          || ParentCheck(old(o.writer.blocks), item).Fail? || !Spendable([item], old(o.writer.outputs))
    ensures recovered ==> o.writer.Contents() == AfterRecovery(t)
    ensures ingested || recovered || CutShort(t, o.writer.Contents(), overflowChecks,
                                              old(o.writer.log.failures) < o.writer.log.failures)
    ensures !ingested ==> AfterRecovery(o.writer.Contents()) == AfterRecovery(t)
    ensures !ingested ==> (SameRows(old(o.writer.Contents()), AfterRecovery(t)) <==>
                           n <= 1 || (n == 2 && OutputRows(TxsOf([item])) == []) || item.block.txs == [])
    ensures !ingested ==> (WholeRows(old(o.writer.Contents()), AfterRecovery(t), item, out) <==>
                           && n >= 3 && item.block.txs != []
                           && (n >= 4 || InputRows(TxsOf([item])) == [])
                           && (n >= 5 || PerformsRows(TxsOf([item]), out) == multiset{})
                           && (n >= 6 || BenefitsRows(TxsOf([item])) == multiset{}))
  {
    ghost var t0 := o.writer.Contents();
    var r;
    r, n := o.IngestBlock(item, offset, out, true);
    t := o.writer.Contents();
    ingested, recovered := r.Pass?, false;
    if !ingested {
      StoppedIsContiguous(t0, t, item, offset, out, true, n);
      recovered := Restart(o.writer, overflowChecks);
      NextRecovery(t0, t, o.writer.Contents(), item, offset, out, n, recovered, overflowChecks,
                   old(o.writer.log.failures) < o.writer.log.failures);
      BeforeIff(t0, t, item, offset, out, true, n);
      WholeIff(t0, t, item, offset, out, n);
    }
  }

  /** The restart. */
  method Restart(writer: MockWriter, overflowChecks: bool) returns (recovered: bool)
    requires -1 <= Effective(writer.checkpoint).height
             && Contiguous(writer.Contents(), Effective(writer.checkpoint).height)
    modifies writer`blocks, writer`transactions, writer`outputs, writer`inputs, writer`performs, writer`benefits,
             writer`checkpoint, writer`log
    ensures recovered ==> writer.Contents() == AfterRecovery(old(writer.Contents()))
    ensures recovered || CutShort(old(writer.Contents()), writer.Contents(), overflowChecks,
                                  old(writer.log.failures) < writer.log.failures)
    ensures Steady(old(writer.log), writer.log)
  {
    ghost var t := writer.Contents();
    var s := SyncCheckpointWithDb(writer, overflowChecks);
    recovered := s.Success?;
    if s.Failure? {
      assert s == Failure(if s.error.Query? then Query else Overflow);
      assert CutShort(t, writer.Contents(), overflowChecks, old(writer.log.failures) < writer.log.failures);
    }
  }

  lemma AfterCutShort(t: Tables, now: Tables, overflowChecks: bool, failed: bool)
    requires CutShort(t, now, overflowChecks, failed) && Contiguous(t, Effective(t.checkpoint).height)
    ensures AfterRecovery(now) == AfterRecovery(t)
  {
    if now != t {
      InterruptionDoesNotMatter(t, now, Effective(t.checkpoint));
    }
  }

  lemma NextRecovery(t0: Tables, t: Tables, now: Tables, item: Item, offset: Option<nat>, out: Resolved, n: nat,
                     recovered: bool,
                     overflowChecks: bool, failed: bool)
    requires Follows(t0, item) && Reached(t0, t, item, offset, out, true, n)
    requires if recovered then now == AfterRecovery(t) else CutShort(t, now, overflowChecks, failed)
    ensures AfterRecovery(now) == AfterRecovery(t)
  {
    if recovered {
      RecoveredAgain(t0, t, item, offset, out, n);
    } else {
      StoppedIsContiguous(t0, t, item, offset, out, true, n);
      AfterCutShort(t, now, overflowChecks, failed);
    }
  }

  /** What recovery leaves has no block above its checkpoint. */
  lemma LeftIsSettled(t0: Tables, t: Tables, item: Item, offset: Option<nat>, out: Resolved, n: nat)
    requires Follows(t0, item) && Reached(t0, t, item, offset, out, true, n)
    ensures var left := Left(t0, t, item, n);
            left.blocks == [] || MaxHeight(left.blocks) <= Effective(left.checkpoint).height
  {
    var left := Left(t0, t, item, n);
    if n == 0 || (n < 7 && (n <= 2 || item.block.txs == [])) {
      assert left.blocks == t0.blocks && left.checkpoint == t0.checkpoint;
      OldTop(t0.blocks, Effective(t0.checkpoint).height);
    } else {
      assert left.blocks == t0.blocks + BlockRows([item]) && Effective(left.checkpoint).height == item.height;
      NewBlockIsFound(t0.blocks, item);
    }
  }

  lemma OldTop(blocks: seq<BlockData>, f: int)
    requires forall b :: b in blocks ==> b.height <= f
    ensures blocks == [] || MaxHeight(blocks) <= f
  {
    if blocks != [] {
      MaxHeightIsHighest(blocks);
    }
  }

  /** Recovering twice is recovering once. */
  lemma RecoveredAgain(t0: Tables, t: Tables, item: Item, offset: Option<nat>, out: Resolved, n: nat)
    requires Follows(t0, item) && Reached(t0, t, item, offset, out, true, n)
    ensures AfterRecovery(AfterRecovery(t)) == AfterRecovery(t)
  {
    RecoveryLeaves(t0, t, item, offset, out, true, n);
    LeftIsSettled(t0, t, item, offset, out, n);
    SettledStays(AfterRecovery(t));
  }

  lemma SettledStays(t: Tables)
    requires t.blocks == [] || MaxHeight(t.blocks) <= Effective(t.checkpoint).height
    ensures AfterRecovery(t) == t
  {
    NothingToRecover(t, Effective(t.checkpoint));
  }
}
