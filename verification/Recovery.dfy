/** Taking blocks off the store again: rollback to a height, and repair after a crash. */
module Recovery {
  import opened Types
  import opened Chain
  import opened Aggregation
  import opened Writer
  import opened Refinement

  // ------------------------------------------------------------------
  // Removing a range of heights
  // ------------------------------------------------------------------

  function BlockOutside(lo: int, hi: int): BlockData -> bool {
    (b: BlockData) => !(lo < b.height <= hi)
  }

  function TxOutside(lo: int, hi: int): TransactionData -> bool {
    (r: TransactionData) => !(lo < r.blockHeight <= hi)
  }

  function TxidsIn(ts: seq<TransactionData>, lo: int, hi: int): set<Txid> {
    set r | r in ts && lo < r.blockHeight <= hi :: r.txid
  }

  /**
    All at once: the blocks and transactions at heights above `lo` up to `hi`, and all rows naming
    those transactions.
    */
  function RemoveRange(t: Tables, lo: int, hi: int): Tables {
    var txids := TxidsIn(t.transactions, lo, hi);
    t.(blocks := Filter(BlockOutside(lo, hi), t.blocks),
       transactions := Filter(TxOutside(lo, hi), t.transactions),
       outputs := Filter(OutputNotOf(txids), t.outputs),
       inputs := Filter(InputNotOf(txids), t.inputs),
       performs := Filter(PerformsNotOf(txids), t.performs),
       benefits := Filter(BenefitsNotOf(txids), t.benefits))
  }

  /** One `rollback_block` per height, from `hi` down to `lo + 1`. */
  function RemoveDown(t: Tables, lo: int, hi: int): Tables
    decreases hi - lo
  {
    if hi <= lo then t else RemoveDown(RemoveBlock(t, hi), lo, hi - 1)
  }

  lemma TxidsSplit(ts: seq<TransactionData>, lo: int, hi: int)
    requires lo < hi
    ensures TxidsIn(ts, lo, hi) == TxidsAt(ts, hi) + TxidsIn(Filter(TxNotAt(hi), ts), lo, hi - 1)
  {
    forall x | x in TxidsIn(ts, lo, hi)
      ensures x in TxidsAt(ts, hi) + TxidsIn(Filter(TxNotAt(hi), ts), lo, hi - 1)
    {
      var r :| r in ts && lo < r.blockHeight <= hi && r.txid == x;
      FilterMember(TxNotAt(hi), ts, r);
    }
    forall x | x in TxidsIn(Filter(TxNotAt(hi), ts), lo, hi - 1)
      ensures x in TxidsIn(ts, lo, hi)
    {
      var r :| r in Filter(TxNotAt(hi), ts) && lo < r.blockHeight <= hi - 1 && r.txid == x;
      FilterMember(TxNotAt(hi), ts, r);
    }
  }

  lemma RemoveOneMore(t: Tables, lo: int, hi: int)
    requires lo < hi
    ensures RemoveRange(RemoveBlock(t, hi), lo, hi - 1) == RemoveRange(t, lo, hi)
  {
    var a, b, all := TxidsAt(t.transactions, hi), TxidsIn(Filter(TxNotAt(hi), t.transactions), lo, hi - 1),
        TxidsIn(t.transactions, lo, hi);
    TxidsSplit(t.transactions, lo, hi);
    FilterTwice(BlockNotAt(hi), BlockOutside(lo, hi - 1), BlockOutside(lo, hi), t.blocks);
    FilterTwice(TxNotAt(hi), TxOutside(lo, hi - 1), TxOutside(lo, hi), t.transactions);
    FilterTwice(OutputNotOf(a), OutputNotOf(b), OutputNotOf(all), t.outputs);
    FilterTwice(InputNotOf(a), InputNotOf(b), InputNotOf(all), t.inputs);
    FilterTwice(PerformsNotOf(a), PerformsNotOf(b), PerformsNotOf(all), t.performs);
    FilterTwice(BenefitsNotOf(a), BenefitsNotOf(b), BenefitsNotOf(all), t.benefits);
  }

  lemma RemoveNothing(t: Tables, lo: int, hi: int)
    requires hi <= lo
    ensures RemoveRange(t, lo, hi) == t
  {
    assert TxidsIn(t.transactions, lo, hi) == {};
    FilterAll(BlockOutside(lo, hi), t.blocks);
    FilterAll(TxOutside(lo, hi), t.transactions);
    FilterAll(OutputNotOf({}), t.outputs);
    FilterAll(InputNotOf({}), t.inputs);
    FilterAll(PerformsNotOf({}), t.performs);
    FilterAll(BenefitsNotOf({}), t.benefits);
  }

  /** Rolling back height by height removes exactly the range. */
  lemma {:induction false} RollbacksCompose(t: Tables, lo: int, hi: int)
    ensures RemoveDown(t, lo, hi) == RemoveRange(t, lo, hi)
    decreases hi - lo
  {
    if hi <= lo {
      RemoveNothing(t, lo, hi);
    } else {
      RollbacksCompose(RemoveBlock(t, hi), lo, hi - 1);
      RemoveOneMore(t, lo, hi);
    }
  }

  // ------------------------------------------------------------------
  // Rollback as the inverse of ingestion
  // ------------------------------------------------------------------

  /** The store knows nothing above height `f`. */
  ghost predicate UpToHeight(t: Tables, f: int) {
    (forall b :: b in t.blocks ==> b.height <= f) && (forall r :: r in t.transactions ==> r.blockHeight <= f)
  }

  /** No stored row names one of these transactions. */
  ghost predicate Fresh(t: Tables, txids: set<Txid>) {
    && (forall o :: o in t.outputs ==> o.key.txid !in txids)
    && (forall i :: i in t.inputs ==> i.txid !in txids)
    && (forall p :: p in t.performs ==> p.toTxid !in txids)
    && (forall b :: b in t.benefits ==> b.fromTxid !in txids)
  }

  lemma HeightsOfPending(items: seq<Item>, f: int, tip: int)
    requires forall item :: item in items ==> f < item.height <= tip
    ensures forall p :: p in TxsOf(items) ==> f < p.height <= tip
  {
    forall p | p in TxsOf(items)
      ensures f < p.height <= tip
    {
      PendingHeights(items, p);
    }
  }

  /** Row by row, the height and txid of a transaction. */
  ghost predicate RowsOf(rows: seq<TransactionData>, ps: seq<Pending>) {
    |rows| == |ps| && forall i :: 0 <= i < |rows| ==>
        rows[i].txid == ps[i].tx.txid && rows[i].blockHeight == ps[i].height
  }

  lemma BoundedRowsOf(rows: seq<TransactionData>, ps: seq<Pending>, out: Resolved)
    requires Bounded(rows, ps, out)
    ensures RowsOf(rows, ps)
  {
    forall i | 0 <= i < |rows|
      ensures rows[i].txid == ps[i].tx.txid && rows[i].blockHeight == ps[i].height
    {
      assert rows[i] == RowWith(ps[i], rows[i].totalInput);
    }
  }

  lemma NewRows(rows: seq<TransactionData>, ps: seq<Pending>, f: int, tip: int)
    requires RowsOf(rows, ps)
    requires forall p :: p in ps ==> f < p.height <= tip
    ensures forall r :: r in rows ==> f < r.blockHeight <= tip && r.txid in Txids(ps)
    ensures forall x :: x in Txids(ps) ==> exists r :: r in rows && r.txid == x
  {
    forall r | r in rows
      ensures f < r.blockHeight <= tip && r.txid in Txids(ps)
    {
      var i :| 0 <= i < |rows| && rows[i] == r;
      assert ps[i] in ps;
    }
    forall x | x in Txids(ps)
      ensures exists r :: r in rows && r.txid == x
    {
      var p :| p in ps && p.tx.txid == x;
      var i :| 0 <= i < |ps| && ps[i] == p;
      assert rows[i] in rows && rows[i].txid == x;
    }
  }

  lemma NewTxids(t0: Tables, t: Tables, items: seq<Item>, f: int, tip: int, out: Resolved)
    requires Grows(t0, t, items, out) && UpToHeight(t0, f)
    requires forall item :: item in items ==> f < item.height <= tip
    ensures TxidsIn(t.transactions, f, tip) == Txids(TxsOf(items))
    ensures forall r :: r in t.transactions[|t0.transactions|..] ==> f < r.blockHeight <= tip
  {
    HeightsOfPending(items, f, tip);
    BoundedRowsOf(t.transactions[|t0.transactions|..], TxsOf(items), out);
    NewRows(t.transactions[|t0.transactions|..], TxsOf(items), f, tip);
    TailAfter(t0.transactions, t.transactions);
    TxidsOfTail(t0.transactions, t.transactions[|t0.transactions|..], f, tip, Txids(TxsOf(items)));
  }

  lemma TxidsOfTail(before: seq<TransactionData>, rows: seq<TransactionData>, f: int, tip: int, txids: set<Txid>)
    requires forall r :: r in before ==> r.blockHeight <= f
    requires forall r :: r in rows ==> f < r.blockHeight <= tip && r.txid in txids
    requires forall x :: x in txids ==> exists r :: r in rows && r.txid == x
    ensures TxidsIn(before + rows, f, tip) == txids
  {
    assert forall r :: r in before + rows <==> r in before || r in rows;
    forall x | x in txids
      ensures x in TxidsIn(before + rows, f, tip)
    {
      var r :| r in rows && r.txid == x;
      assert r in before + rows;
    }
  }

  lemma TailAfter<T>(xs: seq<T>, ys: seq<T>)
    requires xs <= ys
    ensures ys == xs + ys[|xs|..]
  {
  }

  /** What the removal leaves of the blocks. */
  lemma OldBlocksAreLeft(blocks: seq<BlockData>, items: seq<Item>, f: int, tip: int)
    requires forall b :: b in blocks ==> b.height <= f
    requires forall item :: item in items ==> f < item.height <= tip
    ensures Filter(BlockOutside(f, tip), blocks + BlockRows(items)) == blocks
  {
    var rows := BlockRows(items);
    FilterConcat(BlockOutside(f, tip), blocks, rows);
    FilterAll(BlockOutside(f, tip), blocks);
    forall b | b in rows
      ensures !BlockOutside(f, tip)(b)
    {
      var i :| 0 <= i < |rows| && rows[i] == b;
      assert items[i] in items;
    }
    FilterNone(BlockOutside(f, tip), rows);
  }

  /** What the removal leaves of the transactions. */
  lemma OldTransactionsAreLeft(before: seq<TransactionData>, rows: seq<TransactionData>, f: int, tip: int)
    requires forall r :: r in before ==> r.blockHeight <= f
    requires forall r :: r in rows ==> f < r.blockHeight <= tip
    ensures Filter(TxOutside(f, tip), before + rows) == before
  {
    FilterConcat(TxOutside(f, tip), before, rows);
    FilterAll(TxOutside(f, tip), before);
    FilterNone(TxOutside(f, tip), rows);
  }

  lemma OldChainIsLeft(t0: Tables, t: Tables, items: seq<Item>, f: int, tip: int, out: Resolved)
    requires Grows(t0, t, items, out) && UpToHeight(t0, f)
    requires forall item :: item in items ==> f < item.height <= tip
    ensures Filter(BlockOutside(f, tip), t.blocks) == t0.blocks
    ensures Filter(TxOutside(f, tip), t.transactions) == t0.transactions
  {
    OldBlocksAreLeft(t0.blocks, items, f, tip);
    NewTxids(t0, t, items, f, tip, out);
    TailAfter(t0.transactions, t.transactions);
    OldTransactionsAreLeft(t0.transactions, t.transactions[|t0.transactions|..], f, tip);
  }

  /** What the removal leaves of the rows that name transactions: the old ones that name none of the new. */
  lemma OldRowsAreLeft(t0: Tables, t: Tables, items: seq<Item>, out: Resolved, txids: set<Txid>)
    requires Grows(t0, t, items, out) && txids == Txids(TxsOf(items))
    ensures Filter(OutputNotOf(txids), t.outputs) == Filter(OutputNotOf(txids), t0.outputs)
    ensures Filter(InputNotOf(txids), t.inputs) == Filter(InputNotOf(txids), t0.inputs)
    ensures Filter(PerformsNotOf(txids), t.performs) == Filter(PerformsNotOf(txids), t0.performs)
    ensures Filter(BenefitsNotOf(txids), t.benefits) == Filter(BenefitsNotOf(txids), t0.benefits)
  {
    var ps := TxsOf(items);
    FilterConcat(OutputNotOf(txids), t0.outputs, OutputRows(ps));
    forall o | o in OutputRows(ps)
      ensures !OutputNotOf(txids)(o)
    {
      OutputRowOrigin(ps, o);
    }
    FilterNone(OutputNotOf(txids), OutputRows(ps));
    FilterConcat(InputNotOf(txids), t0.inputs, InputRows(ps));
    forall i | i in InputRows(ps)
      ensures !InputNotOf(txids)(i)
    {
      InputRowOrigin(ps, i);
    }
    FilterNone(InputNotOf(txids), InputRows(ps));
    TailAfter(t0.performs, t.performs);
    FilterConcat(PerformsNotOf(txids), t0.performs, t.performs[|t0.performs|..]);
    FilterNone(PerformsNotOf(txids), t.performs[|t0.performs|..]);
    TailAfter(t0.benefits, t.benefits);
    FilterConcat(BenefitsNotOf(txids), t0.benefits, t.benefits[|t0.benefits|..]);
    FilterNone(BenefitsNotOf(txids), t.benefits[|t0.benefits|..]);
  }

  /**
    Rollback inverts ingestion on all six tables if and only if the rolled-back
    txids were fresh; a duplicate txid takes the older rows with it.
    */
  lemma RollbackInvertsIngestion(t0: Tables, t: Tables, items: seq<Item>, f: int, tip: int, out: Resolved)
    requires Grows(t0, t, items, out) && UpToHeight(t0, f)
    requires forall item :: item in items ==> f < item.height <= tip
    ensures RemoveDown(t, f, tip).(checkpoint := t0.checkpoint) == t0 <==> Fresh(t0, Txids(TxsOf(items)))
  {
    var txids := Txids(TxsOf(items));
    RollbacksCompose(t, f, tip);
    NewTxids(t0, t, items, f, tip, out);
    OldChainIsLeft(t0, t, items, f, tip, out);
    OldRowsAreLeft(t0, t, items, out, txids);
    FilterDrops(OutputNotOf(txids), t0.outputs);
    FilterDrops(InputNotOf(txids), t0.inputs);
    FilterDrops(PerformsNotOf(txids), t0.performs);
    FilterDrops(BenefitsNotOf(txids), t0.benefits);
    FreshMeansKept(t0, txids);
  }

  lemma {:induction false} FirstOutputRow(item: Item)
    requires item.block.txs != [] && item.block.txs[0].outputs != []
    ensures OutputRow(item.block.txs[0].txid, item.block.txs[0].outputs[0], 0) in OutputRows(TxsOf([item]))
    ensures item.block.txs[0].txid in Txids(TxsOf([item]))
  {
    var tx, ps := item.block.txs[0], BlockTxs(item, |item.block.txs|);
    assert [item][..0] == [] && [] + ps == ps;
    assert ps == ps[..1] + ps[1..] && ps[0] in ps;
    OutputsConcat(ps[..1], ps[1..]);
    assert ps[..1][..0] == [];
    assert TxOutputRows(tx, |tx.outputs|)[0] == OutputRow(tx.txid, tx.outputs[0], 0);
  }

  lemma NamedRowsGo(t0: Tables, t: Tables, item: Item, f: int, o: OutputData, out: Resolved)
    requires Grows(t0, t, [item], out) && UpToHeight(t0, f) && f < item.height && o.key.txid in Txids(TxsOf([item]))
    ensures o !in RemoveRange(t, f, item.height).outputs
  {
    NewTxids(t0, t, [item], f, item.height, out);
    FilterMember(OutputNotOf(TxidsIn(t.transactions, f, item.height)), t.outputs, o);
  }

  lemma BlocksComeBack(t0: Tables, t: Tables, item: Item, f: int, out: Resolved)
    requires Grows(t0, t, [item], out) && UpToHeight(t0, f) && f < item.height
    ensures RemoveRange(t, f, item.height).blocks == t0.blocks
  {
    OldBlocksAreLeft(t0.blocks, [item], f, item.height);
  }

  /**
    The case in point: block `b` repeats the coinbase of the earlier block `a`. Rolling
    `b` back deletes the coinbase output of `a` as well.
    */
  lemma DuplicateCoinbaseIsLost(t: Tables, ta: Tables, tb: Tables, a: Item, b: Item, out: Resolved)
    requires UpToHeight(ta, a.height) && a.height < b.height
    requires Grows(t, ta, [a], out) && Grows(ta, tb, [b], out)
    requires a.block.txs != [] && b.block.txs != [] && a.block.txs[0] == b.block.txs[0]
    requires IsCoinbase(a.block.txs[0]) && a.block.txs[0].outputs != []
    ensures var left := RemoveDown(tb, a.height, b.height);
            && left.blocks == ta.blocks && left.outputs != ta.outputs
            && OutputRow(a.block.txs[0].txid, a.block.txs[0].outputs[0], 0) in ta.outputs
            && OutputRow(a.block.txs[0].txid, a.block.txs[0].outputs[0], 0) !in left.outputs
  {
    var o := OutputRow(a.block.txs[0].txid, a.block.txs[0].outputs[0], 0);
    FirstOutputRow(a);
    FirstOutputRow(b);
    NamedRowsGo(ta, tb, b, a.height, o, out);
    BlocksComeBack(ta, tb, b, a.height, out);
    RollbacksCompose(tb, a.height, b.height);
  }

  lemma FreshMeansKept(t: Tables, txids: set<Txid>)
    ensures Fresh(t, txids) <==>
            && (forall o :: o in t.outputs ==> OutputNotOf(txids)(o))
            && (forall i :: i in t.inputs ==> InputNotOf(txids)(i))
            && (forall p :: p in t.performs ==> PerformsNotOf(txids)(p))
            && (forall b :: b in t.benefits ==> BenefitsNotOf(txids)(b))
  {
  }

  /** The tables after `rollback_to_height`, when the checkpoint write succeeds. */
  function RolledBack(t: Tables, tip: int, fork: int): Tables {
    if fork >= tip then t
    else
      var left := RemoveDown(t, fork, tip);
      match FindBlock(left.blocks, fork)
      case Some(b) => left.(checkpoint := Some(Checkpoint(fork, b.hash, "rpc", None)))
      case None => left
  }

  method RollbackToHeight(writer: MockWriter, tip: u32, fork: u32) returns (r: Result<nat, WriterError>)
    modifies writer`blocks, writer`transactions, writer`outputs, writer`inputs, writer`performs, writer`benefits,
             writer`checkpoint, writer`log
    ensures r.Success? ==> r.value == if fork >= tip then 0 else tip - fork
    ensures r.Success? ==> writer.Contents() == RolledBack(old(writer.Contents()), tip, fork)
    ensures r.Failure? ==> fork < tip && writer.Contents() == RemoveDown(old(writer.Contents()), fork, tip)
    ensures Steady(old(writer.log), writer.log) && (r.Failure? ==> old(writer.log.failures) < writer.log.failures)
  {
    if fork >= tip {
      return Success(0);
    }
    ghost var t0 := writer.Contents();
    var height := tip;
    while height > fork
      invariant fork <= height <= tip
      invariant RemoveDown(writer.Contents(), fork, height) == RemoveDown(t0, fork, tip)
      invariant writer.checkpoint == t0.checkpoint && writer.log == old(writer.log)
    {
      writer.RollbackBlock(height);
      height := height - 1;
    }
    var hash := writer.LookupBlockHash(fork);
    if hash.Some? {
      var w := writer.UpdateCheckpoint(Checkpoint(fork, hash.value, "rpc", None));
      if w.Fail? {
        return Failure(w.error);
      }
    }
    r := Success(tip - fork);
  }

  // ------------------------------------------------------------------
  // Crash recovery
  // ------------------------------------------------------------------

  /** All its transactions are there, and it has some. */
  predicate Complete(t: Tables, h: int) {
    match FindBlock(t.blocks, h)
    case Some(b) => b.txCount == TxCountAt(t.transactions, h) && TxCountAt(t.transactions, h) > 0
    case None => false
  }

  function Hits<T>(f: T -> bool, xs: seq<T>): set<int> {
    set i | 0 <= i < |xs| && f(xs[i])
  }

  lemma {:induction false} FilterSize<T>(f: T -> bool, xs: seq<T>)
    ensures |Filter(f, xs)| == |Hits(f, xs)|
  {
    if xs != [] {
      var before, n := xs[..|xs| - 1], |xs| - 1;
      FilterSize(f, before);
      if f(xs[n]) {
        assert Hits(f, xs) == Hits(f, before) + {n};
      } else {
        assert Hits(f, xs) == Hits(f, before);
      }
    }
  }

  /** The transaction rows stored for a height. */
  function PositionsAt(ts: seq<TransactionData>, height: int): set<int> {
    set i | 0 <= i < |ts| && ts[i].blockHeight == height
  }

  /** A height is complete if its block records as many transactions, but not none, as rows are stored for it. */
  lemma CompleteMeans(t: Tables, h: int)
    requires forall b, c :: b in t.blocks && c in t.blocks && b.height == c.height ==> b == c
    ensures Complete(t, h) <==>
            exists b :: b in t.blocks && b.height == h && 0 < b.txCount == |PositionsAt(t.transactions, h)|
  {
    var ts := t.transactions;
    FindBlockFinds(t.blocks, h);
    FilterSize(TxAt(h), ts);
    assert PositionsAt(ts, h) == Hits(TxAt(h), ts);
    if Complete(t, h) {
      assert FindBlock(t.blocks, h).value in t.blocks;
    }
  }

  /** A rollback leaves the checkpoint at the fork, with the hash stored for it, if a block is stored there at all. */
  lemma CheckpointAtFork(t: Tables, tip: int, fork: int)
    requires fork < tip
    requires forall b, c :: b in t.blocks && c in t.blocks && b.height == c.height ==> b == c
    ensures forall b :: b in t.blocks && b.height == fork ==>
                          RolledBack(t, tip, fork).checkpoint == Some(Checkpoint(fork, b.hash, "rpc", None))
    ensures (forall b :: b in t.blocks ==> b.height != fork) ==> RolledBack(t, tip, fork).checkpoint == t.checkpoint
  {
    var left := RemoveDown(t, fork, tip);
    RollbacksCompose(t, fork, tip);
    FindBlockFinds(left.blocks, fork);
    forall b | b in t.blocks && b.height == fork
      ensures b in left.blocks
    {
      FilterMember(BlockOutside(fork, tip), t.blocks, b);
    }
    forall b | b in left.blocks
      ensures b in t.blocks
    {
      FilterMember(BlockOutside(fork, tip), t.blocks, b);
    }
  }

  function HighestComplete(t: Tables, lo: int, hi: int): int
    decreases hi - lo
  {
    if hi <= lo then lo else if Complete(t, hi) then hi else HighestComplete(t, lo, hi - 1)
  }

  lemma {:induction false} HighestCompleteIs(t: Tables, lo: int, hi: int)
    requires lo <= hi
    ensures lo <= HighestComplete(t, lo, hi) <= hi
    ensures HighestComplete(t, lo, hi) > lo ==> Complete(t, HighestComplete(t, lo, hi))
    ensures forall h :: HighestComplete(t, lo, hi) < h <= hi ==> !Complete(t, h)
    decreases hi - lo
  {
    if lo < hi && !Complete(t, hi) {
      HighestCompleteIs(t, lo, hi - 1);
    }
  }

  lemma {:induction false} FindBlockFiltered(blocks: seq<BlockData>, f: BlockData -> bool, h: int)
    requires forall b :: b in blocks && b.height == h ==> f(b)
    ensures FindBlock(Filter(f, blocks), h) == FindBlock(blocks, h)
  {
    if blocks != [] {
      var before, last := blocks[..|blocks| - 1], blocks[|blocks| - 1];
      assert blocks == before + [last];
      FindBlockFiltered(before, f, h);
      FindBlockSnoc(before, last, h);
      FindBlockSnoc(Filter(f, before), last, h);
    }
  }

  lemma {:induction false} FindBlockSnoc(blocks: seq<BlockData>, last: BlockData, h: int)
    ensures FindBlock(blocks + [last], h) ==
            if FindBlock(blocks, h).Some? then FindBlock(blocks, h) else if last.height == h then Some(last) else None
  {
    if blocks == [] {
      assert [] + [last] == [last];
    } else {
      assert (blocks + [last])[1..] == blocks[1..] + [last];
      FindBlockSnoc(blocks[1..], last, h);
    }
  }

  /** Removing a block leaves the completeness of every other height as it was. */
  lemma CompletenessIsLocal(t: Tables, hi: int, h: int)
    requires h != hi
    ensures Complete(RemoveBlock(t, hi), h) <==> Complete(t, h)
    ensures FindBlock(RemoveBlock(t, hi).blocks, h) == FindBlock(t.blocks, h)
  {
    FindBlockFiltered(t.blocks, BlockNotAt(hi), h);
    FilterTwice(TxNotAt(hi), TxAt(h), TxAt(h), t.transactions);
  }

  lemma {:induction false} HighestCompleteIsLocal(t: Tables, lo: int, hi: int, top: int)
    requires hi < top
    ensures HighestComplete(RemoveBlock(t, top), lo, hi) == HighestComplete(t, lo, hi)
    decreases hi - lo
  {
    if lo < hi {
      CompletenessIsLocal(t, top, hi);
      HighestCompleteIsLocal(t, lo, hi - 1, top);
    }
  }

  /** The checkpoint that recovery works from; a missing one counts as -1. */
  function Effective(c: Option<Checkpoint>): Checkpoint {
    match c
    case Some(c) => c
    case None => Checkpoint(-1, "", "recovered", None)
  }

  /** The height found and the tables left by recovery from checkpoint `c`. */
  function RecoveredHeight(t: Tables, c: Checkpoint): int {
    if t.blocks == [] || MaxHeight(t.blocks) <= c.height then c.height
    else HighestComplete(t, c.height, MaxHeight(t.blocks))
  }

  function Recovered(t: Tables, c: Checkpoint): Tables {
    var h := RecoveredHeight(t, c);
    if t.blocks == [] then t
    else
      var left := RemoveRange(t, h, MaxHeight(t.blocks));
      if h <= c.height then left
      else
        match FindBlock(left.blocks, h)
        case Some(b) => left.(checkpoint := Some(Checkpoint(h, b.hash, c.file, None)))
        case None => left
  }

  /** Every height above the checkpoint up to the highest has a block. */
  ghost predicate Contiguous(t: Tables, c: int) {
    t.blocks != [] ==> forall h :: c < h <= MaxHeight(t.blocks) ==> FindBlock(t.blocks, h).Some?
  }

  datatype RecoveryError = Query | Overflow

  /**
    Walks down from the highest block: incomplete blocks are rolled back, the first
    complete one stays and becomes the checkpoint. From a checkpoint of -1 the code adds
    1 to the largest 32-bit number; that ends the process when overflow is checked, and
    gives the intended 0 when it is not.
    */
  method SyncCheckpointWithDb(writer: MockWriter, overflowChecks: bool) returns (r: Result<int, RecoveryError>)
    requires -1 <= Effective(writer.checkpoint).height
    modifies writer`blocks, writer`transactions, writer`outputs, writer`inputs, writer`performs, writer`benefits,
             writer`checkpoint, writer`log
    ensures r.Success? ==> && r.value == RecoveredHeight(old(writer.Contents()), Effective(old(writer.checkpoint))) + 1
                           && writer.Contents() == Recovered(old(writer.Contents()), Effective(old(writer.checkpoint)))
    ensures r == Failure(Overflow) <==>
              overflowChecks && Effective(old(writer.checkpoint)).height == -1 && old(writer.blocks) != []
    ensures r == Failure(Overflow) ==> writer.Contents() == old(writer.Contents())
    ensures r == Failure(Query) ==>
              Interrupted(old(writer.Contents()), writer.Contents(), Effective(old(writer.checkpoint)))
    ensures (r == Failure(Query) && Contiguous(old(writer.Contents()), Effective(old(writer.checkpoint)).height)) ==>
              old(writer.log.failures) < writer.log.failures
    ensures Steady(old(writer.log), writer.log)
  {
    var c := Effective(writer.checkpoint);
    var top := writer.GetMaxBlockHeight();
    if top.Some? {
      MaxHeightIsHighest(writer.blocks);
    }
    if top.None? || top.value <= c.height {
      NothingToRecover(writer.Contents(), c);
      r := Success(c.height + 1);
    } else if c.height == -1 && overflowChecks {
      r := Failure(Overflow);
    } else {
      r := Repair(writer, c, top.value);
    }
  }

  lemma NothingToRecover(t: Tables, c: Checkpoint)
    requires t.blocks == [] || MaxHeight(t.blocks) <= c.height
    ensures RecoveredHeight(t, c) == c.height && Recovered(t, c) == t
  {
    if t.blocks != [] {
      RemoveNothing(t, c.height, MaxHeight(t.blocks));
    }
  }

  method Repair(writer: MockWriter, c: Checkpoint, top: u32) returns (r: Result<int, RecoveryError>)
    requires writer.blocks != [] && top == MaxHeight(writer.blocks) && -1 <= c.height < top
    modifies writer`blocks, writer`transactions, writer`outputs, writer`inputs, writer`performs, writer`benefits,
             writer`checkpoint, writer`log
    ensures r.Success? ==> && r.value == RecoveredHeight(old(writer.Contents()), c) + 1
                           && writer.Contents() == Recovered(old(writer.Contents()), c)
    ensures r.Failure? ==> r.error == Query && Interrupted(old(writer.Contents()), writer.Contents(), c)
    ensures r.Failure? && Contiguous(old(writer.Contents()), c.height) ==>
              old(writer.log.failures) < writer.log.failures
    ensures Steady(old(writer.log), writer.log)
  {
    ghost var t0 := writer.Contents();
    var height, ok := RemoveIncomplete(writer, c, top);
    assert Walked(t0, writer.Contents(), c.height, height, MaxHeight(t0.blocks));
    if !ok {
      return Failure(Query);
    }
    RollbacksCompose(t0, height, top);
    if height > c.height {
      var hash := writer.LookupBlockHash(height);
      var w := writer.UpdateCheckpoint(Checkpoint(height, if hash.Some? then hash.value else "unknown", c.file, None));
      if w.Fail? {
        return Failure(Query);
      }
    }
    r := Success(height + 1);
  }

  /** The descending walk of recovery; it fails at a height that has no block. */
  method RemoveIncomplete(writer: MockWriter, c: Checkpoint, top: u32) returns (height: int, ok: bool)
    requires -1 <= c.height < top
    modifies writer`blocks, writer`transactions, writer`outputs, writer`inputs, writer`performs, writer`benefits
    ensures c.height <= height <= top && Walked(old(writer.Contents()), writer.Contents(), c.height, height, top)
    ensures ok ==> height == HighestComplete(old(writer.Contents()), c.height, top)
    ensures ok ==> c.height <= height <= top && writer.Contents() == RemoveDown(old(writer.Contents()), height, top)
    ensures ok ==> height > c.height ==> FindBlock(writer.blocks, height).Some?
    ensures (forall h :: c.height < h <= top ==> FindBlock(old(writer.blocks), h).Some?) ==> ok
  {
    ghost var t0 := writer.Contents();
    height, ok := top, true;
    while height > c.height
      invariant c.height <= height <= top
      invariant Walked(t0, writer.Contents(), c.height, height, top)
      decreases height
    {
      var finding := RepairAt(writer, t0, c.height, height, top);
      if !finding.Incomplete? {
        return height, finding.Whole?;
      }
      height := height - 1;
    }
  }

  /** One round of the walk. */
  method RepairAt(writer: MockWriter, ghost t0: Tables, ghost lo: int, height: u32, ghost top: int) returns (r: Finding)
    requires lo < height <= top && Walked(t0, writer.Contents(), lo, height, top)
    modifies writer`blocks, writer`transactions, writer`outputs, writer`inputs, writer`performs, writer`benefits
    ensures r.Missing? <==> FindBlock(t0.blocks, height).None?
    ensures r.Incomplete? ==> Walked(t0, writer.Contents(), lo, height - 1, top)
    ensures !r.Incomplete? ==> writer.Contents() == old(writer.Contents())
    ensures r.Whole? ==> && height == HighestComplete(t0, lo, top) && writer.Contents() == RemoveDown(t0, height, top)
                         && FindBlock(writer.blocks, height).Some?
  {
    RollbackStep(t0, writer.Contents(), lo, height, top);
    r := CheckOrRollBack(writer, height);
  }

  datatype Finding = Missing | Whole | Incomplete

  /** Rolls the block at `height` back if it is incomplete. */
  method CheckOrRollBack(writer: MockWriter, height: u32) returns (r: Finding)
    modifies writer`blocks, writer`transactions, writer`outputs, writer`inputs, writer`performs, writer`benefits
    ensures r.Missing? <==> FindBlock(old(writer.blocks), height).None?
    ensures r.Whole? <==> Complete(old(writer.Contents()), height)
    ensures writer.Contents() == if r.Incomplete? then RemoveBlock(old(writer.Contents()), height)
            else old(writer.Contents())
  {
    var counts := writer.CheckBlockComplete(height);
    if counts.Failure? {
      return Missing;
    }
    if counts.value.0 == counts.value.1 && counts.value.1 > 0 {
      return Whole;
    }
    writer.RollbackBlock(height);
    r := Incomplete;
  }

  /** `t` is `t0` without the heights above `h`, all of them incomplete. */
  ghost predicate Walked(t0: Tables, t: Tables, lo: int, h: int, top: int) {
    && t == RemoveDown(t0, h, top)
    && HighestComplete(t, lo, h) == HighestComplete(t0, lo, top)
    && forall g :: g <= h ==> FindBlock(t.blocks, g) == FindBlock(t0.blocks, g)
  }

  /** Recovery has been cut short on its way down: some incomplete blocks are off, and the checkpoint is as before. */
  ghost predicate Interrupted(t0: Tables, t: Tables, c: Checkpoint) {
    t0.blocks != [] && exists h ::
        c.height <= h <= MaxHeight(t0.blocks) && Walked(t0, t, c.height, h, MaxHeight(t0.blocks))
  }

  /** One incomplete block rolled back during recovery. */
  lemma RollbackStep(t0: Tables, t: Tables, lo: int, h: int, top: int)
    requires lo < h <= top && Walked(t0, t, lo, h, top)
    ensures Complete(t, h) ==> h == HighestComplete(t0, lo, top)
    ensures !Complete(t, h) ==> Walked(t0, RemoveBlock(t, h), lo, h - 1, top)
  {
    RemoveDownSnoc(t0, h, top);
    HighestCompleteIsLocal(t, lo, h - 1, h);
    forall g | g <= h - 1
      ensures FindBlock(RemoveBlock(t, h).blocks, g) == FindBlock(t.blocks, g)
    {
      CompletenessIsLocal(t, h, g);
    }
  }

  lemma {:induction false} RemoveDownSnoc(t: Tables, lo: int, hi: int)
    requires lo <= hi
    ensures RemoveDown(t, lo - 1, hi) == RemoveBlock(RemoveDown(t, lo, hi), lo)
    decreases hi - lo
  {
    if lo < hi {
      RemoveDownSnoc(RemoveBlock(t, hi), lo, hi - 1);
    }
  }

  /** A store whose transaction rows all lie at or below its highest block. */
  ghost predicate Grounded(t: Tables) {
    t.blocks != [] && forall r :: r in t.transactions ==> r.blockHeight <= MaxHeight(t.blocks)
  }

  /**
    Crash recovery: the height found is that of the highest complete block above
    the checkpoint, or the checkpoint's; of blocks and transactions precisely those
    at or below it survive, and the checkpoint names it.
    */
  lemma RecoveryIsExact(t: Tables, c: Checkpoint)
    requires Grounded(t) && c == Effective(t.checkpoint)
    ensures var h, left := RecoveredHeight(t, c), Recovered(t, c);
            && c.height <= h
            && (h > c.height ==> Complete(t, h) && Complete(left, h))
            && (forall g :: h < g <= MaxHeight(t.blocks) ==> !Complete(t, g))
            && (forall b :: b in left.blocks <==> b in t.blocks && b.height <= h)
            && (forall r :: r in left.transactions <==> r in t.transactions && r.blockHeight <= h)
            && Effective(left.checkpoint).height == h
  {
    var h, left, top := RecoveredHeight(t, c), Recovered(t, c), MaxHeight(t.blocks);
    MaxHeightIsHighest(t.blocks);
    if top > c.height {
      HighestCompleteIs(t, c.height, top);
    }
    forall b
      ensures b in left.blocks <==> b in t.blocks && b.height <= h
    {
      FilterMember(BlockOutside(h, top), t.blocks, b);
    }
    forall r
      ensures r in left.transactions <==> r in t.transactions && r.blockHeight <= h
    {
      FilterMember(TxOutside(h, top), t.transactions, r);
    }
    if h > c.height {
      FindBlockFiltered(t.blocks, BlockOutside(h, top), h);
      FilterTwice(TxOutside(h, top), TxAt(h), TxAt(h), t.transactions);
    }
  }

  function BlockUpTo(h: int): BlockData -> bool {
    (b: BlockData) => b.height <= h
  }

  function TxUpTo(h: int): TransactionData -> bool {
    (r: TransactionData) => r.blockHeight <= h
  }

  function OutputOf(txids: set<Txid>): OutputData -> bool {
    (o: OutputData) => o.key.txid in txids
  }

  function InputOf(txids: set<Txid>): InputData -> bool {
    (i: InputData) => i.txid in txids
  }

  function PerformsOf(txids: set<Txid>): PerformsData -> bool {
    (p: PerformsData) => p.toTxid in txids
  }

  function BenefitsOf(txids: set<Txid>): BenefitsToData -> bool {
    (b: BenefitsToData) => b.fromTxid in txids
  }

  /** The rows that belong to the heights up to `h`. */
  function LowerPart(t: Tables, h: int): Tables {
    var txids := TxidsIn(t.transactions, -1, h);
    Tables(Filter(BlockUpTo(h), t.blocks), Filter(TxUpTo(h), t.transactions), Filter(OutputOf(txids), t.outputs),
           Filter(InputOf(txids), t.inputs), Filter(PerformsOf(txids), t.performs),
           Filter(BenefitsOf(txids), t.benefits), None)
  }

  /** Keeping the rows of some txids and dropping those of others commute. */
  lemma LowerRowsAreLeft(t: Tables, kept: set<Txid>, gone: set<Txid>)
    ensures && Filter(OutputOf(kept), Filter(OutputNotOf(gone), t.outputs)) ==
              Filter(OutputNotOf(gone), Filter(OutputOf(kept), t.outputs))
            && Filter(InputOf(kept), Filter(InputNotOf(gone), t.inputs)) ==
              Filter(InputNotOf(gone), Filter(InputOf(kept), t.inputs))
            && Filter(PerformsOf(kept), Filter(PerformsNotOf(gone), t.performs)) ==
              Filter(PerformsNotOf(gone), Filter(PerformsOf(kept), t.performs))
            && Filter(BenefitsOf(kept), Filter(BenefitsNotOf(gone), t.benefits)) ==
              Filter(BenefitsNotOf(gone), Filter(BenefitsOf(kept), t.benefits))
  {
    var both := kept - gone;
    FilterTwice(OutputNotOf(gone), OutputOf(kept), OutputOf(both), t.outputs);
    FilterTwice(OutputOf(kept), OutputNotOf(gone), OutputOf(both), t.outputs);
    FilterTwice(InputNotOf(gone), InputOf(kept), InputOf(both), t.inputs);
    FilterTwice(InputOf(kept), InputNotOf(gone), InputOf(both), t.inputs);
    FilterTwice(PerformsNotOf(gone), PerformsOf(kept), PerformsOf(both), t.performs);
    FilterTwice(PerformsOf(kept), PerformsNotOf(gone), PerformsOf(both), t.performs);
    FilterTwice(BenefitsNotOf(gone), BenefitsOf(kept), BenefitsOf(both), t.benefits);
    FilterTwice(BenefitsOf(kept), BenefitsNotOf(gone), BenefitsOf(both), t.benefits);
  }

  lemma LowerTxids(t: Tables, h: int, top: int)
    ensures TxidsIn(RemoveRange(t, h, top).transactions, -1, h) == TxidsIn(t.transactions, -1, h)
  {
    forall r
      ensures r in RemoveRange(t, h, top).transactions <==> r in t.transactions && !(h < r.blockHeight <= top)
    {
      FilterMember(TxOutside(h, top), t.transactions, r);
    }
  }

  /** What removing a range of heights does to the part below it. */
  lemma LowerPartAfterRemoval(t: Tables, h: int, top: int)
    ensures var gone := TxidsIn(t.transactions, h, top);
            LowerPart(RemoveRange(t, h, top), h) == LowerPart(t, h) <==> Fresh(LowerPart(t, h), gone)
  {
    var kept, gone, low := TxidsIn(t.transactions, -1, h), TxidsIn(t.transactions, h, top), LowerPart(t, h);
    LowerTxids(t, h, top);
    LowerRowsAreLeft(t, kept, gone);
    FilterTwice(BlockOutside(h, top), BlockUpTo(h), BlockUpTo(h), t.blocks);
    FilterTwice(TxOutside(h, top), TxUpTo(h), TxUpTo(h), t.transactions);
    FilterDrops(OutputNotOf(gone), low.outputs);
    FilterDrops(InputNotOf(gone), low.inputs);
    FilterDrops(PerformsNotOf(gone), low.performs);
    FilterDrops(BenefitsNotOf(gone), low.benefits);
    FreshMeansKept(low, gone);
  }

  /**
    Everything that belongs to the heights that stay is unchanged, row for row and
    in order, if and only if none of it names a transaction that goes.
    */
  lemma RecoveryKeepsLowerRows(t: Tables, c: Checkpoint)
    requires Grounded(t) && c == Effective(t.checkpoint)
    ensures var h := RecoveredHeight(t, c);
            LowerPart(Recovered(t, c), h) == LowerPart(t, h) <==>
            Fresh(LowerPart(t, h), TxidsIn(t.transactions, h, MaxHeight(t.blocks)))
  {
    var h, top := RecoveredHeight(t, c), MaxHeight(t.blocks);
    LowerPartAfterRemoval(t, h, top);
  }

  lemma {:induction false} RemoveDownSplit(t: Tables, lo: int, mid: int, hi: int)
    requires lo <= mid <= hi
    ensures RemoveDown(t, lo, hi) == RemoveDown(RemoveDown(t, mid, hi), lo, mid)
    decreases hi - mid
  {
    if mid < hi {
      RemoveDownSplit(RemoveBlock(t, hi), lo, mid, hi - 1);
    }
  }

  /** The highest block after part of the walk. */
  lemma WalkedTop(t0: Tables, t: Tables, lo: int, h: int, top: int)
    requires t0.blocks != [] && top == MaxHeight(t0.blocks) && lo <= h <= top && Walked(t0, t, lo, h, top)
    ensures forall b :: b in t.blocks ==> b.height <= h
    ensures FindBlock(t0.blocks, h).Some? ==> t.blocks != [] && MaxHeight(t.blocks) == h
  {
    RollbacksCompose(t0, h, top);
    MaxHeightIsHighest(t0.blocks);
    forall b | b in t.blocks
      ensures b.height <= h
    {
      FilterMember(BlockOutside(h, top), t0.blocks, b);
    }
    if FindBlock(t0.blocks, h).Some? {
      FindBlockFinds(t.blocks, h);
      MaxHeightIsHighest(t.blocks);
    }
  }

  /** Recovery after a recovery that was cut short gives what the uninterrupted one gives. */
  lemma InterruptionDoesNotMatter(t0: Tables, t: Tables, c: Checkpoint)
    requires Interrupted(t0, t, c) && Contiguous(t0, c.height)
    ensures RecoveredHeight(t, c) == RecoveredHeight(t0, c) && Recovered(t, c) == Recovered(t0, c)
    ensures t.checkpoint == t0.checkpoint
  {
    var top := MaxHeight(t0.blocks);
    var h :| c.height <= h <= top && Walked(t0, t, c.height, h, top);
    RollbacksCompose(t0, h, top);
    WalkedTop(t0, t, c.height, h, top);
    if h == c.height {
      if t.blocks != [] {
        MaxHeightIsHighest(t.blocks);
      }
      NothingToRecover(t, c);
    } else {
      var r := RecoveredHeight(t0, c);
      HighestCompleteIs(t, c.height, h);
      RemoveDownSplit(t0, r, h, top);
      RollbacksCompose(t0, r, top);
      RollbacksCompose(t, r, h);
    }
  }

  /** A second recovery finds the same height and changes nothing. */
  lemma RecoveryIsIdempotent(t: Tables, c: Checkpoint)
    requires Grounded(t) && c == Effective(t.checkpoint)
    ensures var left := Recovered(t, c);
            && RecoveredHeight(left, Effective(left.checkpoint)) == RecoveredHeight(t, c)
            && Recovered(left, Effective(left.checkpoint)) == left
  {
    var h, left := RecoveredHeight(t, c), Recovered(t, c);
    RecoveryIsExact(t, c);
    if left.blocks != [] {
      MaxHeightIsHighest(left.blocks);
      MaxHeightIsHighest(t.blocks);
      RemoveNothing(left, h, MaxHeight(left.blocks));
    }
  }
}
