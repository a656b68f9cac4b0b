/** The graph store behind the `GraphWriter` interface: tables, checkpoint and one explicit transaction. */
module Writer {
  import opened Types
  import opened Chain

  datatype WriterError = QueryFailed | ReorgDetected(height: u32, expected: string, actual: string)

  /** Height -1 means that nothing has been ingested. */
  datatype Checkpoint = Checkpoint(height: int, hash: string, file: string, offset: Option<nat>)

  datatype Tables = Tables(blocks: seq<BlockData>, transactions: seq<TransactionData>, outputs: seq<OutputData>,
                           inputs: seq<InputData>, performs: seq<PerformsData>, benefits: seq<BenefitsToData>,
                           checkpoint: Option<Checkpoint>)

  /** What `begin_transaction` saves. */
  datatype Snapshot = Snapshot(blocksLen: nat, transactionsLen: nat, outputsLen: nat, inputsLen: nat,
                               performsLen: nat, benefitsLen: nat, checkpoint: Option<Checkpoint>)

  function SnapshotOf(t: Tables): Snapshot {
    Snapshot(|t.blocks|, |t.transactions|, |t.outputs|, |t.inputs|, |t.performs|, |t.benefits|, t.checkpoint)
  }

  function Truncate<T>(xs: seq<T>, n: nat): seq<T> {
    xs[..Min(n, |xs|)]
  }

  function Restore(t: Tables, s: Snapshot): Tables {
    Tables(Truncate(t.blocks, s.blocksLen), Truncate(t.transactions, s.transactionsLen),
           Truncate(t.outputs, s.outputsLen),
           Truncate(t.inputs, s.inputsLen), Truncate(t.performs, s.performsLen), Truncate(t.benefits, s.benefitsLen),
           s.checkpoint)
  }

  /** `t` is `base` with rows appended to any of the six tables. */
  ghost predicate Appended(base: Tables, t: Tables) {
    && base.blocks <= t.blocks && base.transactions <= t.transactions && base.outputs <= t.outputs
    && base.inputs <= t.inputs && base.performs <= t.performs && base.benefits <= t.benefits
  }

  /** `t` is `base` with some of the given relationship rows appended. */
  ghost predicate LateOnly(base: Tables, t: Tables, performs: seq<PerformsData>, benefits: seq<BenefitsToData>) {
    && t == base.(performs := t.performs, benefits := t.benefits)
    && base.performs <= t.performs && multiset(t.performs) <= multiset(base.performs) + multiset(performs)
    && base.benefits <= t.benefits && multiset(t.benefits) <= multiset(base.benefits) + multiset(benefits)
    && (performs == [] && benefits == [] ==> t == base)
  }

  /** Truncation to the saved lengths undoes any number of appends and checkpoint writes. */
  lemma RestoreUndoesAppends(base: Tables, t: Tables)
    requires Appended(base, t)
    ensures Restore(t, SnapshotOf(base)) == base
  {
  }

  // ------------------------------------------------------------------
  // Queries
  // ------------------------------------------------------------------

  function Filter<T>(f: T -> bool, xs: seq<T>): seq<T> {
    if xs == [] then []
    else if f(xs[|xs| - 1]) then Filter(f, xs[..|xs| - 1]) + [xs[|xs| - 1]]
    else Filter(f, xs[..|xs| - 1])
  }

  function FindBlock(blocks: seq<BlockData>, height: int): Option<BlockData> {
    if blocks == [] then None
    else if blocks[0].height == height then Some(blocks[0])
    else FindBlock(blocks[1..], height)
  }

  function FindOutput(outputs: seq<OutputData>, k: UtxoKey): Option<OutputData> {
    if outputs == [] then None
    else if outputs[0].key == k then Some(outputs[0])
    else FindOutput(outputs[1..], k)
  }

  /** One row for every requested id that exists; missing ids are omitted. */
  function FoundRows(outputs: seq<OutputData>, ids: seq<UtxoKey>): seq<OutputData> {
    if ids == [] then []
    else
      var before := FoundRows(outputs, ids[..|ids| - 1]);
      match FindOutput(outputs, ids[|ids| - 1])
      case Some(o) => before + [o]
      case None => before
  }

  lemma {:induction false} FindOutputFinds(outputs: seq<OutputData>, k: UtxoKey)
    ensures match FindOutput(outputs, k)
            case Some(o) => o in outputs && o.key == k
            case None => forall o :: o in outputs ==> o.key != k
  {
    if outputs != [] {
      FindOutputFinds(outputs[1..], k);
      assert outputs == [outputs[0]] + outputs[1..];
    }
  }

  lemma {:induction false} FoundRowsMember(outputs: seq<OutputData>, ids: seq<UtxoKey>, o: OutputData)
    ensures o in FoundRows(outputs, ids) <==> o.key in ids && FindOutput(outputs, o.key) == Some(o)
  {
    if ids != [] {
      var before, k := ids[..|ids| - 1], ids[|ids| - 1];
      assert ids == before + [k];
      FoundRowsMember(outputs, before, o);
      FindOutputFinds(outputs, k);
    }
  }

  lemma {:induction false} FindBlockFinds(blocks: seq<BlockData>, height: int)
    ensures match FindBlock(blocks, height)
            case Some(b) => b in blocks && b.height == height
            case None => forall b :: b in blocks ==> b.height != height
  {
    if blocks != [] {
      FindBlockFinds(blocks[1..], height);
      assert blocks == [blocks[0]] + blocks[1..];
    }
  }

  lemma {:induction false} FilterMember<T>(f: T -> bool, xs: seq<T>, x: T)
    ensures x in Filter(f, xs) <==> x in xs && f(x)
  {
    if xs != [] {
      FilterMember(f, xs[..|xs| - 1], x);
      assert xs == xs[..|xs| - 1] + [xs[|xs| - 1]];
    }
  }

  lemma {:induction false} FilterSnoc<T>(f: T -> bool, xs: seq<T>, x: T)
    ensures Filter(f, xs + [x]) == if f(x) then Filter(f, xs) + [x] else Filter(f, xs)
  {
    assert (xs + [x])[..|xs|] == xs;
  }

  lemma {:induction false} FilterConcat<T>(f: T -> bool, a: seq<T>, b: seq<T>)
    ensures Filter(f, a + b) == Filter(f, a) + Filter(f, b)
  {
    if b == [] {
      assert a + b == a;
    } else {
      assert (a + b)[..|a + b| - 1] == a + b[..|b| - 1];
      FilterConcat(f, a, b[..|b| - 1]);
      Assoc(Filter(f, a), Filter(f, b[..|b| - 1]), [b[|b| - 1]]);
    }
  }

  lemma {:induction false} FilterAll<T>(f: T -> bool, xs: seq<T>)
    requires forall x :: x in xs ==> f(x)
    ensures Filter(f, xs) == xs
  {
    if xs != [] {
      FilterAll(f, xs[..|xs| - 1]);
    }
  }

  lemma {:induction false} FilterNone<T>(f: T -> bool, xs: seq<T>)
    requires forall x :: x in xs ==> !f(x)
    ensures Filter(f, xs) == []
  {
    if xs != [] {
      FilterNone(f, xs[..|xs| - 1]);
    }
  }

  /** A filter that passes a front part only. */
  lemma FilterFront<T>(f: T -> bool, xs: seq<T>, n: nat)
    requires n <= |xs| && (forall i :: 0 <= i < n ==> f(xs[i])) && (forall i :: n <= i < |xs| ==> !f(xs[i]))
    ensures Filter(f, xs) == xs[..n]
  {
    FilterConcat(f, xs[..n], xs[n..]);
    FilterAll(f, xs[..n]);
    FilterNone(f, xs[n..]);
    assert xs[..n] + xs[n..] == xs;
  }

  /** A filter that drops something shortens the list. */
  lemma {:induction false} FilterDrops<T>(f: T -> bool, xs: seq<T>)
    ensures |Filter(f, xs)| <= |xs|
    ensures Filter(f, xs) == xs <==> forall x :: x in xs ==> f(x)
  {
    if xs != [] {
      var before, x := xs[..|xs| - 1], xs[|xs| - 1];
      assert xs == before + [x];
      FilterDrops(f, before);
    }
  }

  /** Filtering twice keeps what passes both filters. */
  lemma {:induction false} FilterTwice<T>(f: T -> bool, g: T -> bool, h: T -> bool, xs: seq<T>)
    requires forall x :: x in xs ==> (h(x) <==> f(x) && g(x))
    ensures Filter(g, Filter(f, xs)) == Filter(h, xs)
  {
    if xs != [] {
      var before, x := xs[..|xs| - 1], xs[|xs| - 1];
      assert xs == before + [x];
      FilterTwice(f, g, h, before);
      if f(x) {
        assert (Filter(f, before) + [x])[..|Filter(f, before)|] == Filter(f, before);
      }
    }
  }

  function MaxHeight(blocks: seq<BlockData>): int
    requires blocks != []
  {
    var h := blocks[|blocks| - 1].height;
    if |blocks| == 1 then h
    else
      var before := MaxHeight(blocks[..|blocks| - 1]);
      if before < h then h else before
  }

  lemma {:induction false} MaxHeightIsHighest(blocks: seq<BlockData>)
    requires blocks != []
    ensures exists b :: b in blocks && b.height == MaxHeight(blocks)
    ensures forall b :: b in blocks ==> b.height <= MaxHeight(blocks)
  {
    var before, last := blocks[..|blocks| - 1], blocks[|blocks| - 1];
    assert blocks == before + [last] && last in blocks;
    if before != [] {
      MaxHeightIsHighest(before);
      var b :| b in before && b.height == MaxHeight(before);
      assert b in blocks;
    }
  }

  function TxidsAt(ts: seq<TransactionData>, height: int): set<Txid> {
    set r | r in ts && r.blockHeight == height :: r.txid
  }

  function BlockNotAt(height: int): BlockData -> bool {
    (b: BlockData) => b.height != height
  }

  function TxAt(height: int): TransactionData -> bool {
    (r: TransactionData) => r.blockHeight == height
  }

  function TxNotAt(height: int): TransactionData -> bool {
    (r: TransactionData) => r.blockHeight != height
  }

  function OutputNotOf(txids: set<Txid>): OutputData -> bool {
    (o: OutputData) => o.key.txid !in txids
  }

  function InputNotOf(txids: set<Txid>): InputData -> bool {
    (i: InputData) => i.txid !in txids
  }

  function PerformsNotOf(txids: set<Txid>): PerformsData -> bool {
    (p: PerformsData) => p.toTxid !in txids
  }

  function BenefitsNotOf(txids: set<Txid>): BenefitsToData -> bool {
    (b: BenefitsToData) => b.fromTxid !in txids
  }

  /** `rollback_block`: the block, its transactions, and every row that names one of their txids. */
  function RemoveBlock(t: Tables, height: int): Tables {
    var txids := TxidsAt(t.transactions, height);
    t.(blocks := Filter(BlockNotAt(height), t.blocks),
       transactions := Filter(TxNotAt(height), t.transactions),
       outputs := Filter(OutputNotOf(txids), t.outputs),
       inputs := Filter(InputNotOf(txids), t.inputs),
       performs := Filter(PerformsNotOf(txids), t.performs),
       benefits := Filter(BenefitsNotOf(txids), t.benefits))
  }

  function TxCountAt(ts: seq<TransactionData>, height: int): nat {
    |Filter(TxAt(height), ts)|
  }

  // ------------------------------------------------------------------
  // The object
  // ------------------------------------------------------------------

  /**
    How many calls have failed so far, how many rollbacks and relationship writes among
    them, and how many output lookups ran while a transaction was open.
    */
  datatype Log = Log(failures: nat, rollbacks: nat, relations: nat, lookupsInTransaction: nat)

  /** Failures are only counted up, no rollback has failed and no lookup ran inside a transaction. */
  ghost predicate Steady(before: Log, now: Log) {
    && before.failures <= now.failures && before.relations <= now.relations
    && before.rollbacks == now.rollbacks && before.lookupsInTransaction == now.lookupsInTransaction
  }

  /**
    Why something may be left under way: a transaction is open if and only if a rollback
    has failed, and tasks are left only if a relationship write has failed.
    */
  ghost predicate Explains(before: Log, now: Log, inTransaction: bool, quiet: bool) {
    && before.failures <= now.failures
    && now.rollbacks == before.rollbacks + (if inTransaction then 1 else 0)
    && before.relations <= now.relations && before.lookupsInTransaction == now.lookupsInTransaction
    && (!quiet ==> before.relations < now.relations)
  }

  class MockWriter {
    var blocks: seq<BlockData>
    var transactions: seq<TransactionData>
    var outputs: seq<OutputData>
    var inputs: seq<InputData>
    var performs: seq<PerformsData>
    var benefits: seq<BenefitsToData>
    var checkpoint: Option<Checkpoint>
    var inTransaction: bool
    var snapshot: Option<Snapshot>
    var commitCount: nat
    ghost var log: Log
    /** Rows held by bucket tasks that outlived the phase that spawned them; they may be written at any time. */
    var latePerforms: seq<PerformsData>
    var lateBenefits: seq<BenefitsToData>

    ghost function Contents(): Tables
      reads this`blocks, this`transactions, this`outputs, this`inputs, this`performs, this`benefits, this`checkpoint
    {
      Tables(blocks, transactions, outputs, inputs, performs, benefits, checkpoint)
    }

    /** No task is left that could still write. */
    ghost predicate Quiet()
      reads this`latePerforms, this`lateBenefits
    {
      latePerforms == [] && lateBenefits == []
    }

    /** Nothing is under way: no transaction is open and no task is left. */
    ghost predicate Settled()
      reads this`inTransaction, this`latePerforms, this`lateBenefits
    {
      !inTransaction && Quiet()
    }

    /**
      The tables are `base` but for what an unfinished transaction or tasks that
      outlived their phase have appended; once settled they are `base`.
      */
    ghost predicate Over(base: Tables)
      reads this`blocks, this`transactions, this`outputs, this`inputs, this`performs, this`benefits, this`checkpoint,
            this`inTransaction, this`latePerforms, this`lateBenefits
    {
      && Appended(base, Contents())
      && (!inTransaction ==> LateOnly(base, Contents(), latePerforms, lateBenefits))
    }

    lemma OverItself()
      requires !inTransaction
      ensures Over(Contents())
    {
    }

    constructor ()
      ensures Contents() == Tables([], [], [], [], [], [], None)
      ensures Settled() && snapshot.None? && commitCount == 0 && log == Log(0, 0, 0, 0)
    {
      blocks, transactions, outputs, inputs, performs, benefits := [], [], [], [], [], [];
      checkpoint, snapshot := None, None;
      inTransaction := false;
      commitCount := 0;
      latePerforms, lateBenefits := [], [];
      log := Log(0, 0, 0, 0);
    }

    /** Any call may fail, whatever happened before. */
    method CheckFailure() returns (failed: bool)
      modifies this`log
      ensures log == old(log).(failures := old(log).failures + if failed then 1 else 0)
    {
      failed := *;
      if failed {
        log := log.(failures := log.failures + 1);
      }
    }

    method WriteBlocks(rows: seq<BlockData>) returns (r: Outcome<WriterError>)
      modifies this`blocks, this`log
      ensures blocks == if r.Pass? then old(blocks) + rows else old(blocks)
      ensures Steady(old(log), log) && (r.Fail? ==> old(log.failures) < log.failures)
    {
      var failed := CheckFailure();
      if failed {
        return Fail(QueryFailed);
      }
      blocks := blocks + rows;
      r := Pass;
    }

    method WriteTransactions(rows: seq<TransactionData>) returns (r: Outcome<WriterError>)
      modifies this`transactions, this`log
      ensures transactions == if r.Pass? then old(transactions) + rows else old(transactions)
      ensures Steady(old(log), log) && (r.Fail? ==> old(log.failures) < log.failures)
    {
      var failed := CheckFailure();
      if failed {
        return Fail(QueryFailed);
      }
      transactions := transactions + rows;
      r := Pass;
    }

    method WriteOutputs(rows: seq<OutputData>) returns (r: Outcome<WriterError>)
      modifies this`outputs, this`log
      ensures outputs == if r.Pass? then old(outputs) + rows else old(outputs)
      ensures Steady(old(log), log) && (r.Fail? ==> old(log.failures) < log.failures)
    {
      var failed := CheckFailure();
      if failed {
        return Fail(QueryFailed);
      }
      outputs := outputs + rows;
      r := Pass;
    }

    method WriteInputs(rows: seq<InputData>) returns (r: Outcome<WriterError>)
      modifies this`inputs, this`log
      ensures inputs == if r.Pass? then old(inputs) + rows else old(inputs)
      ensures Steady(old(log), log) && (r.Fail? ==> old(log.failures) < log.failures)
    {
      var failed := CheckFailure();
      if failed {
        return Fail(QueryFailed);
      }
      inputs := inputs + rows;
      r := Pass;
    }

    method WritePerforms(rows: seq<PerformsData>) returns (r: Outcome<WriterError>)
      modifies this`performs, this`log
      ensures performs == if r.Pass? then old(performs) + rows else old(performs)
      ensures r.Fail? ==> old(log.relations) < log.relations
      ensures Steady(old(log), log) && (r.Fail? ==> old(log.failures) < log.failures)
    {
      var failed := CheckFailure();
      if failed {
        log := log.(relations := log.relations + 1);
        return Fail(QueryFailed);
      }
      performs := performs + rows;
      r := Pass;
    }

    method WriteBenefitsTo(rows: seq<BenefitsToData>) returns (r: Outcome<WriterError>)
      modifies this`benefits, this`log
      ensures benefits == if r.Pass? then old(benefits) + rows else old(benefits)
      ensures r.Fail? ==> old(log.relations) < log.relations
      ensures Steady(old(log), log) && (r.Fail? ==> old(log.failures) < log.failures)
    {
      var failed := CheckFailure();
      if failed {
        log := log.(relations := log.relations + 1);
        return Fail(QueryFailed);
      }
      benefits := benefits + rows;
      r := Pass;
    }

    // The fast writes may fail twice, once under their own name.

    method WriteBlocksFast(rows: seq<BlockData>) returns (r: Outcome<WriterError>)
      modifies this`blocks, this`log
      ensures blocks == if r.Pass? then old(blocks) + rows else old(blocks)
      ensures Steady(old(log), log) && (r.Fail? ==> old(log.failures) < log.failures)
    {
      var failed := CheckFailure();
      if failed {
        return Fail(QueryFailed);
      }
      r := WriteBlocks(rows);
    }

    method WriteTransactionsFast(rows: seq<TransactionData>) returns (r: Outcome<WriterError>)
      modifies this`transactions, this`log
      ensures transactions == if r.Pass? then old(transactions) + rows else old(transactions)
      ensures Steady(old(log), log) && (r.Fail? ==> old(log.failures) < log.failures)
    {
      var failed := CheckFailure();
      if failed {
        return Fail(QueryFailed);
      }
      r := WriteTransactions(rows);
    }

    method WriteOutputsFast(rows: seq<OutputData>) returns (r: Outcome<WriterError>)
      modifies this`outputs, this`log
      ensures outputs == if r.Pass? then old(outputs) + rows else old(outputs)
      ensures Steady(old(log), log) && (r.Fail? ==> old(log.failures) < log.failures)
    {
      var failed := CheckFailure();
      if failed {
        return Fail(QueryFailed);
      }
      r := WriteOutputs(rows);
    }

    method WriteInputsFast(rows: seq<InputData>) returns (r: Outcome<WriterError>)
      modifies this`inputs, this`log
      ensures inputs == if r.Pass? then old(inputs) + rows else old(inputs)
      ensures Steady(old(log), log) && (r.Fail? ==> old(log.failures) < log.failures)
    {
      var failed := CheckFailure();
      if failed {
        return Fail(QueryFailed);
      }
      r := WriteInputs(rows);
    }

    method LookupOutputsBatch(ids: seq<UtxoKey>) returns (r: Result<seq<OutputData>, WriterError>)
      modifies this`log
      ensures r.Success? ==> r.value == FoundRows(outputs, ids)
      ensures old(log.failures) <= log.failures && (r.Failure? <==> old(log.failures) < log.failures)
      ensures log.lookupsInTransaction == old(log.lookupsInTransaction) + if r.Success? && inTransaction then 1 else 0
      ensures !inTransaction ==> Steady(old(log), log)
    {
      var failed := CheckFailure();
      if failed {
        return Failure(QueryFailed);
      }
      if inTransaction {
        log := log.(lookupsInTransaction := log.lookupsInTransaction + 1);
      }
      r := Success(FoundRows(outputs, ids));
    }

    method UpdateCheckpoint(c: Checkpoint) returns (r: Outcome<WriterError>)
      modifies this`checkpoint, this`log
      ensures checkpoint == if r.Pass? then Some(c) else old(checkpoint)
      ensures Steady(old(log), log) && (r.Fail? ==> old(log.failures) < log.failures)
    {
      var failed := CheckFailure();
      if failed {
        return Fail(QueryFailed);
      }
      checkpoint := Some(c);
      r := Pass;
    }

    method LookupBlockHash(height: int) returns (r: Option<string>)
      ensures r == match FindBlock(blocks, height) case Some(b) => Some(b.hash) case None => None
    {
      match FindBlock(blocks, height)
      case Some(b) => r := Some(b.hash);
      case None => r := None;
    }

    method RollbackBlock(height: u32)
      modifies this`blocks, this`transactions, this`outputs, this`inputs, this`performs, this`benefits
      ensures Contents() == RemoveBlock(old(Contents()), height)
    {
      var txids := TxidsAt(transactions, height);
      performs := Filter(PerformsNotOf(txids), performs);
      benefits := Filter(BenefitsNotOf(txids), benefits);
      inputs := Filter(InputNotOf(txids), inputs);
      outputs := Filter(OutputNotOf(txids), outputs);
      transactions := Filter(TxNotAt(height), transactions);
      blocks := Filter(BlockNotAt(height), blocks);
    }

    method GetMaxBlockHeight() returns (r: Option<int>)
      ensures r == if blocks == [] then None else Some(MaxHeight(blocks))
    {
      r := None;
      for i := 0 to |blocks|
        invariant r == if i == 0 then None else Some(MaxHeight(blocks[..i]))
      {
        assert blocks[..i + 1] == blocks[..i] + [blocks[i]];
        if r.None? || r.value < blocks[i].height {
          r := Some(blocks[i].height);
        }
      }
      assert blocks[..|blocks|] == blocks;
    }

    /** The transaction count recorded in the block and the number of transaction rows at its height. */
    method CheckBlockComplete(height: u32) returns (r: Result<(nat, nat), WriterError>)
      ensures match FindBlock(blocks, height)
              case Some(b) => r == Success((b.txCount, TxCountAt(transactions, height)))
              case None => r.Failure?
    {
      match FindBlock(blocks, height)
      case Some(b) => r := Success((b.txCount, TxCountAt(transactions, height)));
      case None => r := Failure(QueryFailed);
    }

    method BeginTransaction() returns (r: Outcome<WriterError>)
      modifies this`inTransaction, this`snapshot, this`log
      ensures r.Pass? ==> inTransaction && snapshot == Some(SnapshotOf(old(Contents())))
      ensures r.Fail? ==> inTransaction == old(inTransaction) && snapshot == old(snapshot)
      ensures Steady(old(log), log) && (r.Fail? ==> old(log.failures) < log.failures)
    {
      var failed := CheckFailure();
      if failed {
        return Fail(QueryFailed);
      }
      inTransaction := true;
      snapshot := Some(Snapshot(|blocks|, |transactions|, |outputs|, |inputs|, |performs|, |benefits|, checkpoint));
      r := Pass;
    }

    method RestoreSnapshot()
      modifies this`blocks, this`transactions, this`outputs, this`inputs, this`performs, this`benefits, this`checkpoint,
               this`snapshot
      ensures snapshot.None?
      ensures Contents() == if old(snapshot).Some? then Restore(old(Contents()), old(snapshot).value)
              else old(Contents())
    {
      if snapshot.Some? {
        var s := snapshot.value;
        blocks := Truncate(blocks, s.blocksLen);
        transactions := Truncate(transactions, s.transactionsLen);
        outputs := Truncate(outputs, s.outputsLen);
        inputs := Truncate(inputs, s.inputsLen);
        performs := Truncate(performs, s.performsLen);
        benefits := Truncate(benefits, s.benefitsLen);
        checkpoint := s.checkpoint;
        snapshot := None;
      }
    }

    /** A failed commit rolls the transaction back itself. */
    method CommitTransaction() returns (r: Outcome<WriterError>)
      modifies this`blocks, this`transactions, this`outputs, this`inputs, this`performs, this`benefits, this`checkpoint,
               this`snapshot, this`inTransaction, this`commitCount, this`log
      ensures !inTransaction && snapshot.None?
      ensures r.Pass? ==> Contents() == old(Contents()) && commitCount == old(commitCount) + 1
      ensures r.Fail? && old(snapshot).Some? ==> Contents() == Restore(old(Contents()), old(snapshot).value)
      ensures Steady(old(log), log) && (r.Fail? ==> old(log.failures) < log.failures)
    {
      var failed := CheckFailure();
      inTransaction := false;
      if failed {
        RestoreSnapshot();
        return Fail(QueryFailed);
      }
      snapshot := None;
      commitCount := commitCount + 1;
      r := Pass;
    }

    method RollbackTransaction() returns (r: Outcome<WriterError>)
      modifies this`blocks, this`transactions, this`outputs, this`inputs, this`performs, this`benefits, this`checkpoint,
               this`snapshot, this`inTransaction, this`log
      ensures log.rollbacks == old(log.rollbacks) + (if r.Fail? then 1 else 0) && log.relations == old(log.relations)
      ensures old(log.failures) <= log.failures && log.lookupsInTransaction == old(log.lookupsInTransaction)
      ensures r.Pass? ==> !inTransaction && snapshot.None?
      ensures r.Pass? && old(snapshot).Some? ==> Contents() == Restore(old(Contents()), old(snapshot).value)
      ensures r.Fail? ==>
                Contents() == old(Contents()) && snapshot == old(snapshot) && inTransaction == old(inTransaction)
    {
      var failed := CheckFailure();
      if failed {
        log := log.(rollbacks := log.rollbacks + 1);
        return Fail(QueryFailed);
      }
      RestoreSnapshot();
      inTransaction := false;
      r := Pass;
    }

    /** Tasks that outlived their phase write some of their rows. */
    method LateWrites()
      modifies this`performs, this`benefits
      ensures old(performs) <= performs && multiset(performs) <= multiset(old(performs)) + multiset(latePerforms)
      ensures old(benefits) <= benefits && multiset(benefits) <= multiset(old(benefits)) + multiset(lateBenefits)
      ensures Quiet() ==> performs == old(performs) && benefits == old(benefits)
    {
      var ps := SomeOf(latePerforms);
      var bs := SomeOf(lateBenefits);
      performs := performs + ps;
      benefits := benefits + bs;
    }
  }

  /** Any of the rows. */
  method SomeOf<T>(rows: seq<T>) returns (some: seq<T>)
    ensures multiset(some) <= multiset(rows) && |some| <= |rows|
  {
    some := [];
    for i := 0 to |rows|
      invariant multiset(some) <= multiset(rows[..i]) && |some| <= i
    {
      assert rows[..i + 1] == rows[..i] + [rows[i]];
      if * {
        some := some + [rows[i]];
      }
    }
    assert rows[..|rows|] == rows;
  }
}
