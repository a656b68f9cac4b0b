/** What the tables hold during a live run: the rows of the stored chain, and no others. */
module LiveTables {
  import opened Types
  import opened Chain
  import opened Aggregation
  import opened Writer
  import opened Refinement
  import opened Orchestration
  import opened Recovery
  import opened Live

  // ------------------------------------------------------------------
  // The rows of a chain
  // ------------------------------------------------------------------

  /** The six tables are what ingesting these blocks into an empty store leaves. */
  ghost predicate Holds(t: Tables, items: seq<Item>, out: Resolved) {
    var ps := TxsOf(items);
    && t.blocks == BlockRows(items) && Bounded(t.transactions, ps, out)
    && t.outputs == OutputRows(ps) && t.inputs == InputRows(ps)
    && PerformsAmong(t.performs, Txids(ps)) && multiset(t.benefits) == BenefitsRows(ps)
  }

  /** With the true amounts, and with a cache that is truthful in every field, the true relationships. */
  ghost predicate HoldsTruly(t: Tables, items: seq<Item>, k: Known) {
    && Holds(t, items, k.out) && t.transactions == TxRows(TxsOf(items), k.out)
    && (k.exact ==> multiset(t.performs) == PerformsRows(TxsOf(items), k.out))
  }

  const EMPTY: Tables := Tables([], [], [], [], [], [], None)

  /** It is growth from the empty store, but for the checkpoint, which is the live run's own. */
  lemma HoldsIffGrown(t: Tables, items: seq<Item>, out: Resolved)
    requires items != [] && t.checkpoint == Some(CheckpointFor(items[|items| - 1], None))
    ensures Holds(t, items, out) <==> Grows(EMPTY, t, items, out)
  {
    var ps := TxsOf(items);
    assert [] + BlockRows(items) == BlockRows(items) && [] + OutputRows(ps) == OutputRows(ps);
    assert [] + InputRows(ps) == InputRows(ps);
    assert t.transactions[0..] == t.transactions && t.performs[0..] == t.performs && t.benefits[0..] == t.benefits;
    if Holds(t, items, out) {
      BenefitsAreNamed(t.benefits, ps);
    }
  }

  lemma BenefitsAreNamed(rows: seq<BenefitsToData>, ps: seq<Pending>)
    requires multiset(rows) == BenefitsRows(ps)
    ensures BenefitsAmong(rows, Txids(ps))
  {
    forall r | r in rows
      ensures r.fromTxid in Txids(ps)
    {
      assert r in multiset(rows);
      BenefitsName(ps, r);
    }
  }

  // ------------------------------------------------------------------
  // Up
  // ------------------------------------------------------------------

  lemma TxidsConcat(a: seq<Pending>, b: seq<Pending>)
    ensures Txids(a + b) == Txids(a) + Txids(b)
  {
    assert forall p :: p in a + b <==> p in a || p in b;
  }

  /** A block on top. */
  lemma UpHolds(a: Tables, b: Tables, items: seq<Item>, item: Item, k: Known)
    requires Holds(a, items, k.out) && ChunkDone(a, b, [item], k.caps, k.out, k.exact)
    ensures Holds(b, items + [item], k.out)
  {
    var ps, qs := TxsOf(items), TxsOf([item]);
    TxsConcat(items, [item]);
    OutputsConcat(ps, qs);
    InputsConcat(ps, qs);
    BenefitsConcat(ps, qs);
    BlockRowsConcat(items, [item]);
    TxidsConcat(ps, qs);
    BoundedConcat(a.transactions, b.transactions[|a.transactions|..], ps, qs, k.out);
    TailAfter(a.transactions, b.transactions);
    TailAfter(a.performs, b.performs);
  }

  lemma UpHoldsTruly(a: Tables, b: Tables, items: seq<Item>, item: Item, k: Known)
    requires HoldsTruly(a, items, k) && ChunkDone(a, b, [item], k.caps, k.out, k.exact)
    requires FindsInputs(k.caps, a.outputs, [item])
    ensures HoldsTruly(b, items + [item], k)
  {
    UpHolds(a, b, items, item, k);
    TxsConcat(items, [item]);
    TxRowsConcat(TxsOf(items), TxsOf([item]), k.out);
    PerformsConcat(TxsOf(items), TxsOf([item]), k.out);
    if k.exact {
      assert ViewOf(b).performs == ViewOf(a).performs + PerformsRows(TxsOf([item]), k.out);
    }
  }

  // ------------------------------------------------------------------
  // Back
  // ------------------------------------------------------------------

  /** No row of the first transactions names one of these. */
  ghost predicate NoneNames(ps: seq<Pending>, txids: set<Txid>) {
    && (forall o :: o in OutputRows(ps) ==> o.key.txid !in txids)
    && (forall i :: i in InputRows(ps) ==> i.txid !in txids)
    && (forall b :: b in BenefitsRows(ps) ==> b.fromTxid !in txids)
  }

  lemma DistinctNamesNone(front: seq<Pending>, back: seq<Pending>)
    requires Txids(front) !! Txids(back)
    ensures NoneNames(front, Txids(back))
  {
    forall o | o in OutputRows(front)
      ensures o.key.txid !in Txids(back)
    {
      OutputRowOrigin(front, o);
    }
    forall i | i in InputRows(front)
      ensures i.txid !in Txids(back)
    {
      InputRowOrigin(front, i);
    }
    forall b | b in BenefitsRows(front)
      ensures b.fromTxid !in Txids(back)
    {
      BenefitsName(front, b);
    }
  }

  lemma OutputsCut(front: seq<Pending>, back: seq<Pending>)
    ensures Filter(OutputNotOf(Txids(back)), OutputRows(front + back)) == OutputRows(front) <==>
            forall o :: o in OutputRows(front) ==> o.key.txid !in Txids(back)
  {
    var gone := OutputNotOf(Txids(back));
    OutputsConcat(front, back);
    FilterConcat(gone, OutputRows(front), OutputRows(back));
    forall o | o in OutputRows(back)
      ensures !gone(o)
    {
      OutputRowOrigin(back, o);
    }
    FilterNone(gone, OutputRows(back));
    FilterDrops(gone, OutputRows(front));
  }

  lemma InputsCut(front: seq<Pending>, back: seq<Pending>)
    ensures Filter(InputNotOf(Txids(back)), InputRows(front + back)) == InputRows(front) <==>
            forall i :: i in InputRows(front) ==> i.txid !in Txids(back)
  {
    var gone := InputNotOf(Txids(back));
    InputsConcat(front, back);
    FilterConcat(gone, InputRows(front), InputRows(back));
    forall i | i in InputRows(back)
      ensures !gone(i)
    {
      InputRowOrigin(back, i);
    }
    FilterNone(gone, InputRows(back));
    FilterDrops(gone, InputRows(front));
  }

  lemma {:induction false} FilterCounts<T>(f: T -> bool, xs: seq<T>, x: T)
    ensures multiset(Filter(f, xs))[x] == if f(x) then multiset(xs)[x] else 0
  {
    if xs != [] {
      var before, last := xs[..|xs| - 1], xs[|xs| - 1];
      assert xs == before + [last];
      FilterCounts(f, before, x);
    }
  }

  /**
    Of the rows of two groups, the filter leaves those of the first if it drops all of the second
    and none of the first.
    */
  lemma BagCut<T(!new)>(f: T -> bool, rows: seq<T>, front: multiset<T>, back: multiset<T>)
    requires multiset(rows) == front + back && forall x :: x in back ==> !f(x)
    ensures multiset(Filter(f, rows)) == front <==> forall x :: x in front ==> f(x)
  {
    forall x
      ensures multiset(Filter(f, rows))[x] == if f(x) then front[x] else 0
    {
      FilterCounts(f, rows, x);
      assert multiset(rows)[x] == front[x] + back[x];
    }
  }

  lemma BenefitsCut(rows: seq<BenefitsToData>, front: seq<Pending>, back: seq<Pending>)
    requires multiset(rows) == BenefitsRows(front + back)
    ensures multiset(Filter(BenefitsNotOf(Txids(back)), rows)) == BenefitsRows(front) <==>
            forall b :: b in BenefitsRows(front) ==> b.fromTxid !in Txids(back)
  {
    BenefitsConcat(front, back);
    forall b | b in BenefitsRows(back)
      ensures !BenefitsNotOf(Txids(back))(b)
    {
      BenefitsName(back, b);
    }
    BagCut(BenefitsNotOf(Txids(back)), rows, BenefitsRows(front), BenefitsRows(back));
  }

  lemma PerformsCut(rows: seq<PerformsData>, front: seq<Pending>, back: seq<Pending>, out: Resolved)
    requires multiset(rows) == PerformsRows(front + back, out) && Txids(front) !! Txids(back)
    ensures multiset(Filter(PerformsNotOf(Txids(back)), rows)) == PerformsRows(front, out)
  {
    PerformsConcat(front, back, out);
    forall p | p in PerformsRows(back, out)
      ensures !PerformsNotOf(Txids(back))(p)
    {
      PerformsName(back, out, p);
    }
    forall p | p in PerformsRows(front, out)
      ensures PerformsNotOf(Txids(back))(p)
    {
      PerformsName(front, out, p);
    }
    BagCut(PerformsNotOf(Txids(back)), rows, PerformsRows(front, out), PerformsRows(back, out));
  }

  lemma PerformsStayAmong(rows: seq<PerformsData>, front: set<Txid>, back: set<Txid>)
    requires PerformsAmong(rows, front + back)
    ensures PerformsAmong(Filter(PerformsNotOf(back), rows), front)
  {
    forall r | r in Filter(PerformsNotOf(back), rows)
      ensures r.toTxid in front
    {
      FilterMember(PerformsNotOf(back), rows, r);
    }
  }

  lemma BoundedSplit(rows: seq<TransactionData>, front: seq<Pending>, back: seq<Pending>, out: Resolved)
    requires Bounded(rows, front + back, out)
    ensures Bounded(rows[..|front|], front, out) && Bounded(rows[|front|..], back, out)
  {
    forall i | 0 <= i < |back|
      ensures rows[|front| + i] == RowWith(back[i], rows[|front| + i].totalInput)
      ensures rows[|front| + i].totalInput <= TxRow(back[i], out).totalInput
    {
      assert (front + back)[|front| + i] == back[i];
    }
    forall i | 0 <= i < |front|
      ensures rows[i] == RowWith(front[i], rows[i].totalInput) && rows[i].totalInput <= TxRow(front[i], out).totalInput
    {
      assert (front + back)[i] == front[i];
    }
  }

  /** The txids above height `f` are those of the rows behind. */
  lemma TxidsBehind(low: seq<TransactionData>, high: seq<TransactionData>, front: seq<Pending>, back: seq<Pending>,
                    f: int, tip: int)
    requires RowsOf(low, front) && RowsOf(high, back)
    requires (forall p :: p in front ==> p.height <= f) && (forall p :: p in back ==> f < p.height <= tip)
    ensures TxidsIn(low + high, f, tip) == Txids(back)
  {
    LowRows(low, front, f);
    NewRows(high, back, f, tip);
    TxidsOfTail(low, high, f, tip, Txids(back));
  }

  /** And removing them leaves the rows in front. */
  lemma RowsInFront(low: seq<TransactionData>, high: seq<TransactionData>, front: seq<Pending>, back: seq<Pending>,
                    f: int, tip: int)
    requires RowsOf(low, front) && RowsOf(high, back)
    requires (forall p :: p in front ==> p.height <= f) && (forall p :: p in back ==> f < p.height <= tip)
    ensures Filter(TxOutside(f, tip), low + high) == low
  {
    LowRows(low, front, f);
    NewRows(high, back, f, tip);
    OldTransactionsAreLeft(low, high, f, tip);
  }

  lemma TransactionsCut(rows: seq<TransactionData>, front: seq<Pending>, back: seq<Pending>, f: int, tip: int,
                        out: Resolved)
    requires Bounded(rows, front + back, out)
    requires (forall p :: p in front ==> p.height <= f) && (forall p :: p in back ==> f < p.height <= tip)
    ensures TxidsIn(rows, f, tip) == Txids(back)
    ensures Filter(TxOutside(f, tip), rows) == rows[..|front|]
  {
    var low, high := rows[..|front|], rows[|front|..];
    BoundedSplit(rows, front, back, out);
    BoundedRowsOf(low, front, out);
    BoundedRowsOf(high, back, out);
    TxidsBehind(low, high, front, back, f, tip);
    RowsInFront(low, high, front, back, f, tip);
    assert low + high == rows;
  }

  lemma LowRows(rows: seq<TransactionData>, ps: seq<Pending>, f: int)
    requires RowsOf(rows, ps) && forall p :: p in ps ==> p.height <= f
    ensures forall r :: r in rows ==> r.blockHeight <= f
  {
    forall r | r in rows
      ensures r.blockHeight <= f
    {
      var i :| 0 <= i < |rows| && rows[i] == r;
      assert ps[i] in ps;
    }
  }

  /** Heights count from 0, as in a stored chain. */
  ghost predicate FromGenesis(items: seq<Item>) {
    forall i :: 0 <= i < |items| ==> items[i].height == i
  }

  lemma FrontAndBack(items: seq<Item>, f: int)
    requires FromGenesis(items) && 0 <= f < |items|
    ensures TxsOf(items) == TxsOf(items[..f + 1]) + TxsOf(items[f + 1..])
    ensures forall p :: p in TxsOf(items[..f + 1]) ==> p.height <= f
    ensures forall p :: p in TxsOf(items[f + 1..]) ==> f < p.height <= |items| - 1
  {
    assert items == items[..f + 1] + items[f + 1..];
    TxsConcat(items[..f + 1], items[f + 1..]);
    HeightsOfPending(items[..f + 1], -1, f);
    HeightsOfPending(items[f + 1..], f, |items| - 1);
  }

  /** Rolling back removes the range and sets the checkpoint. */
  lemma RolledBackRows(t: Tables, tip: int, f: int)
    requires f < tip
    ensures RolledBack(t, tip, f) == RemoveRange(t, f, tip).(checkpoint := RolledBack(t, tip, f).checkpoint)
  {
    RollbacksCompose(t, f, tip);
  }

  lemma BlocksCut(t: Tables, items: seq<Item>, tip: int, f: int)
    requires t.blocks == BlockRows(items) && FromGenesis(items) && tip == |items| - 1 && 0 <= f < tip
    ensures RemoveRange(t, f, tip).blocks == BlockRows(items[..f + 1])
  {
    ChainCut(t.blocks, f, tip);
    assert BlockRows(items)[..f + 1] == BlockRows(items[..f + 1]);
  }

  /** What rolling back leaves of blocks and transactions. */
  lemma ChainTablesCut(t: Tables, items: seq<Item>, tip: int, f: int, out: Resolved)
    requires Holds(t, items, out) && FromGenesis(items) && tip == |items| - 1 && 0 <= f < tip
    ensures var left, front, back := RemoveRange(t, f, tip), TxsOf(items[..f + 1]), TxsOf(items[f + 1..]);
            && left.blocks == BlockRows(items[..f + 1]) && TxidsIn(t.transactions, f, tip) == Txids(back)
            && |front| <= |t.transactions| && left.transactions == t.transactions[..|front|]
            && Bounded(left.transactions, front, out)
  {
    var front, back := TxsOf(items[..f + 1]), TxsOf(items[f + 1..]);
    FrontAndBack(items, f);
    TransactionsCut(t.transactions, front, back, f, tip, out);
    BoundedSplit(t.transactions, front, back, out);
    BlocksCut(t, items, tip, f);
  }

  /**
    Rolling back to height `f` leaves precisely the rows of the blocks up to `f`, if and only if
    none of those rows names a transaction of the blocks above.
    */
  lemma CutHoldsIff(t: Tables, items: seq<Item>, tip: int, f: int, out: Resolved)
    requires Holds(t, items, out) && FromGenesis(items) && tip == |items| - 1 && 0 <= f <= tip
    ensures Holds(RolledBack(t, tip, f), items[..f + 1], out) <==>
            NoneNames(TxsOf(items[..f + 1]), Txids(TxsOf(items[f + 1..])))
  {
    if f == tip {
      assert items[..f + 1] == items && items[f + 1..] == [];
      assert Txids(TxsOf([])) == {};
    } else {
      RolledBackRows(t, tip, f);
      RangeHoldsIff(t, items, tip, f, out);
    }
  }

  lemma RangeHoldsIff(t: Tables, items: seq<Item>, tip: int, f: int, out: Resolved)
    requires Holds(t, items, out) && FromGenesis(items) && tip == |items| - 1 && 0 <= f < tip
    ensures Holds(RemoveRange(t, f, tip), items[..f + 1], out) <==>
            NoneNames(TxsOf(items[..f + 1]), Txids(TxsOf(items[f + 1..])))
  {
    var front, back := TxsOf(items[..f + 1]), TxsOf(items[f + 1..]);
    ChainTablesCut(t, items, tip, f, out);
    FrontAndBack(items, f);
    OutputsCut(front, back);
    InputsCut(front, back);
    BenefitsCut(t.benefits, front, back);
    TxidsConcat(front, back);
    PerformsStayAmong(t.performs, Txids(front), Txids(back));
  }

  lemma CutHoldsTruly(t: Tables, items: seq<Item>, tip: int, f: int, k: Known)
    requires HoldsTruly(t, items, k) && FromGenesis(items) && tip == |items| - 1 && 0 <= f <= tip
    requires Txids(TxsOf(items[..f + 1])) !! Txids(TxsOf(items[f + 1..]))
    requires Holds(RolledBack(t, tip, f), items[..f + 1], k.out)
    ensures HoldsTruly(RolledBack(t, tip, f), items[..f + 1], k)
  {
    if f == tip {
      assert items[..f + 1] == items;
    } else {
      RolledBackRows(t, tip, f);
      RangeHoldsTruly(t, items, tip, f, k);
    }
  }

  lemma RangeHoldsTruly(t: Tables, items: seq<Item>, tip: int, f: int, k: Known)
    requires HoldsTruly(t, items, k) && FromGenesis(items) && tip == |items| - 1 && 0 <= f < tip
    requires Txids(TxsOf(items[..f + 1])) !! Txids(TxsOf(items[f + 1..]))
    ensures RemoveRange(t, f, tip).transactions == TxRows(TxsOf(items[..f + 1]), k.out)
    ensures k.exact ==> multiset(RemoveRange(t, f, tip).performs) == PerformsRows(TxsOf(items[..f + 1]), k.out)
  {
    var front, back := TxsOf(items[..f + 1]), TxsOf(items[f + 1..]);
    ChainTablesCut(t, items, tip, f, k.out);
    FrontAndBack(items, f);
    FirstRows(front, back, k.out);
    if k.exact {
      PerformsCut(t.performs, front, back, k.out);
    }
  }

  lemma FirstRows(front: seq<Pending>, back: seq<Pending>, out: Resolved)
    ensures TxRows(front + back, out)[..|front|] == TxRows(front, out)
  {
    TxRowsConcat(front, back, out);
  }

  // ------------------------------------------------------------------
  // Whole runs
  // ------------------------------------------------------------------

  /** No two stored transactions have the same txid. */
  ghost predicate DistinctTxids(t: Tables) {
    forall i, j :: 0 <= i < j < |t.transactions| ==> t.transactions[i].txid != t.transactions[j].txid
  }

  lemma DistinctParts(t: Tables, front: seq<Pending>, back: seq<Pending>, out: Resolved)
    requires Bounded(t.transactions, front + back, out) && DistinctTxids(t)
    ensures Txids(front) !! Txids(back)
  {
    BoundedRowsOf(t.transactions, front + back, out);
    forall x | x in Txids(front)
      ensures x !in Txids(back)
    {
      var i :| 0 <= i < |front| && front[i].tx.txid == x;
      assert (front + back)[i] == front[i];
      forall j | 0 <= j < |back|
        ensures back[j].tx.txid != x
      {
        assert (front + back)[|front| + j] == back[j];
        assert t.transactions[i].txid != t.transactions[|front| + j].txid;
      }
    }
  }

  /** The tables hold the rows of the stored chain, and no others. */
  ghost predicate OfItsChain(t: Tables, k: Known) {
    exists items :: FromGenesis(items) && Holds(t, items, k.out)
  }

  /** And they are the true ones. */
  ghost predicate TrulyOfItsChain(t: Tables, k: Known) {
    exists items :: FromGenesis(items) && HoldsTruly(t, items, k)
  }

  lemma ItsChain(t: Tables, items: seq<Item>, k: Known)
    requires FromGenesis(items) && Holds(t, items, k.out)
    ensures OfItsChain(t, k)
  {
  }

  lemma TrulyItsChain(t: Tables, items: seq<Item>, k: Known)
    requires FromGenesis(items) && HoldsTruly(t, items, k)
    ensures TrulyOfItsChain(t, k)
  {
  }

  lemma GenesisMore(items: seq<Item>, item: Item)
    requires FromGenesis(items) && item.height == |items|
    ensures FromGenesis(items + [item])
  {
  }

  lemma GenesisLess(items: seq<Item>, n: nat)
    requires FromGenesis(items) && n <= |items|
    ensures FromGenesis(items[..n])
  {
  }

  lemma UpKeeps(a: Tables, b: Tables, item: Item, k: Known)
    requires ChunkDone(a, b, [item], k.caps, k.out, k.exact) && item.height == |a.blocks| && OfItsChain(a, k)
    ensures OfItsChain(b, k)
  {
    var items :| FromGenesis(items) && Holds(a, items, k.out);
    var more := items + [item];
    GenesisMore(items, item);
    UpHolds(a, b, items, item, k);
    ItsChain(b, more, k);
  }

  lemma UpKeepsTruly(a: Tables, b: Tables, item: Item, k: Known)
    requires ChunkDone(a, b, [item], k.caps, k.out, k.exact) && item.height == |a.blocks|
    requires TrulyOfItsChain(a, k) && FindsInputs(k.caps, a.outputs, [item])
    ensures TrulyOfItsChain(b, k)
  {
    var items :| FromGenesis(items) && HoldsTruly(a, items, k);
    var more := items + [item];
    GenesisMore(items, item);
    UpHoldsTruly(a, b, items, item, k);
    TrulyItsChain(b, more, k);
  }

  lemma BackKeeps(a: Tables, tip: int, f: int, k: Known)
    requires DistinctTxids(a) && tip == |a.blocks| - 1 && 0 <= f <= tip && OfItsChain(a, k)
    ensures OfItsChain(RolledBack(a, tip, f), k)
  {
    var items :| FromGenesis(items) && Holds(a, items, k.out);
    var less := items[..f + 1];
    GenesisLess(items, f + 1);
    BackHolds(a, items, tip, f, k);
    ItsChain(RolledBack(a, tip, f), less, k);
  }

  lemma BackKeepsTruly(a: Tables, tip: int, f: int, k: Known)
    requires DistinctTxids(a) && tip == |a.blocks| - 1 && 0 <= f <= tip && TrulyOfItsChain(a, k)
    ensures TrulyOfItsChain(RolledBack(a, tip, f), k)
  {
    var items :| FromGenesis(items) && HoldsTruly(a, items, k);
    var less := items[..f + 1];
    GenesisLess(items, f + 1);
    BackHolds(a, items, tip, f, k);
    TrulyItsChain(RolledBack(a, tip, f), less, k);
  }

  lemma BackHolds(a: Tables, items: seq<Item>, tip: int, f: int, k: Known)
    requires FromGenesis(items) && Holds(a, items, k.out) && DistinctTxids(a) && tip == |items| - 1 && 0 <= f <= tip
    ensures Holds(RolledBack(a, tip, f), items[..f + 1], k.out)
    ensures HoldsTruly(a, items, k) ==> HoldsTruly(RolledBack(a, tip, f), items[..f + 1], k)
  {
    var front, back := TxsOf(items[..f + 1]), TxsOf(items[f + 1..]);
    FrontAndBack(items, f);
    DistinctParts(a, front, back, k.out);
    DistinctNamesNone(front, back);
    CutHoldsIff(a, items, tip, f, k.out);
    if HoldsTruly(a, items, k) {
      CutHoldsTruly(a, items, tip, f, k);
    }
  }

  /** A step finds what it spends: going back always does. */
  ghost predicate StepFinds(a: Tables, env: Env, round: nat, call: nat, move: Move, k: Known) {
    move.Up? && |a.blocks| < |env(round, call)| < 0x1_0000_0000 ==>
      FindsInputs(k.caps, a.outputs, [ItemAt(env(round, call), |a.blocks|)])
  }

  lemma UpIs(a: Tables, b: Tables, env: Env, round: nat, call: nat, k: Known) returns (item: Item)
    requires StepOn(a, b, env, round, call, Up, k)
    ensures |a.blocks| < |env(round, call)| < 0x1_0000_0000 && item == ItemAt(env(round, call), |a.blocks|)
    ensures ChunkDone(a, b, [item], k.caps, k.out, k.exact) && item.height == |a.blocks|
  {
    item := ItemAt(env(round, call), |a.blocks|);
  }

  lemma BackIs(a: Tables, b: Tables, env: Env, round: nat, call: nat, depth: nat, k: Known) returns (tip: int, f: int)
    requires StepOn(a, b, env, round, call, Back(depth), k)
    ensures tip == |a.blocks| - 1 && 0 <= f <= tip && b == RolledBack(a, tip, f)
  {
    tip, f := |a.blocks| - 1, |a.blocks| - 1 - depth;
  }

  lemma UpStepKeeps(a: Tables, b: Tables, env: Env, round: nat, call: nat, k: Known)
    requires StepOn(a, b, env, round, call, Up, k)
    ensures OfItsChain(b, k) || !OfItsChain(a, k)
    ensures TrulyOfItsChain(b, k) || !TrulyOfItsChain(a, k) || !StepFinds(a, env, round, call, Up, k)
  {
    var item := UpIs(a, b, env, round, call, k);
    if OfItsChain(a, k) {
      UpKeeps(a, b, item, k);
    }
    if TrulyOfItsChain(a, k) && FindsInputs(k.caps, a.outputs, [item]) {
      UpKeepsTruly(a, b, item, k);
    }
  }

  lemma BackStepKeeps(a: Tables, b: Tables, env: Env, round: nat, call: nat, depth: nat, k: Known)
    requires StepOn(a, b, env, round, call, Back(depth), k) && DistinctTxids(a)
    ensures OfItsChain(b, k) || !OfItsChain(a, k)
    ensures TrulyOfItsChain(b, k) || !TrulyOfItsChain(a, k)
  {
    var tip, f := BackIs(a, b, env, round, call, depth, k);
    if OfItsChain(a, k) {
      BackKeeps(a, tip, f, k);
    }
    if TrulyOfItsChain(a, k) {
      BackKeepsTruly(a, tip, f, k);
    }
  }

  /** From `a` to `b` the tables stay those of their chain. */
  ghost predicate Keeps(a: Tables, b: Tables, k: Known) {
    OfItsChain(b, k) || !OfItsChain(a, k)
  }

  ghost predicate KeepsTruth(a: Tables, b: Tables, k: Known) {
    TrulyOfItsChain(b, k) || !TrulyOfItsChain(a, k)
  }

  /** One step of a live run. */
  lemma StepKeeps(a: Tables, b: Tables, env: Env, round: nat, call: nat, move: Move, k: Known)
    requires StepOn(a, b, env, round, call, move, k) && DistinctTxids(a)
    ensures Keeps(a, b, k)
    ensures KeepsTruth(a, b, k) || !StepFinds(a, env, round, call, move, k)
  {
    if move.Up? {
      UpStepKeeps(a, b, env, round, call, k);
    } else {
      BackStepKeeps(a, b, env, round, call, move.depth, k);
    }
  }

  /** Every step of a round finds what it spends. */
  ghost predicate RunFinds(run: Run, env: Env, round: nat, k: Known)
    requires |run.states| == |run.moves| + 1
  {
    forall i :: 0 <= i < |run.moves| ==> StepFinds(run.states[i], env, round, i + 1, run.moves[i], k)
  }

  /** No stored chain of a round repeats a txid. */
  ghost predicate RunDistinct(run: Run) {
    forall t :: t in run.states ==> DistinctTxids(t)
  }

  lemma {:induction false} AlongStates(states: seq<Tables>, k: Known, i: nat)
    requires i < |states| && forall j {:trigger states[j]} :: 0 <= j < i ==> Keeps(states[j], states[j + 1], k)
    ensures Keeps(states[0], states[i], k)
  {
    if i > 0 {
      var j := i - 1;
      AlongStates(states, k, j);
      assert Keeps(states[j], states[j + 1], k);
    }
  }

  lemma {:induction false} TruthAlongStates(states: seq<Tables>, k: Known, i: nat)
    requires i < |states| && forall j {:trigger states[j]} :: 0 <= j < i ==> KeepsTruth(states[j], states[j + 1], k)
    ensures KeepsTruth(states[0], states[i], k)
  {
    if i > 0 {
      var j := i - 1;
      TruthAlongStates(states, k, j);
      assert KeepsTruth(states[j], states[j + 1], k);
    }
  }

  /** A whole round. */
  lemma RoundKeeps(run: Run, env: Env, round: nat, maxHeight: int, k: Known)
    requires Legal(run, env, round, maxHeight, k) && RunDistinct(run)
    ensures Keeps(run.states[0], Last(run), k)
    ensures KeepsTruth(run.states[0], Last(run), k) || !RunFinds(run, env, round, k)
  {
    forall j {:trigger run.states[j]} | 0 <= j < |run.moves|
      ensures Keeps(run.states[j], run.states[j + 1], k)
      ensures KeepsTruth(run.states[j], run.states[j + 1], k) || !RunFinds(run, env, round, k)
    {
      StepInRound(run, env, round, maxHeight, k, j);
    }
    AlongRun(run, k);
    if RunFinds(run, env, round, k) {
      TruthAlongRun(run, k);
    }
  }

  lemma AlongRun(run: Run, k: Known)
    requires |run.states| == |run.moves| + 1
    requires forall j {:trigger run.states[j]} :: 0 <= j < |run.moves| ==> Keeps(run.states[j], run.states[j + 1], k)
    ensures Keeps(run.states[0], Last(run), k)
  {
    AlongStates(run.states, k, |run.states| - 1);
  }

  lemma TruthAlongRun(run: Run, k: Known)
    requires |run.states| == |run.moves| + 1
    requires forall j {:trigger run.states[j]} :: 0 <= j < |run.moves| ==>
               KeepsTruth(run.states[j], run.states[j + 1], k)
    ensures KeepsTruth(run.states[0], Last(run), k)
  {
    TruthAlongStates(run.states, k, |run.states| - 1);
  }

  lemma StepInRound(run: Run, env: Env, round: nat, maxHeight: int, k: Known, j: nat)
    requires Legal(run, env, round, maxHeight, k) && RunDistinct(run) && j < |run.moves|
    ensures Keeps(run.states[j], run.states[j + 1], k)
    ensures KeepsTruth(run.states[j], run.states[j + 1], k) || !RunFinds(run, env, round, k)
  {
    assert StepOn(run.states[j], run.states[j + 1], env, round, j + 1, run.moves[j], k);
    StepKeeps(run.states[j], run.states[j + 1], env, round, j + 1, run.moves[j], k);
  }

  ghost predicate AllDistinct(runs: seq<Run>) {
    forall q :: 0 <= q < |runs| ==> RunDistinct(runs[q])
  }

  ghost predicate AllFind(runs: seq<Run>, env: Env, k: Known) {
    forall q :: 0 <= q < |runs| ==> |runs[q].states| == |runs[q].moves| + 1 && RunFinds(runs[q], env, q, k)
  }

  lemma AfterMore(runs: seq<Run>, first: Tables, j: nat)
    requires Linked(runs, first) && j < |runs|
    ensures runs[j].states != [] && runs[j].states[0] == if j == 0 then first else Last(runs[j - 1])
  {
    assert j > 0 ==> runs[..j][j - 1] == runs[j - 1];
  }

  /** Round after round, up to the start of round `q`. */
  lemma {:induction false} RoundsKeep(runs: seq<Run>, first: Tables, k: Known, q: nat)
    requires Linked(runs, first) && q < |runs|
    requires forall p {:trigger runs[p]} :: 0 <= p < q ==>
               runs[p].states != [] && Keeps(runs[p].states[0], Last(runs[p]), k)
    ensures Keeps(first, runs[q].states[0], k)
  {
    AfterMore(runs, first, q);
    if q > 0 {
      var p := q - 1;
      RoundsKeep(runs, first, k, p);
      assert Keeps(runs[p].states[0], Last(runs[p]), k);
    }
  }

  lemma {:induction false} RoundsKeepTruth(runs: seq<Run>, first: Tables, k: Known, q: nat)
    requires Linked(runs, first) && q < |runs|
    requires forall p {:trigger runs[p]} :: 0 <= p < q ==>
               runs[p].states != [] && KeepsTruth(runs[p].states[0], Last(runs[p]), k)
    ensures KeepsTruth(first, runs[q].states[0], k)
  {
    AfterMore(runs, first, q);
    if q > 0 {
      var p := q - 1;
      RoundsKeepTruth(runs, first, k, p);
      assert KeepsTruth(runs[p].states[0], Last(runs[p]), k);
    }
  }

  lemma OneRoundKeeps(runs: seq<Run>, env: Env, maxHeight: int, k: Known, p: nat)
    requires AllLegal(runs, env, maxHeight, k) && AllDistinct(runs) && p < |runs|
    ensures runs[p].states != [] && Keeps(runs[p].states[0], Last(runs[p]), k)
    ensures KeepsTruth(runs[p].states[0], Last(runs[p]), k) || !AllFind(runs, env, k)
  {
    RoundKeeps(runs[p], env, p, maxHeight, k);
  }

  lemma ToTheEnd(runs: seq<Run>, first: Tables, k: Known)
    requires Linked(runs, first)
    requires forall p {:trigger runs[p]} :: 0 <= p < |runs| ==>
               runs[p].states != [] && Keeps(runs[p].states[0], Last(runs[p]), k)
    ensures Keeps(first, After(runs, first), k)
  {
    if runs != [] {
      var q := |runs| - 1;
      RoundsKeep(runs, first, k, q);
      assert Keeps(runs[q].states[0], Last(runs[q]), k);
    }
  }

  lemma TruthToTheEnd(runs: seq<Run>, first: Tables, k: Known)
    requires Linked(runs, first)
    requires forall p {:trigger runs[p]} :: 0 <= p < |runs| ==>
               runs[p].states != [] && KeepsTruth(runs[p].states[0], Last(runs[p]), k)
    ensures KeepsTruth(first, After(runs, first), k)
  {
    if runs != [] {
      var q := |runs| - 1;
      RoundsKeepTruth(runs, first, k, q);
      assert KeepsTruth(runs[q].states[0], Last(runs[q]), k);
    }
  }

  /**
    Over a whole live run in which no stored chain repeats a txid: whatever was added and rolled
    back, the six tables are those of ingesting the stored chain into an empty store, if they were
    at the start; and they are the true ones, if they were and every block found what it spends.
    */
  lemma LiveRunKeepsTables(runs: seq<Run>, first: Tables, env: Env, maxHeight: int, k: Known)
    requires Rounds(runs, first, env, maxHeight, k) && AllDistinct(runs)
    ensures OfItsChain(After(runs, first), k) || !OfItsChain(first, k)
    ensures TrulyOfItsChain(After(runs, first), k) || !TrulyOfItsChain(first, k) || !AllFind(runs, env, k)
  {
    forall p {:trigger runs[p]} | 0 <= p < |runs|
      ensures runs[p].states != [] && Keeps(runs[p].states[0], Last(runs[p]), k)
      ensures KeepsTruth(runs[p].states[0], Last(runs[p]), k) || !AllFind(runs, env, k)
    {
      OneRoundKeeps(runs, env, maxHeight, k, p);
    }
    ToTheEnd(runs, first, k);
    if AllFind(runs, env, k) {
      TruthToTheEnd(runs, first, k);
    }
  }
}
