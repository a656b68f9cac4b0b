/**
  What ingesting blocks does to the store: block by block, or a chunk at a time
  with each phase run over the whole chunk.
  */
module Refinement {
  import opened Types
  import opened Chain
  import opened Aggregation
  import opened Writer

  datatype Mark = Mark(height: int, hash: string, file: string)

  /**
    The store up to the order of PERFORMS and BENEFITS_TO rows, which comes out of
    a hash map, and up to the file offset in the checkpoint.
    */
  datatype View = View(blocks: seq<BlockData>, transactions: seq<TransactionData>, outputs: seq<OutputData>,
                       inputs: seq<InputData>, performs: multiset<PerformsData>, benefits: multiset<BenefitsToData>,
                       mark: Option<Mark>)

  function ViewOf(t: Tables): View {
    View(t.blocks, t.transactions, t.outputs, t.inputs, multiset(t.performs), multiset(t.benefits),
         match t.checkpoint
         case None => None
         case Some(c) => Some(Mark(c.height, c.hash, c.file)))
  }

  function MarkOf(item: Item): Mark {
    Mark(item.height, item.block.hash, item.file)
  }

  /** All phases over a list of blocks at once, with inputs resolved through `m`. */
  function Ingested(v: View, items: seq<Item>, m: Resolved): View {
    var ps := TxsOf(items);
    View(v.blocks + BlockRows(items), v.transactions + TxRows(ps, m), v.outputs + OutputRows(ps),
         v.inputs + InputRows(ps),
         v.performs + PerformsRows(ps, m), v.benefits + BenefitsRows(ps),
         if items == [] then v.mark else Some(MarkOf(items[|items| - 1])))
  }

  /** One block after the other. */
  function Sequential(v: View, items: seq<Item>, out: Resolved): View {
    if items == [] then v
    else Ingested(Sequential(v, items[..|items| - 1], out), [items[|items| - 1]], out)
  }

  lemma IngestedConcat(v: View, a: seq<Item>, b: seq<Item>, m: Resolved)
    ensures Ingested(Ingested(v, a, m), b, m) == Ingested(v, a + b, m)
  {
    var pa, pb := TxsOf(a), TxsOf(b);
    TxsConcat(a, b);
    BlockRowsConcat(a, b);
    OutputsConcat(pa, pb);
    InputsConcat(pa, pb);
    TxRowsConcat(pa, pb, m);
    PerformsConcat(pa, pb, m);
    BenefitsConcat(pa, pb);
    Assoc(v.blocks, BlockRows(a), BlockRows(b));
    Assoc(v.transactions, TxRows(pa, m), TxRows(pb, m));
    Assoc(v.outputs, OutputRows(pa), OutputRows(pb));
    Assoc(v.inputs, InputRows(pa), InputRows(pb));
    BagAssoc(v.performs, PerformsRows(pa, m), PerformsRows(pb, m));
    BagAssoc(v.benefits, BenefitsRows(pa), BenefitsRows(pb));
    if b == [] {
      assert a + b == a;
    }
  }

  lemma IngestedNothing(v: View, m: Resolved)
    ensures Ingested(v, [], m) == v
  {
  }

  /** Running the phases over a whole list equals running the blocks one by one. */
  lemma {:induction false} PhasesCommuteWithBlocks(v: View, items: seq<Item>, out: Resolved)
    ensures Ingested(v, items, out) == Sequential(v, items, out)
  {
    if items == [] {
      IngestedNothing(v, out);
    } else {
      var before, item := items[..|items| - 1], items[|items| - 1];
      assert items == before + [item];
      PhasesCommuteWithBlocks(v, before, out);
      IngestedConcat(v, before, [item], out);
    }
  }

  /** Block-by-block ingestion can stop and start anywhere. */
  lemma SequentialConcat(v: View, a: seq<Item>, b: seq<Item>, out: Resolved)
    ensures Sequential(Sequential(v, a, out), b, out) == Sequential(v, a + b, out)
  {
    PhasesCommuteWithBlocks(v, a, out);
    PhasesCommuteWithBlocks(Sequential(v, a, out), b, out);
    PhasesCommuteWithBlocks(v, a + b, out);
    IngestedConcat(v, a, b, out);
  }

  // ------------------------------------------------------------------
  // Tables after a run of the phases
  // ------------------------------------------------------------------

  function CheckpointFor(item: Item, offset: Option<nat>): Checkpoint {
    Checkpoint(item.height, item.block.hash, item.file, offset)
  }

  /** `t` is `t0` after all phases over `items`, with inputs resolved through `m`. */
  ghost predicate Exactly(t0: Tables, t: Tables, items: seq<Item>, m: Resolved) {
    var ps := TxsOf(items);
    && t.blocks == t0.blocks + BlockRows(items)
    && t.transactions == t0.transactions + TxRows(ps, m)
    && t.outputs == t0.outputs + OutputRows(ps)
    && t.inputs == t0.inputs + InputRows(ps)
    && t0.performs <= t.performs && multiset(t.performs) == multiset(t0.performs) + PerformsRows(ps, m)
    && t0.benefits <= t.benefits && multiset(t.benefits) == multiset(t0.benefits) + BenefitsRows(ps)
    && items != []
    && t.checkpoint.Some?
    && Mark(t.checkpoint.value.height, t.checkpoint.value.hash, t.checkpoint.value.file) == MarkOf(items[|items| - 1])
  }

  lemma ExactlyIsIngested(t0: Tables, t: Tables, items: seq<Item>, m: Resolved)
    requires Exactly(t0, t, items, m)
    ensures ViewOf(t) == Ingested(ViewOf(t0), items, m)
  {
  }

  function Txids(ps: seq<Pending>): set<Txid> {
    set p | p in ps :: p.tx.txid
  }

  /**
    What holds of the tables however the inputs were resolved: every row but the
    amounts is determined, and no input total exceeds the true one.
    */
  ghost predicate Grows(t0: Tables, t: Tables, items: seq<Item>, out: Resolved) {
    var ps := TxsOf(items);
    && GrowsRows(t0, t, items)
    && t0.transactions <= t.transactions && Bounded(t.transactions[|t0.transactions|..], ps, out)
    && t0.performs <= t.performs && PerformsAmong(t.performs[|t0.performs|..], Txids(ps))
    && t0.benefits <= t.benefits && BenefitsAmong(t.benefits[|t0.benefits|..], Txids(ps))
  }

  /** The part that does not depend on input amounts. */
  ghost predicate GrowsRows(t0: Tables, t: Tables, items: seq<Item>) {
    var ps := TxsOf(items);
    && t.blocks == t0.blocks + BlockRows(items)
    && t.outputs == t0.outputs + OutputRows(ps)
    && t.inputs == t0.inputs + InputRows(ps)
    && multiset(t.benefits) == multiset(t0.benefits) + BenefitsRows(ps)
    && (if items == [] then t.checkpoint == t0.checkpoint
        else
          && t.checkpoint.Some?
          && Mark(t.checkpoint.value.height, t.checkpoint.value.hash, t.checkpoint.value.file) ==
            MarkOf(items[|items| - 1]))
  }

  ghost predicate PerformsAmong(rows: seq<PerformsData>, txids: set<Txid>) {
    forall r :: r in rows ==> r.toTxid in txids
  }

  ghost predicate BenefitsAmong(rows: seq<BenefitsToData>, txids: set<Txid>) {
    forall r :: r in rows ==> r.fromTxid in txids
  }

  lemma {:induction false} PerformsName(ps: seq<Pending>, m: Resolved, r: PerformsData)
    requires r in PerformsRows(ps, m)
    ensures r.toTxid in Txids(ps)
  {
    var before, p := ps[..|ps| - 1], ps[|ps| - 1];
    assert p in ps && forall q :: q in before ==> q in ps;
    if r in PerformsRows(before, m) {
      PerformsName(before, m, r);
    } else {
      assert r in PerformsSet(p.tx.txid, Group(TxInCredits(p.tx, m)));
    }
  }

  lemma {:induction false} BenefitsName(ps: seq<Pending>, r: BenefitsToData)
    requires r in BenefitsRows(ps)
    ensures r.fromTxid in Txids(ps)
  {
    var before, p := ps[..|ps| - 1], ps[|ps| - 1];
    assert p in ps && forall q :: q in before ==> q in ps;
    if r in BenefitsRows(before) {
      BenefitsName(before, r);
    } else {
      assert r in BenefitsSet(p.tx.txid, Group(TxOutCredits(p.tx)));
    }
  }

  /** Rows appended to a list are the ones its multiset gained. */
  lemma AppendedRows<T>(xs: seq<T>, ys: seq<T>, added: multiset<T>)
    requires xs <= ys && multiset(ys) == multiset(xs) + added
    ensures multiset(ys[|xs|..]) == added
  {
    assert ys == xs + ys[|xs|..];
    assert multiset(ys) == multiset(xs) + multiset(ys[|xs|..]);
    assert added == multiset(ys) - multiset(xs);
  }

  lemma ExactlyGrows(t0: Tables, t: Tables, items: seq<Item>, m: Resolved, out: Resolved)
    requires Exactly(t0, t, items, m) && Sound(m, out, false)
    ensures Grows(t0, t, items, out)
  {
    var ps := TxsOf(items);
    RowsAreBounded(ps, m, out);
    assert t.transactions[|t0.transactions|..] == TxRows(ps, m);
    AppendedRows(t0.performs, t.performs, PerformsRows(ps, m));
    AppendedRows(t0.benefits, t.benefits, BenefitsRows(ps));
    forall r | r in t.performs[|t0.performs|..]
      ensures r.toTxid in Txids(ps)
    {
      assert r in multiset(t.performs[|t0.performs|..]);
      PerformsName(ps, m, r);
    }
    forall r | r in t.benefits[|t0.benefits|..]
      ensures r.fromTxid in Txids(ps)
    {
      assert r in multiset(t.benefits[|t0.benefits|..]);
      BenefitsName(ps, r);
    }
  }

  lemma GrowsNothing(t: Tables, out: Resolved)
    ensures Grows(t, t, [], out)
  {
  }

  lemma GrowsTransitive(t0: Tables, t1: Tables, t2: Tables, a: seq<Item>, b: seq<Item>, out: Resolved)
    requires Grows(t0, t1, a, out) && Grows(t1, t2, b, out)
    ensures Grows(t0, t2, a + b, out)
  {
    var pa, pb := TxsOf(a), TxsOf(b);
    GrowsRowsTransitive(t0, t1, t2, a, b);
    TxsConcat(a, b);
    TailOfTail(t0.transactions, t1.transactions, t2.transactions);
    BoundedConcat(t1.transactions[|t0.transactions|..], t2.transactions[|t1.transactions|..], pa, pb, out);
    TailOfTail(t0.performs, t1.performs, t2.performs);
    TailOfTail(t0.benefits, t1.benefits, t2.benefits);
    assert Txids(pa + pb) == Txids(pa) + Txids(pb);
  }

  lemma GrowsRowsTransitive(t0: Tables, t1: Tables, t2: Tables, a: seq<Item>, b: seq<Item>)
    requires GrowsRows(t0, t1, a) && GrowsRows(t1, t2, b)
    ensures GrowsRows(t0, t2, a + b)
  {
    var pa, pb := TxsOf(a), TxsOf(b);
    TxsConcat(a, b);
    BlockRowsConcat(a, b);
    OutputsConcat(pa, pb);
    InputsConcat(pa, pb);
    BenefitsConcat(pa, pb);
    Assoc(t0.blocks, BlockRows(a), BlockRows(b));
    Assoc(t0.outputs, OutputRows(pa), OutputRows(pb));
    Assoc(t0.inputs, InputRows(pa), InputRows(pb));
    BagAssoc(multiset(t0.benefits), BenefitsRows(pa), BenefitsRows(pb));
    if b == [] {
      assert a + b == a;
    }
  }

  lemma TailOfTail<T>(a: seq<T>, b: seq<T>, c: seq<T>)
    requires a <= b <= c
    ensures a <= c && c[|a|..] == b[|a|..] + c[|b|..]
  {
  }

  lemma BoundedConcat(ra: seq<TransactionData>, rb: seq<TransactionData>, pa: seq<Pending>, pb: seq<Pending>,
                      out: Resolved)
    requires Bounded(ra, pa, out) && Bounded(rb, pb, out)
    ensures Bounded(ra + rb, pa + pb, out)
  {
  }
}
