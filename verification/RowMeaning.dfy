/**
  What every row says, read off the blocks: each statement is about a transaction's own inputs
  and outputs, by position, and about what the inputs were resolved to.
  */
module RowMeaning {
  import opened Types
  import opened Chain
  import opened Aggregation
  import opened Refinement
  import opened Ingestion
  import opened Lru
  import opened Coherence
  import opened Prewarming

  // ------------------------------------------------------------------
  // Inputs and outputs by position
  // ------------------------------------------------------------------

  /** Input `i` spends an output that was found and belongs to `a`. */
  predicate InputFrom(tx: Tx, i: nat, m: Resolved, a: Address)
    requires i < |tx.inputs|
  {
    && !IsCoinbase(tx) && tx.inputs[i].previousOutput in m
    && m[tx.inputs[i].previousOutput].address == Some(a)
  }

  function InputsFrom(tx: Tx, n: nat, m: Resolved, a: Address): set<nat>
    requires n <= |tx.inputs|
  {
    set i | 0 <= i < n && InputFrom(tx, i, m, a)
  }

  /** What the first `n` inputs spend of what belongs to `a`. */
  function SpentFrom(tx: Tx, n: nat, m: Resolved, a: Address): nat
    requires n <= |tx.inputs|
  {
    if n == 0 then 0
    else
      SpentFrom(tx, n - 1, m, a)
      + if InputFrom(tx, n - 1, m, a) then m[tx.inputs[n - 1].previousOutput].amount else 0
  }

  /** What the first `n` inputs spend of what was found. */
  function Spent(tx: Tx, n: nat, m: Resolved): nat
    requires n <= |tx.inputs|
  {
    if n == 0 || IsCoinbase(tx) then 0
    else
      var k := tx.inputs[n - 1].previousOutput;
      Spent(tx, n - 1, m) + if k in m then m[k].amount else 0
  }

  function OutputsTo(tx: Tx, n: nat, a: Address): set<nat>
    requires n <= |tx.outputs|
  {
    set i | 0 <= i < n && tx.outputs[i].address == Some(a)
  }

  function PaidTo(tx: Tx, n: nat, a: Address): nat
    requires n <= |tx.outputs|
  {
    if n == 0 then 0
    else PaidTo(tx, n - 1, a) + if tx.outputs[n - 1].address == Some(a) then tx.outputs[n - 1].value else 0
  }

  function Paid(tx: Tx, n: nat): nat
    requires n <= |tx.outputs|
  {
    if n == 0 then 0 else Paid(tx, n - 1) + tx.outputs[n - 1].value
  }

  // ------------------------------------------------------------------
  // PERFORMS and BENEFITS_TO
  // ------------------------------------------------------------------

  lemma {:induction false} SnocCredit(cs: seq<Credit>, c: Credit, who: Option<Address>)
    ensures SumFor(cs + [c], who) == if c.address == who then Plus(SumFor(cs, who), One(c)) else SumFor(cs, who)
    ensures Sum(cs + [c]) == Plus(Sum(cs), One(c))
  {
    assert (cs + [c])[..|cs|] == cs;
  }

  lemma OneMorePosition(s: set<nat>, t: set<nat>, n: nat, extra: bool)
    requires t == if extra then s + {n} else s
    requires n !in s
    ensures |t| == |s| + if extra then 1 else 0
  {
  }

  /** The credits of one address among the first `n` inputs. */
  lemma {:induction false} InputCreditsMean(tx: Tx, n: nat, m: Resolved, a: Address)
    requires n <= |tx.inputs| && !IsCoinbase(tx)
    ensures SumFor(InputCredits(Outpoints(tx.inputs)[..n], m), Some(a)) ==
            Total(|InputsFrom(tx, n, m, a)|, SpentFrom(tx, n, m, a))
    ensures Sum(InputCredits(Outpoints(tx.inputs)[..n], m)).amount == Spent(tx, n, m)
  {
    if n > 0 {
      var keys := Outpoints(tx.inputs);
      var k := keys[n - 1];
      assert keys[..n][..n - 1] == keys[..n - 1];
      InputCreditsMean(tx, n - 1, m, a);
      OneMorePosition(InputsFrom(tx, n - 1, m, a), InputsFrom(tx, n, m, a), n - 1, InputFrom(tx, n - 1, m, a));
      if k in m {
        SnocCredit(InputCredits(keys[..n - 1], m), Credit(m[k].address, m[k].amount), Some(a));
      }
    }
  }

  lemma TxInCreditsMean(tx: Tx, m: Resolved, a: Address)
    ensures SumFor(TxInCredits(tx, m), Some(a)) ==
            Total(|InputsFrom(tx, |tx.inputs|, m, a)|, SpentFrom(tx, |tx.inputs|, m, a))
    ensures Sum(TxInCredits(tx, m)).amount == Spent(tx, |tx.inputs|, m)
  {
    if IsCoinbase(tx) {
      CoinbaseSpendsNothing(tx, |tx.inputs|, m, a);
    } else {
      InputCreditsMean(tx, |tx.inputs|, m, a);
      assert Outpoints(tx.inputs)[..|tx.inputs|] == Outpoints(tx.inputs);
    }
  }

  lemma {:induction false} CoinbaseSpendsNothing(tx: Tx, n: nat, m: Resolved, a: Address)
    requires n <= |tx.inputs| && IsCoinbase(tx)
    ensures InputsFrom(tx, n, m, a) == {} && SpentFrom(tx, n, m, a) == 0
  {
    if n > 0 {
      CoinbaseSpendsNothing(tx, n - 1, m, a);
    }
  }

  lemma OneMoreOutput(tx: Tx, n: nat, a: Address)
    requires n < |tx.outputs|
    ensures |OutputsTo(tx, n + 1, a)| == |OutputsTo(tx, n, a)| + if tx.outputs[n].address == Some(a) then 1 else 0
  {
    OneMorePosition(OutputsTo(tx, n, a), OutputsTo(tx, n + 1, a), n, tx.outputs[n].address == Some(a));
  }

  lemma {:induction false} OutputCreditsMean(tx: Tx, n: nat, a: Address)
    requires n <= |tx.outputs|
    ensures SumFor(OutputCredits(tx, n), Some(a)) == Total(|OutputsTo(tx, n, a)|, PaidTo(tx, n, a))
    ensures Sum(OutputCredits(tx, n)).amount == Paid(tx, n)
  {
    if n > 0 {
      var o, cs := tx.outputs[n - 1], OutputCredits(tx, n - 1);
      OutputCreditsMean(tx, n - 1, a);
      OneMoreOutput(tx, n - 1, a);
      assert OutputCredits(tx, n) == cs + [Credit(o.address, o.value)];
      SnocCredit(cs, Credit(o.address, o.value), Some(a));
    }
  }

  /** The row says that its address spent through so many inputs of the transaction, at least one, and how much. */
  ghost predicate PerformsMeans(tx: Tx, m: Resolved, r: PerformsData) {
    var s := InputsFrom(tx, |tx.inputs|, m, r.fromAddress);
    && s != {} && r == PerformsData(r.fromAddress, tx.txid, |s|, SpentFrom(tx, |tx.inputs|, m, r.fromAddress))
  }

  ghost predicate BenefitsMeans(tx: Tx, r: BenefitsToData) {
    var s := OutputsTo(tx, |tx.outputs|, r.toAddress);
    && s != {} && r == BenefitsToData(tx.txid, r.toAddress, |s|, PaidTo(tx, |tx.outputs|, r.toAddress))
  }

  /** A group exists if and only if something counts towards it. */
  lemma {:induction false} GroupIffCounted(cs: seq<Credit>, a: Address)
    ensures a in Group(cs) <==> SumFor(cs, Some(a)).count > 0
    ensures a in Group(cs) ==> Group(cs)[a] == SumFor(cs, Some(a))
  {
    GroupIsPerAddress(cs, a);
    CountedIffThere(cs, a);
  }

  lemma {:induction false} CountedIffThere(cs: seq<Credit>, a: Address)
    ensures SumFor(cs, Some(a)).count > 0 <==> exists i :: 0 <= i < |cs| && cs[i].address == Some(a)
  {
    if cs != [] {
      var before := cs[..|cs| - 1];
      CountedIffThere(before, a);
      if i :| 0 <= i < |cs| && cs[i].address == Some(a) && i < |before| {
        assert before[i].address == Some(a);
      }
      if i :| 0 <= i < |before| && before[i].address == Some(a) {
        assert cs[i].address == Some(a);
      }
    }
  }

  lemma PerformsOfOne(tx: Tx, m: Resolved, r: PerformsData)
    ensures r in PerformsSet(tx.txid, Group(TxInCredits(tx, m))) <==> PerformsMeans(tx, m, r)
  {
    TxInCreditsMean(tx, m, r.fromAddress);
    GroupIffCounted(TxInCredits(tx, m), r.fromAddress);
  }

  lemma BenefitsOfOne(tx: Tx, r: BenefitsToData)
    ensures r in BenefitsSet(tx.txid, Group(TxOutCredits(tx))) <==> BenefitsMeans(tx, r)
  {
    OutputCreditsMean(tx, |tx.outputs|, r.toAddress);
    GroupIffCounted(TxOutCredits(tx), r.toAddress);
  }

  /** How many of the transactions the row is about. */
  ghost function PerformsCount(ps: seq<Pending>, m: Resolved, r: PerformsData): nat {
    if ps == [] then 0
    else PerformsCount(ps[..|ps| - 1], m, r) + if PerformsMeans(ps[|ps| - 1].tx, m, r) then 1 else 0
  }

  ghost function BenefitsCount(ps: seq<Pending>, r: BenefitsToData): nat {
    if ps == [] then 0
    else BenefitsCount(ps[..|ps| - 1], r) + if BenefitsMeans(ps[|ps| - 1].tx, r) then 1 else 0
  }

  /** PERFORMS rows: each as often as there are transactions with inputs that say so. */
  lemma {:induction false} PerformsRowsMean(ps: seq<Pending>, m: Resolved, r: PerformsData)
    ensures PerformsRows(ps, m)[r] == PerformsCount(ps, m, r)
  {
    if ps != [] {
      PerformsRowsMean(ps[..|ps| - 1], m, r);
      PerformsOfOne(ps[|ps| - 1].tx, m, r);
    }
  }

  /** BENEFITS_TO rows: each as often as there are transactions with outputs that say so. */
  lemma {:induction false} BenefitsRowsMean(ps: seq<Pending>, r: BenefitsToData)
    ensures BenefitsRows(ps)[r] == BenefitsCount(ps, r)
  {
    if ps != [] {
      BenefitsRowsMean(ps[..|ps| - 1], r);
      BenefitsOfOne(ps[|ps| - 1].tx, r);
    }
  }

  // ------------------------------------------------------------------
  // The other tables
  // ------------------------------------------------------------------

  /** Transaction rows, in chain order: what they copy, what goes in and out, and the fee. */
  lemma TransactionRowsMean(ps: seq<Pending>, m: Resolved, i: nat)
    requires i < |ps|
    ensures |TxRows(ps, m)| == |ps|
    ensures var r, tx := TxRows(ps, m)[i], ps[i].tx;
            && r.txid == tx.txid && r.blockHeight == ps[i].height && r.blockHash == ps[i].blockHash
            && r.timestamp == ps[i].time && r.details == tx.details
            && (r.isCoinbase <==> |tx.inputs| == 1 && IsNull(tx.inputs[0].previousOutput))
            && r.totalInput == Spent(tx, |tx.inputs|, m) && r.totalOutput == Paid(tx, |tx.outputs|)
            && (r.totalInput >= r.totalOutput ==> r.fee + r.totalOutput == r.totalInput)
            && (r.totalInput < r.totalOutput ==> r.fee == 0)
  {
    TxInCreditsMean(ps[i].tx, m, []);
    OutputCreditsMean(ps[i].tx, |ps[i].tx.outputs|, []);
  }

  /** Where the transactions of a list of blocks come from, and what they know of their block. */
  lemma {:induction false} PendingMean(items: seq<Item>, b: nat, j: nat)
    requires b < |items| && j < |items[b].block.txs|
    ensures exists p :: && p in TxsOf(items) && p.tx == items[b].block.txs[j] && p.height == items[b].height
                        && p.blockHash == items[b].block.hash && p.time == items[b].block.time
  {
    var before, last := items[..|items| - 1], items[|items| - 1];
    if b < |before| {
      PendingMean(before, b, j);
      var p :| && p in TxsOf(before) && p.tx == items[b].block.txs[j] && p.height == items[b].height
               && p.blockHash == items[b].block.hash && p.time == items[b].block.time;
      assert p in TxsOf(items);
    } else {
      var p := BlockTxs(last, |last.block.txs|)[j];
      assert p in TxsOf(items);
    }
  }

  /** Block rows, in order. */
  lemma BlockRowsMean(items: seq<Item>, i: nat)
    requires i < |items|
    ensures |BlockRows(items)| == |items|
    ensures var r, b := BlockRows(items)[i], items[i].block;
            && r.height == items[i].height && r.hash == b.hash && r.previousHash == b.prevHash
            && r.timestamp == b.time && r.details == b.details && r.txCount == |b.txs|
  {
  }

  /** The row is that of output `i`, found under the transaction's id and the number cut to 32 bits. */
  ghost predicate OutputMeans(tx: Tx, i: nat, o: OutputData) {
    && i < |tx.outputs| && o.key.txid == tx.txid && o.key.vout == i % 0x1_0000_0000
    && o.amount == tx.outputs[i].value && o.script == tx.outputs[i].script
    && o.scriptType == tx.outputs[i].scriptType && o.address == tx.outputs[i].address
  }

  /** Output rows: one for every output of every transaction, and no others. */
  lemma {:induction false} OutputRowsMean(ps: seq<Pending>, o: OutputData)
    ensures o in OutputRows(ps) <==> exists p, i: nat :: p in ps && OutputMeans(p.tx, i, o)
  {
    if ps != [] {
      var before, last := ps[..|ps| - 1], ps[|ps| - 1];
      assert ps == before + [last];
      OutputRowsMean(before, o);
      TxOutputRowsMean(last.tx, o);
    }
  }

  lemma TxOutputRowsMean(tx: Tx, o: OutputData)
    ensures o in TxOutputRows(tx, |tx.outputs|) <==> exists i: nat :: OutputMeans(tx, i, o)
  {
    var rows := TxOutputRows(tx, |tx.outputs|);
    if i: nat :| OutputMeans(tx, i, o) {
      assert rows[i] == o;
    }
    if o in rows {
      var i :| 0 <= i < |rows| && rows[i] == o;
      assert OutputMeans(tx, i, o);
    }
  }

  /** And as many as there are outputs. */
  lemma {:induction false} OutputRowsCount(ps: seq<Pending>)
    ensures |OutputRows(ps)| == OutputsOf(ps) && |InputRows(ps)| == InputsOf(ps)
  {
    if ps != [] {
      OutputRowsCount(ps[..|ps| - 1]);
    }
  }

  function OutputsOf(ps: seq<Pending>): nat {
    if ps == [] then 0 else OutputsOf(ps[..|ps| - 1]) + |ps[|ps| - 1].tx.outputs|
  }

  function InputsOf(ps: seq<Pending>): nat {
    if ps == [] then 0 else InputsOf(ps[..|ps| - 1]) + |ps[|ps| - 1].tx.inputs|
  }

  ghost predicate InputMeans(p: Pending, i: nat, r: InputData) {
    && i < |p.tx.inputs| && r.txid == p.tx.txid && r.inputIndex == i && r.blockHeight == p.height
    && r.previousOutput == p.tx.inputs[i].previousOutput && r.details == p.tx.inputs[i].details
  }

  /** Input rows: one for every input of every transaction, coinbases included, and no others. */
  lemma {:induction false} InputRowsMean(ps: seq<Pending>, r: InputData)
    ensures r in InputRows(ps) <==> exists p, i: nat :: p in ps && InputMeans(p, i, r)
  {
    if ps != [] {
      var before, last := ps[..|ps| - 1], ps[|ps| - 1];
      assert ps == before + [last];
      InputRowsMean(before, r);
      TxInputRowsMean(last, r);
    }
  }

  lemma TxInputRowsMean(p: Pending, r: InputData)
    ensures r in TxInputRows(p, |p.tx.inputs|) <==> exists i: nat :: InputMeans(p, i, r)
  {
    var rows := TxInputRows(p, |p.tx.inputs|);
    if i: nat :| InputMeans(p, i, r) {
      assert rows[i] == r;
    }
    if r in rows {
      var i :| 0 <= i < |rows| && rows[i] == r;
      assert InputMeans(p, i, r);
    }
  }

  /** The outputs to look up for an input: all that are spent, none for a coinbase. */
  lemma {:induction false} SpentKeysMean(ps: seq<Pending>, k: UtxoKey)
    ensures k in SpentKeys(ps) <==>
            exists p, i :: p in ps && 0 <= i < |p.tx.inputs| && !IsCoinbase(p.tx) && p.tx.inputs[i].previousOutput == k
  {
    if ps != [] {
      var before, last := ps[..|ps| - 1], ps[|ps| - 1];
      assert ps == before + [last];
      SpentKeysMean(before, k);
      assert k in TxKeys(last.tx) <==>
             exists i :: 0 <= i < |last.tx.inputs| && !IsCoinbase(last.tx) && last.tx.inputs[i].previousOutput == k by {
        if i :| 0 <= i < |last.tx.inputs| && !IsCoinbase(last.tx) && last.tx.inputs[i].previousOutput == k {
          assert TxKeys(last.tx)[i] == k;
        }
      }
    }
  }

  /** The true outputs are those of the transactions: number, value, type and owner. */
  lemma TruthMeans(ps: seq<Pending>, out: Resolved, p: Pending, i: nat)
    requires OutputsTrue(OutputRows(ps), out) && p in ps && i < |p.tx.outputs| && i < 0x1_0000_0000
    ensures UtxoKey(p.tx.txid, i) in out
    ensures var o := out[UtxoKey(p.tx.txid, i)];
            && o.outputIndex == i && o.amount == p.tx.outputs[i].value
            && o.scriptType == p.tx.outputs[i].scriptType && o.address == p.tx.outputs[i].address
  {
    var o := OutputRow(p.tx.txid, p.tx.outputs[i], i);
    assert OutputMeans(p.tx, i, o);
    OutputRowsMean(ps, o);
  }

  /** What prewarming takes from a block has the amounts of its true outputs. */
  lemma FeedsAreTrue(feed: Feed, index: Index, classify: Classifier, out: Resolved)
    requires Feeds(feed, index, classify) && forall h :: !Loaded(index, h) ==> feed(h) == []
    requires forall h {:trigger index[h]} :: Loaded(index, h) ==>
               && (forall tx :: tx in index[h].value.txs ==> |tx.outputs| <= 0x1_0000_0000)
               && OutputsTrue(OutputRows(Pendings(index[h].value)), out)
    ensures AllTrue(feed, out)
  {
    forall h
      ensures EntriesTrue(feed(h), out, false)
    {
      if Loaded(index, h) {
        BlockEntriesAreTrue(index[h].value, classify, out);
      }
    }
  }

  lemma BlockEntriesAreTrue(b: Block, classify: Classifier, out: Resolved)
    requires forall tx :: tx in b.txs ==> |tx.outputs| <= 0x1_0000_0000
    requires OutputsTrue(OutputRows(Pendings(b)), out)
    ensures EntriesTrue(BlockEntries(b, classify), out, false)
  {
    forall e | e in BlockEntries(b, classify)
      ensures e.key in out && Matches(e.value, out[e.key], false)
    {
      BlockEntriesMean(b.txs, classify, e);
      var tx, i: nat :| tx in b.txs && EntryMeans(tx, i, classify, e);
      var j :| 0 <= j < |b.txs| && b.txs[j] == tx;
      EntryIsTrue(b, j, i, classify, e, out);
    }
  }

  lemma EntryIsTrue(b: Block, j: nat, i: nat, classify: Classifier, e: Entry, out: Resolved)
    requires j < |b.txs| && EntryMeans(b.txs[j], i, classify, e) && i < 0x1_0000_0000
    requires OutputsTrue(OutputRows(Pendings(b)), out)
    ensures e.key in out && Matches(e.value, out[e.key], false)
  {
    assert Pendings(b)[j].tx == b.txs[j];
    TruthMeans(Pendings(b), out, Pendings(b)[j], i);
  }

  function Pendings(b: Block): seq<Pending> {
    BlockTxs(Item(0, b, ""), |b.txs|)
  }

  /** The checkpoint names the block's height, hash and file. */
  lemma CheckpointMeans(item: Item, offset: Option<nat>)
    ensures var c := CheckpointFor(item, offset);
            c.height == item.height && c.hash == item.block.hash && c.file == item.file && c.offset == offset
    ensures MarkOf(item) == Mark(item.height, item.block.hash, item.file)
  {
  }

  /** The estimate counts the rows that the block's tables get. */
  lemma EstimateMeans(item: Item)
    ensures EstimateBlockMemory(item.block) ==
            3500 + 3000 * |TxsOf([item])| + 3500 * |OutputRows(TxsOf([item]))| + 2500 * |InputRows(TxsOf([item]))|
  {
    var txs := item.block.txs;
    assert [item][..0] == [] && TxsOf([item]) == BlockTxs(item, |txs|);
    OutputRowsCount(TxsOf([item]));
    CountsAgree(item, |txs|);
    assert txs[..|txs|] == txs;
  }

  lemma {:induction false} CountsAgree(item: Item, n: nat)
    requires n <= |item.block.txs|
    ensures CountOutputs(item.block.txs[..n]) == OutputsOf(BlockTxs(item, n))
    ensures CountInputs(item.block.txs[..n]) == InputsOf(BlockTxs(item, n))
  {
    if n > 0 {
      var txs := item.block.txs;
      assert txs[..n][..n - 1] == txs[..n - 1] && BlockTxs(item, n)[..n - 1] == BlockTxs(item, n - 1);
      CountsAgree(item, n - 1);
    }
  }
}
