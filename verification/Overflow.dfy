/** A chunk that goes wrong: its own outputs push out of the cache one that it spends. */
module Overflow {
  import opened Types
  import opened Lru
  import opened Chain
  import opened Aggregation
  import opened Cache
  import opened Sharding
  import opened Coherence
  import opened Writer
  import opened Refinement
  import opened Ingestion
  import opened CachePhases
  import opened Orchestration

  /** The cache of the given capacity per shard. */
  function Even(cap: nat): seq<nat> {
    seq(NUM_SHARDS, _ => cap)
  }

  /** Outputs of a transaction whose numbers are multiples of 16 go to the same shard. */
  lemma SameShard(txid: Txid, j: nat)
    requires 16 * j < 0x1_0000_0000
    ensures ShardIndex(UtxoKey(txid, 16 * j)) == ShardIndex(UtxoKey(txid, 0))
  {
    assert (16 * j) % 16 == 0;
    OutputsOfOneTx(txid, 16 * j, 0);
  }

  /** The keys numbered 16, 32 and so on up to `16 * n`. */
  function Multiples(txid: Txid, n: nat): set<UtxoKey>
    requires 16 * n < 0x1_0000_0000
  {
    if n == 0 then {} else Multiples(txid, n - 1) + {UtxoKey(txid, 16 * n)}
  }

  lemma {:induction false} MultiplesAre(txid: Txid, n: nat)
    requires 16 * n < 0x1_0000_0000
    ensures |Multiples(txid, n)| == n
    ensures forall k :: k in Multiples(txid, n) ==>
              k.txid == txid && 0 < k.vout <= 16 * n && ShardIndex(k) == ShardIndex(UtxoKey(txid, 0))
  {
    if n > 0 {
      MultiplesAre(txid, n - 1);
      SameShard(txid, n);
    }
  }

  /**
    A block of a coinbase, a transaction with one output more than 16 times the capacity of a
    shard, and one that spends the first of these.
    */
  predicate SpendsFirstOfMany(item: Item, cap: nat) {
    && |item.block.txs| == 3 && IsCoinbase(item.block.txs[0])
    && var a, b := item.block.txs[1], item.block.txs[2];
       && |a.outputs| == 16 * cap + 1 <= 0x1_0000_0000 && a.outputs[0].value > 0
       && !IsCoinbase(b) && |b.inputs| == 1 && b.inputs[0].previousOutput == UtxoKey(a.txid, 0)
       && b.outputs != [] && b.txid != a.txid
  }

  lemma ThreeTransactions(item: Item)
    requires |item.block.txs| == 3
    ensures TxsOf([item]) ==
            [PendingOf(item, item.block.txs[0]), PendingOf(item, item.block.txs[1]), PendingOf(item, item.block.txs[2])]
  {
    assert [item][..0] == [] && TxsOf([]) == [];
  }

  lemma RowsOfThree(c: Pending, a: Pending, b: Pending)
    ensures OutputRows([c, a, b]) == TxOutputRows(c.tx, |c.tx.outputs|) + TxOutputRows(a.tx, |a.tx.outputs|)
                                     + TxOutputRows(b.tx, |b.tx.outputs|)
  {
    assert [c, a, b][..2] == [c, a] && [c, a][..1] == [c] && [c][..0] == [];
    assert OutputRows([c]) == [] + TxOutputRows(c.tx, |c.tx.outputs|);
    assert OutputRows([c, a]) == OutputRows([c]) + TxOutputRows(a.tx, |a.tx.outputs|);
  }

  lemma LastSpends(c: Pending, a: Pending, b: Pending, k: UtxoKey)
    requires !IsCoinbase(b.tx) && |b.tx.inputs| == 1 && b.tx.inputs[0].previousOutput == k
    ensures k in SpentKeys([c, a, b])
  {
    assert [c, a, b][..2] == [c, a];
    assert TxKeys(b.tx)[0] == k;
  }

  lemma RowsOfBlock(item: Item, cap: nat)
    requires SpendsFirstOfMany(item, cap)
    ensures var txs := item.block.txs;
            OutputRows(TxsOf([item])) == TxOutputRows(txs[0], |txs[0].outputs|) + TxOutputRows(txs[1], |txs[1].outputs|)
                                         + TxOutputRows(txs[2], |txs[2].outputs|)
    ensures UtxoKey(item.block.txs[1].txid, 0) in CollectInputKeys([item])
  {
    var txs := item.block.txs;
    var c, a, b := PendingOf(item, txs[0]), PendingOf(item, txs[1]), PendingOf(item, txs[2]);
    ThreeTransactions(item);
    RowsOfThree(c, a, b);
    LastSpends(c, a, b, UtxoKey(a.tx.txid, 0));
  }

  /** What is put after the last entry for a key. */
  lemma FollowsLast(es: seq<Entry>, k: UtxoKey, i: nat)
    requires i < |es| && es[i].key == k && forall j :: i < j < |es| ==> es[j].key != k
    ensures forall j :: i < j < |es| ==> es[j].key in KeysOf(AfterLast(es, k))
  {
    assert es[i] in es;
    var n := LastSplits(es, k);
    forall j | n < j < |es|
      ensures es[j].key != k
    {
      assert es[n + 1..][j - n - 1] == es[j] && es[j] in es[n + 1..];
    }
    assert n == i;
    forall j | i < j < |es|
      ensures es[j].key in KeysOf(AfterLast(es, k))
    {
      assert es[n + 1..][j - n - 1] == es[j];
    }
  }

  /** The outputs of the second transaction stand together, and no other one after the first has its key. */
  lemma KeysOfBlock(item: Item, cap: nat)
    requires SpendsFirstOfMany(item, cap)
    ensures var txs, es := item.block.txs, ChunkEntries([item]);
            var i := |txs[0].outputs|;
            && i + 16 * cap < |es|
            && (forall j: nat :: j <= 16 * cap ==> es[i + j].key == UtxoKey(txs[1].txid, j))
            && (forall j :: i < j < |es| ==> es[j].key != UtxoKey(txs[1].txid, 0))
  {
    var txs := item.block.txs;
    RowsOfBlock(item, cap);
    KeysOfRowsInOrder(txs[0], txs[1], txs[2], cap);
  }

  lemma KeysOfRowsInOrder(c: Tx, a: Tx, b: Tx, cap: nat)
    requires |a.outputs| == 16 * cap + 1 <= 0x1_0000_0000 && b.txid != a.txid
    ensures var rows := TxOutputRows(c, |c.outputs|) + TxOutputRows(a, |a.outputs|) + TxOutputRows(b, |b.outputs|);
            var i := |c.outputs|;
            && i + 16 * cap < |rows|
            && (forall j: nat :: j <= 16 * cap ==> rows[i + j].key == UtxoKey(a.txid, j))
            && (forall j :: i < j < |rows| ==> rows[j].key != UtxoKey(a.txid, 0))
  {
    var rc, ra, rb := TxOutputRows(c, |c.outputs|), TxOutputRows(a, |a.outputs|), TxOutputRows(b, |b.outputs|);
    var rows, i := rc + ra + rb, |c.outputs|;
    forall j | i < j < |rows|
      ensures rows[j].key != UtxoKey(a.txid, 0)
    {
      if j < i + |ra| {
        assert rows[j] == ra[j - i];
      } else {
        assert rows[j] == rb[j - i - |ra|];
      }
    }
    forall j: nat | j <= 16 * cap
      ensures rows[i + j].key == UtxoKey(a.txid, j)
    {
      assert rows[i + j] == ra[j];
    }
  }

  /** The later outputs take the places of the first. */
  lemma FirstIsPushedOut(item: Item, cap: nat)
    requires SpendsFirstOfMany(item, cap)
    ensures !Survives(Even(cap), ChunkEntries([item]), UtxoKey(item.block.txs[1].txid, 0))
  {
    var txid, es := item.block.txs[1].txid, ChunkEntries([item]);
    var first, i := UtxoKey(txid, 0), |item.block.txs[0].outputs|;
    KeysOfBlock(item, cap);
    assert es[i + 0].key == first;
    forall j: nat {:trigger UtxoKey(txid, j)} | 0 < j <= 16 * cap
      ensures UtxoKey(txid, j) in KeysOf(AfterLast(es, first))
    {
      FollowsLast(es, first, i);
      assert es[i + j].key == UtxoKey(txid, j);
    }
    MultiplesFollow(txid, cap, KeysOf(AfterLast(es, first)));
  }

  lemma MultiplesFollow(txid: Txid, cap: nat, keys: set<UtxoKey>)
    requires 16 * cap < 0x1_0000_0000 && forall j: nat {:trigger UtxoKey(txid, j)} :: 0 < j <= 16 * cap ==>
               UtxoKey(txid, j) in keys
    ensures |ShardKeys(keys, ShardIndex(UtxoKey(txid, 0)))| >= cap
  {
    MultiplesAre(txid, cap);
    forall k | k in Multiples(txid, cap)
      ensures k in ShardKeys(keys, ShardIndex(UtxoKey(txid, 0)))
    {
      assert k == UtxoKey(txid, k.vout);
    }
    SubsetSize(Multiples(txid, cap), ShardKeys(keys, ShardIndex(UtxoKey(txid, 0))));
  }

  /**
    Whatever the capacity, such a block, ingested as a chunk, gets a transaction row with the
    wrong input amount, unless the spent output is already cached or stored.
    */
  lemma ChunkLosesAnInput(t0: Tables, t: Tables, item: Item, cap: nat, c: CacheState, m: Resolved, out: Resolved,
                          exact: bool)
    requires SpendsFirstOfMany(item, cap) && OutputsTrue(OutputRows(TxsOf([item])), out)
    requires |c.shards| == NUM_SHARDS && Exactly(t0, t, [item], m) && Sound(m, out, exact)
    requires forall k :: k in CollectInputKeys([item]) ==> (k in m <==> Resolvable(c, t0.outputs, Even(cap), [item], k))
    requires var spent := UtxoKey(item.block.txs[1].txid, 0); Lookup(c, spent).None? && spent !in KeysOfRows(t0.outputs)
    ensures t.transactions != t0.transactions + TxRows(TxsOf([item]), out)
  {
    var tx := item.block.txs[1];
    var spent := UtxoKey(tx.txid, 0);
    RowsOfBlock(item, cap);
    FirstIsPushedOut(item, cap);
    ChunkIsExactIff(t0, t, [item], c, m, Even(cap), out, exact);
    var o := OutputRow(tx.txid, tx.outputs[0], 0);
    assert TxOutputRows(tx, |tx.outputs|)[0] == o;
    assert o in OutputRows(TxsOf([item])) && out[spent] == CachedOf(o);
  }
}
