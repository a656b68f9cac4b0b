/** Blocks as the parser delivers them, and the table rows that ingestion derives from them. */
module Chain {
  import opened Types

  // ------------------------------------------------------------------
  // Blocks
  // ------------------------------------------------------------------

  /** `scriptType` and `address` are what `extract_address` derives from the script. */
  datatype TxOut = TxOut(value: u64, script: string, scriptType: ScriptTypeTag, address: Option<Address>)

  datatype TxIn = TxIn(previousOutput: UtxoKey, details: string)

  /** `details` stands for the columns that are copied unread: version, locktime, sizes, witness. */
  datatype Tx = Tx(txid: Txid, details: string, inputs: seq<TxIn>, outputs: seq<TxOut>)

  datatype Block = Block(hash: string, prevHash: string, time: int, details: string, txs: seq<Tx>)

  /** A block with its height and the file it came from. */
  datatype Item = Item(height: u32, block: Block, file: string)

  const NULL_VOUT: u32 := 0xFFFF_FFFF

  predicate IsNull(k: UtxoKey) {
    k.vout == NULL_VOUT && forall i :: 0 <= i < 32 ==> k.txid[i] == 0
  }

  predicate IsCoinbase(tx: Tx) {
    |tx.inputs| == 1 && IsNull(tx.inputs[0].previousOutput)
  }

  // ------------------------------------------------------------------
  // Rows
  // ------------------------------------------------------------------

  datatype BlockData = BlockData(height: u32, hash: string, previousHash: string, timestamp: int, details: string,
                                 txCount: nat)

  datatype TransactionData = TransactionData(txid: Txid, blockHeight: u32, blockHash: string, timestamp: int,
                                             details: string,
                                             isCoinbase: bool, totalInput: nat, totalOutput: nat, fee: nat)

  /** `key` is the output id, the txid and the output index. */
  datatype OutputData = OutputData(key: UtxoKey, amount: u64, script: string, scriptType: ScriptTypeTag,
                                   address: Option<Address>)

  datatype InputData = InputData(txid: Txid, inputIndex: nat, previousOutput: UtxoKey, details: string,
                                 blockHeight: u32)

  datatype PerformsData = PerformsData(fromAddress: Address, toTxid: Txid, inputCount: nat, amountSpent: nat)

  datatype BenefitsToData = BenefitsToData(fromTxid: Txid, toAddress: Address, outputCount: nat, amountReceived: nat)

  function BlockRow(item: Item): BlockData {
    BlockData(item.height, item.block.hash, item.block.prevHash, item.block.time, item.block.details, |item.block.txs|)
  }

  function BlockRows(items: seq<Item>): seq<BlockData> {
    seq(|items|, i requires 0 <= i < |items| => BlockRow(items[i]))
  }

  /** A transaction with what it needs to know about its block. */
  datatype Pending = Pending(tx: Tx, height: u32, blockHash: string, time: int)

  function PendingOf(item: Item, tx: Tx): Pending {
    Pending(tx, item.height, item.block.hash, item.block.time)
  }

  function BlockTxs(item: Item, n: nat): seq<Pending>
    requires n <= |item.block.txs|
  {
    seq(n, i requires 0 <= i < n => PendingOf(item, item.block.txs[i]))
  }

  /** All transactions of a list of blocks, in chain order. */
  function TxsOf(items: seq<Item>): seq<Pending> {
    if items == [] then []
    else
      var item := items[|items| - 1];
      TxsOf(items[..|items| - 1]) + BlockTxs(item, |item.block.txs|)
  }

  /** The output index is cast to 32 bits. */
  function OutputKey(txid: Txid, i: nat): UtxoKey {
    UtxoKey(txid, i % 0x1_0000_0000)
  }

  function OutputRow(txid: Txid, o: TxOut, i: nat): OutputData {
    OutputData(OutputKey(txid, i), o.value, o.script, o.scriptType, o.address)
  }

  function TxOutputRows(tx: Tx, n: nat): seq<OutputData>
    requires n <= |tx.outputs|
  {
    seq(n, i requires 0 <= i < n => OutputRow(tx.txid, tx.outputs[i], i))
  }

  function OutputRows(ps: seq<Pending>): seq<OutputData> {
    if ps == [] then []
    else
      var tx := ps[|ps| - 1].tx;
      OutputRows(ps[..|ps| - 1]) + TxOutputRows(tx, |tx.outputs|)
  }

  function InputRow(p: Pending, i: nat): InputData
    requires i < |p.tx.inputs|
  {
    InputData(p.tx.txid, i, p.tx.inputs[i].previousOutput, p.tx.inputs[i].details, p.height)
  }

  function TxInputRows(p: Pending, n: nat): seq<InputData>
    requires n <= |p.tx.inputs|
  {
    seq(n, i requires 0 <= i < n => InputRow(p, i))
  }

  function InputRows(ps: seq<Pending>): seq<InputData> {
    if ps == [] then []
    else
      var p := ps[|ps| - 1];
      InputRows(ps[..|ps| - 1]) + TxInputRows(p, |p.tx.inputs|)
  }

  /** The outputs a transaction spends; a coinbase spends none. */
  function TxKeys(tx: Tx): seq<UtxoKey> {
    if IsCoinbase(tx) then [] else Outpoints(tx.inputs)
  }

  function Outpoints(inputs: seq<TxIn>): seq<UtxoKey> {
    seq(|inputs|, i requires 0 <= i < |inputs| => inputs[i].previousOutput)
  }

  function SpentKeys(ps: seq<Pending>): seq<UtxoKey> {
    if ps == [] then [] else SpentKeys(ps[..|ps| - 1]) + TxKeys(ps[|ps| - 1].tx)
  }

  function CachedOf(o: OutputData): CachedOutput {
    CachedOutput(o.key.vout, o.amount, o.scriptType, o.address)
  }

  // ------------------------------------------------------------------
  // Chunks concatenate
  // ------------------------------------------------------------------

  lemma {:induction false} TxsConcat(a: seq<Item>, b: seq<Item>)
    ensures TxsOf(a + b) == TxsOf(a) + TxsOf(b)
  {
    if b == [] {
      assert a + b == a;
    } else {
      assert (a + b)[..|a + b| - 1] == a + b[..|b| - 1];
      TxsConcat(a, b[..|b| - 1]);
      Assoc(TxsOf(a), TxsOf(b[..|b| - 1]), BlockTxs(b[|b| - 1], |b[|b| - 1].block.txs|));
    }
  }

  lemma {:induction false} OutputsConcat(a: seq<Pending>, b: seq<Pending>)
    ensures OutputRows(a + b) == OutputRows(a) + OutputRows(b)
  {
    if b == [] {
      assert a + b == a;
    } else {
      assert (a + b)[..|a + b| - 1] == a + b[..|b| - 1];
      OutputsConcat(a, b[..|b| - 1]);
      Assoc(OutputRows(a), OutputRows(b[..|b| - 1]), TxOutputRows(b[|b| - 1].tx, |b[|b| - 1].tx.outputs|));
    }
  }

  lemma {:induction false} InputsConcat(a: seq<Pending>, b: seq<Pending>)
    ensures InputRows(a + b) == InputRows(a) + InputRows(b)
  {
    if b == [] {
      assert a + b == a;
    } else {
      assert (a + b)[..|a + b| - 1] == a + b[..|b| - 1];
      InputsConcat(a, b[..|b| - 1]);
      Assoc(InputRows(a), InputRows(b[..|b| - 1]), TxInputRows(b[|b| - 1], |b[|b| - 1].tx.inputs|));
    }
  }

  lemma {:induction false} SpentConcat(a: seq<Pending>, b: seq<Pending>)
    ensures SpentKeys(a + b) == SpentKeys(a) + SpentKeys(b)
  {
    if b == [] {
      assert a + b == a;
    } else {
      assert (a + b)[..|a + b| - 1] == a + b[..|b| - 1];
      SpentConcat(a, b[..|b| - 1]);
      Assoc(SpentKeys(a), SpentKeys(b[..|b| - 1]), TxKeys(b[|b| - 1].tx));
    }
  }

  lemma BlockRowsConcat(a: seq<Item>, b: seq<Item>)
    ensures BlockRows(a + b) == BlockRows(a) + BlockRows(b)
  {
  }

  /** Where an output row comes from. */
  lemma {:induction false} OutputRowOrigin(ps: seq<Pending>, o: OutputData)
    requires o in OutputRows(ps)
    ensures exists p :: p in ps && o.key.txid == p.tx.txid
  {
    var before, p := ps[..|ps| - 1], ps[|ps| - 1];
    if o in OutputRows(before) {
      OutputRowOrigin(before, o);
      var q :| q in before && o.key.txid == q.tx.txid;
      assert q in ps;
    } else {
      assert p in ps;
    }
  }

  lemma {:induction false} InputRowOrigin(ps: seq<Pending>, r: InputData)
    requires r in InputRows(ps)
    ensures exists p :: p in ps && r.txid == p.tx.txid
  {
    var before, p := ps[..|ps| - 1], ps[|ps| - 1];
    if r in InputRows(before) {
      InputRowOrigin(before, r);
      var q :| q in before && r.txid == q.tx.txid;
      assert q in ps;
    } else {
      assert p in ps;
    }
  }

  lemma {:induction false} PendingHeights(items: seq<Item>, p: Pending)
    requires p in TxsOf(items)
    ensures exists item :: item in items && p.height == item.height && p.tx in item.block.txs
  {
    var before, item := items[..|items| - 1], items[|items| - 1];
    if p in TxsOf(before) {
      PendingHeights(before, p);
      var it :| it in before && p.height == it.height && p.tx in it.block.txs;
      assert it in items;
    } else {
      assert item in items;
    }
  }
}
