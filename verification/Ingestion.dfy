/** The ingestion orchestrator: single blocks, and batches in memory-bounded chunks. */
module Ingestion {
  import opened Types
  import opened Lru
  import opened Chain
  import opened Aggregation
  import opened Cache
  import opened Coherence
  import opened Writer
  import opened Refinement
  import opened Chunking

  const BYTES_PER_BLOCK: nat := 3500
  const BYTES_PER_TX: nat := 3000
  const BYTES_PER_OUTPUT: nat := 3500
  const BYTES_PER_INPUT: nat := 2500

  const BIP30_HEIGHTS: set<int> := {91842, 91880}

  function CountOutputs(txs: seq<Tx>): nat {
    if txs == [] then 0 else CountOutputs(txs[..|txs| - 1]) + |txs[|txs| - 1].outputs|
  }

  function CountInputs(txs: seq<Tx>): nat {
    if txs == [] then 0 else CountInputs(txs[..|txs| - 1]) + |txs[|txs| - 1].inputs|
  }

  function EstimateBlockMemory(b: Block): nat {
    BYTES_PER_BLOCK + |b.txs| * BYTES_PER_TX + CountOutputs(b.txs) * BYTES_PER_OUTPUT
      + CountInputs(b.txs) * BYTES_PER_INPUT
  }

  function Memories(items: seq<Item>): seq<nat> {
    seq(|items|, i requires 0 <= i < |items| => EstimateBlockMemory(items[i].block))
  }

  /** The keys of every non-coinbase input, to be looked up before the transaction opens. */
  function CollectInputKeys(items: seq<Item>): seq<UtxoKey> {
    SpentKeys(TxsOf(items))
  }

  function EntryOf(o: OutputData): Entry {
    Entry(o.key, CachedOf(o))
  }

  function EntriesOf(rows: seq<OutputData>): seq<Entry> {
    seq(|rows|, i requires 0 <= i < |rows| => EntryOf(rows[i]))
  }

  function KeysOfRows(rows: seq<OutputData>): set<UtxoKey> {
    set o | o in rows :: o.key
  }

  /** A txid determines its outputs: every output row agrees with `out`. */
  ghost predicate OutputsTrue(rows: seq<OutputData>, out: Resolved) {
    forall o :: o in rows ==> o.key in out && out[o.key] == CachedOf(o)
  }

  lemma EntriesOfRows(rows: seq<OutputData>, out: Resolved, exact: bool)
    ensures KeysOf(EntriesOf(rows)) == KeysOfRows(rows)
    ensures OutputsTrue(rows, out) ==> EntriesTrue(EntriesOf(rows), out, exact)
  {
    var es := EntriesOf(rows);
    forall e | e in es
      ensures exists o :: o in rows && e == EntryOf(o)
    {
      var i :| 0 <= i < |es| && es[i] == e;
      assert rows[i] in rows && e == EntryOf(rows[i]);
    }
    forall o | o in rows
      ensures EntryOf(o) in es
    {
      var i :| 0 <= i < |rows| && rows[i] == o;
      assert es[i] == EntryOf(o);
    }
    forall k | k in KeysOfRows(rows)
      ensures k in KeysOf(es)
    {
      var o :| o in rows && o.key == k;
      assert EntryOf(o) in es && EntryOf(o).key == k;
    }
  }

  /** The outcome of the parent check; a missing parent is let through. */
  function ParentCheck(blocks: seq<BlockData>, item: Item): Outcome<WriterError> {
    if item.height == 0 then Pass
    else
      match FindBlock(blocks, item.height - 1)
      case None => Pass
      case Some(b) =>
        if b.hash == item.block.prevHash then Pass
        else Fail(ReorgDetected(item.height, item.block.prevHash, b.hash))
  }

  /** It fails precisely on a stored parent with another hash, and names height, claimed and stored hash. */
  lemma ParentCheckMeans(blocks: seq<BlockData>, item: Item)
    requires forall b, c :: b in blocks && c in blocks && b.height == c.height ==> b == c
    ensures ParentCheck(blocks, item).Fail? <==>
            exists b :: b in blocks && b.height == item.height - 1 && b.hash != item.block.prevHash
    ensures forall b :: b in blocks && b.height == item.height - 1 && b.hash != item.block.prevHash ==>
              ParentCheck(blocks, item) == Fail(ReorgDetected(item.height, item.block.prevHash, b.hash))
  {
    FindBlockFinds(blocks, item.height - 1);
  }

  // ------------------------------------------------------------------
  // Row building
  // ------------------------------------------------------------------

  /** The transactions before transaction `j` of block `i`. */
  function Upto(items: seq<Item>, i: nat, j: nat): seq<Pending>
    requires i < |items| && j <= |items[i].block.txs|
  {
    TxsOf(items[..i]) + BlockTxs(items[i], j)
  }

  lemma {:induction false} NextTx(items: seq<Item>, i: nat, j: nat)
    requires i < |items| && j < |items[i].block.txs|
    ensures Upto(items, i, j + 1) == Upto(items, i, j) + [PendingOf(items[i], items[i].block.txs[j])]
  {
    var p := PendingOf(items[i], items[i].block.txs[j]);
    assert BlockTxs(items[i], j + 1) == BlockTxs(items[i], j) + [p];
    Assoc(TxsOf(items[..i]), BlockTxs(items[i], j), [p]);
  }

  lemma {:induction false} NextBlock(items: seq<Item>, i: nat)
    requires i < |items|
    ensures Upto(items, i, 0) == TxsOf(items[..i])
    ensures Upto(items, i, |items[i].block.txs|) == TxsOf(items[..i + 1])
  {
    assert items[..i + 1][..i] == items[..i];
  }

  lemma {:induction false} RowsSnoc(ps: seq<Pending>, p: Pending)
    ensures OutputRows(ps + [p]) == OutputRows(ps) + TxOutputRows(p.tx, |p.tx.outputs|)
    ensures BenefitsRows(ps + [p]) == BenefitsRows(ps) + multiset(BenefitsSet(p.tx.txid, Group(TxOutCredits(p.tx))))
    ensures InputRows(ps + [p]) == InputRows(ps) + TxInputRows(p, |p.tx.inputs|)
    ensures SpentKeys(ps + [p]) == SpentKeys(ps) + TxKeys(p.tx)
  {
    assert (ps + [p])[..|ps|] == ps;
  }

  /** Phase 2: output rows and BENEFITS_TO rows of a chunk. */
  method BuildOutputs(items: seq<Item>) returns (rows: seq<OutputData>, benefits: seq<BenefitsToData>)
    ensures rows == OutputRows(TxsOf(items))
    ensures multiset(benefits) == BenefitsRows(TxsOf(items))
  {
    rows, benefits := [], [];
    for i := 0 to |items|
      invariant rows == OutputRows(TxsOf(items[..i])) && multiset(benefits) == BenefitsRows(TxsOf(items[..i]))
    {
      var txs := items[i].block.txs;
      NextBlock(items, i);
      for j := 0 to |txs|
        invariant rows == OutputRows(Upto(items, i, j)) && multiset(benefits) == BenefitsRows(Upto(items, i, j))
      {
        NextTx(items, i, j);
        RowsSnoc(Upto(items, i, j), PendingOf(items[i], txs[j]));
        var more, _, moreBenefits := SumOutputs(txs[j]);
        rows := rows + more;
        benefits := benefits + moreBenefits;
      }
    }
    assert items[..|items|] == items;
  }

  /** A pending transaction and the range of its keys in the list of all input keys. */
  datatype Slot = Slot(p: Pending, start: nat, end: nat)

  ghost predicate SlotOk(s: Slot, keys: seq<UtxoKey>) {
    s.start <= s.end <= |keys| && keys[s.start..s.end] == TxKeys(s.p.tx)
  }

  ghost predicate SlotsOk(slots: seq<Slot>, ps: seq<Pending>, keys: seq<UtxoKey>) {
    |slots| == |ps| && forall i :: 0 <= i < |slots| ==> slots[i].p == ps[i] && SlotOk(slots[i], keys)
  }

  lemma MoreKeys(slots: seq<Slot>, ps: seq<Pending>, keys: seq<UtxoKey>, p: Pending)
    requires SlotsOk(slots, ps, keys)
    ensures SlotsOk(slots + [Slot(p, |keys|, |keys| + |TxKeys(p.tx)|)], ps + [p], keys + TxKeys(p.tx))
  {
    var more := keys + TxKeys(p.tx);
    forall i | 0 <= i < |slots|
      ensures SlotOk(slots[i], more)
    {
      assert SlotOk(slots[i], keys);
      assert more[slots[i].start..slots[i].end] == keys[slots[i].start..slots[i].end];
    }
  }

  /** Phase 3a: the pending transactions, all input keys, and which keys belong to which. */
  method CollectPending(items: seq<Item>) returns (slots: seq<Slot>, keys: seq<UtxoKey>)
    ensures keys == SpentKeys(TxsOf(items))
    ensures SlotsOk(slots, TxsOf(items), keys)
  {
    slots, keys := [], [];
    for i := 0 to |items|
      invariant keys == SpentKeys(TxsOf(items[..i])) && SlotsOk(slots, TxsOf(items[..i]), keys)
    {
      var txs := items[i].block.txs;
      NextBlock(items, i);
      for j := 0 to |txs|
        invariant keys == SpentKeys(Upto(items, i, j)) && SlotsOk(slots, Upto(items, i, j), keys)
      {
        var p := PendingOf(items[i], txs[j]);
        NextTx(items, i, j);
        RowsSnoc(Upto(items, i, j), p);
        MoreKeys(slots, Upto(items, i, j), keys, p);
        slots := slots + [Slot(p, |keys|, |keys| + |TxKeys(p.tx)|)];
        keys := keys + TxKeys(p.tx);
      }
    }
    assert items[..|items|] == items;
  }

  /** Phase 3c for one transaction: its row with amounts, and its PERFORMS rows. */
  method BuildTransaction(slot: Slot, keys: seq<UtxoKey>, m: Resolved)
    returns (row: TransactionData, performs: seq<PerformsData>)
    requires SlotOk(slot, keys)
    ensures row == TxRow(slot.p, m)
    ensures multiset(performs) == multiset(PerformsSet(slot.p.tx.txid, Group(TxInCredits(slot.p.tx, m))))
  {
    var p := slot.p;
    var totalInput;
    totalInput, performs := SumInputs(p.tx, keys[slot.start..slot.end], m);
    var _, totalOutput, _ := SumOutputs(p.tx);
    row := TransactionData(p.tx.txid, p.height, p.blockHash, p.time, p.tx.details, IsCoinbase(p.tx),
                           totalInput, totalOutput, SaturatingSub(totalInput, totalOutput));
  }

  /** Phase 3c: transaction rows and PERFORMS rows of a chunk. */
  method BuildTransactions(slots: seq<Slot>, keys: seq<UtxoKey>, m: Resolved, ghost ps: seq<Pending>)
    returns (rows: seq<TransactionData>, performs: seq<PerformsData>)
    requires SlotsOk(slots, ps, keys)
    ensures rows == TxRows(ps, m)
    ensures multiset(performs) == PerformsRows(ps, m)
  {
    rows, performs := [], [];
    for i := 0 to |slots|
      invariant rows == TxRows(ps[..i], m)
      invariant multiset(performs) == PerformsRows(ps[..i], m)
    {
      assert SlotOk(slots[i], keys) && slots[i].p == ps[i];
      OneMoreTx(ps, i, m);
      var row, more := BuildTransaction(slots[i], keys, m);
      rows := rows + [row];
      performs := performs + more;
    }
    assert ps[..|ps|] == ps;
  }

  lemma OneMoreTx(ps: seq<Pending>, i: nat, m: Resolved)
    requires i < |ps|
    ensures TxRows(ps[..i + 1], m) == TxRows(ps[..i], m) + [TxRow(ps[i], m)]
    ensures PerformsRows(ps[..i + 1], m) ==
            PerformsRows(ps[..i], m) + multiset(PerformsSet(ps[i].tx.txid, Group(TxInCredits(ps[i].tx, m))))
  {
    assert ps[..i + 1] == ps[..i] + [ps[i]];
    TxRowsConcat(ps[..i], [ps[i]], m);
    PerformsConcat(ps[..i], [ps[i]], m);
    OnePerforms(ps[i], m);
  }

  lemma OnePerforms(p: Pending, m: Resolved)
    ensures PerformsRows([p], m) == multiset(PerformsSet(p.tx.txid, Group(TxInCredits(p.tx, m))))
  {
    assert [p][..0] == [];
  }

  method BuildTxInputs(p: Pending) returns (rows: seq<InputData>)
    ensures rows == TxInputRows(p, |p.tx.inputs|)
  {
    rows := [];
    for i := 0 to |p.tx.inputs|
      invariant rows == TxInputRows(p, i)
    {
      rows := rows + [InputRow(p, i)];
    }
  }

  /** Phase 4: input rows. */
  method BuildInputs(items: seq<Item>) returns (rows: seq<InputData>)
    ensures rows == InputRows(TxsOf(items))
  {
    rows := [];
    for i := 0 to |items|
      invariant rows == InputRows(TxsOf(items[..i]))
    {
      var txs := items[i].block.txs;
      NextBlock(items, i);
      for j := 0 to |txs|
        invariant rows == InputRows(Upto(items, i, j))
      {
        NextTx(items, i, j);
        RowsSnoc(Upto(items, i, j), PendingOf(items[i], txs[j]));
        var more := BuildTxInputs(PendingOf(items[i], txs[j]));
        rows := rows + more;
      }
    }
    assert items[..|items|] == items;
  }

  // ------------------------------------------------------------------
  // Resolving inputs
  // ------------------------------------------------------------------

  /** The hash map from output ids to looked-up rows. */
  method BuildResultMap(rows: seq<OutputData>, ghost outputs: seq<OutputData>, ghost ids: seq<UtxoKey>)
    returns (m: map<UtxoKey, OutputData>)
    requires rows == FoundRows(outputs, ids)
    ensures forall k :: k in m <==> k in ids && FindOutput(outputs, k).Some?
    ensures forall k :: k in m ==> Some(m[k]) == FindOutput(outputs, k)
  {
    m := map[];
    for i := 0 to |rows|
      invariant forall k :: k in m <==> exists j :: 0 <= j < i && rows[j].key == k
      invariant forall k :: k in m ==> k in ids && Some(m[k]) == FindOutput(outputs, k)
    {
      FoundRowsMember(outputs, ids, rows[i]);
      m := m[rows[i].key := rows[i]];
    }
    forall k | k in ids && FindOutput(outputs, k).Some?
      ensures k in m
    {
      FindOutputFinds(outputs, k);
      FoundRowsMember(outputs, ids, FindOutput(outputs, k).value);
    }
  }

  /** The keys that the output table resolves. */
  ghost predicate Adds(found: Resolved, found0: Resolved, ks: seq<UtxoKey>, outputs: seq<OutputData>) {
    forall k :: k in found <==> k in found0 || (k in ks && FindOutput(outputs, k).Some?)
  }

  ghost predicate Unresolved(missing: seq<UtxoKey>, ks: seq<UtxoKey>, outputs: seq<OutputData>) {
    forall k :: k in missing <==> k in ks && FindOutput(outputs, k).None?
  }

  /** One key more that the output table resolves, or does not. */
  lemma ResolveStep(found: Resolved, found0: Resolved, missing: seq<UtxoKey>, ks: seq<UtxoKey>, i: nat,
                    outputs: seq<OutputData>, out: Resolved, exact: bool)
    requires i < |ks| && OutputsTrue(outputs, out)
    requires Sound(found, out, exact) && Adds(found, found0, ks[..i], outputs) && Unresolved(missing, ks[..i], outputs)
    ensures match FindOutput(outputs, ks[i])
            case Some(o) =>
              && ks[i] in out && Matches(CachedOf(o), out[ks[i]], exact)
              && Sound(found[ks[i] := CachedOf(o)], out, exact)
              && Adds(found[ks[i] := CachedOf(o)], found0, ks[..i + 1], outputs)
              && Unresolved(missing, ks[..i + 1], outputs)
            case None =>
              && Adds(found, found0, ks[..i + 1], outputs)
              && Unresolved(missing + [ks[i]], ks[..i + 1], outputs)
  {
    assert ks[..i + 1] == ks[..i] + [ks[i]];
    FindOutputFinds(outputs, ks[i]);
  }

  /** The entries that looked-up keys put into the cache, in order. */
  function Fetched(outputs: seq<OutputData>, ks: seq<UtxoKey>): seq<Entry> {
    if ks == [] then []
    else
      match FindOutput(outputs, ks[|ks| - 1])
      case Some(o) => Fetched(outputs, ks[..|ks| - 1]) + [Entry(ks[|ks| - 1], CachedOf(o))]
      case None => Fetched(outputs, ks[..|ks| - 1])
  }

  lemma {:induction false} FetchedKeys(outputs: seq<OutputData>, ks: seq<UtxoKey>)
    ensures forall e :: e in Fetched(outputs, ks) ==> e.key in ks && FindOutput(outputs, e.key).Some?
  {
    if ks != [] {
      var before, k := ks[..|ks| - 1], ks[|ks| - 1];
      assert ks == before + [k];
      FetchedKeys(outputs, before);
    }
  }

  lemma FetchedSnoc(outputs: seq<OutputData>, ks: seq<UtxoKey>, i: nat)
    requires i < |ks|
    ensures Fetched(outputs, ks[..i + 1]) ==
            match FindOutput(outputs, ks[i])
            case Some(o) => Fetched(outputs, ks[..i]) + [Entry(ks[i], CachedOf(o))]
            case None => Fetched(outputs, ks[..i])
  {
    assert ks[..i + 1][..i] == ks[..i];
  }

  lemma InsertedSnoc(c: CacheState, es: seq<Entry>, e: Entry)
    requires |c.shards| == NUM_SHARDS
    ensures InsertEach(c, es + [e]) == Insert(InsertEach(c, es), e.key, e.value)
  {
    assert (es + [e])[..|es|] == es;
  }

  /** Turns looked-up rows into cached outputs; lists the keys that stay unresolved. */
  method ResolveMisses(cache: UtxoCache, misses: seq<UtxoKey>, rows: seq<OutputData>, found0: Resolved,
                       ghost caps: seq<nat>,
                       ghost outputs: seq<OutputData>, ghost out: Resolved, ghost exact: bool)
    returns (found: Resolved, stillMissing: seq<UtxoKey>)
    requires Good(cache.State(), caps, out, exact)
    requires rows == FoundRows(outputs, misses) && OutputsTrue(outputs, out)
    requires Sound(found0, out, exact)
    modifies cache`shards, cache`inserts
    ensures Good(cache.State(), caps, out, exact)
    ensures cache.State() == InsertEach(old(cache.State()), Fetched(outputs, misses))
    ensures Sound(found, out, exact) && Adds(found, found0, misses, outputs)
    ensures Unresolved(stillMissing, misses, outputs)
  {
    ghost var c := cache.State();
    var resultMap := BuildResultMap(rows, outputs, misses);
    found, stillMissing := found0, [];
    for i := 0 to |misses|
      invariant cache.Valid() && cache.State() == InsertEach(c, Fetched(outputs, misses[..i]))
      invariant Sound(found, out, exact) && Adds(found, found0, misses[..i], outputs)
      invariant Unresolved(stillMissing, misses[..i], outputs)
    {
      var k := misses[i];
      ResolveStep(found, found0, stillMissing, misses, i, outputs, out, exact);
      FetchedSnoc(outputs, misses, i);
      if k in resultMap {
        var cached := CachedOf(resultMap[k]);
        InsertedSnoc(c, Fetched(outputs, misses[..i]), Entry(k, cached));
        cache.InsertOne(k, cached);
        found := found[k := cached];
      } else {
        stillMissing := stillMissing + [k];
      }
    }
    assert misses[..|misses|] == misses;
    FetchedIsTrue(outputs, misses, out, exact);
    InsertEachStaysGood(c, caps, out, exact, Fetched(outputs, misses));
  }

  lemma {:induction false} FetchedIsTrue(outputs: seq<OutputData>, ks: seq<UtxoKey>, out: Resolved, exact: bool)
    requires OutputsTrue(outputs, out)
    ensures EntriesTrue(Fetched(outputs, ks), out, exact)
  {
    if ks != [] {
      FetchedIsTrue(outputs, ks[..|ks| - 1], out, exact);
      FindOutputFinds(outputs, ks[|ks| - 1]);
    }
  }

  /** Values found in a truthful cache are true. */
  lemma FoundIsSound(c: CacheState, caps: seq<nat>, out: Resolved, exact: bool, keys: seq<UtxoKey>)
    requires Good(c, caps, out, exact)
    ensures Sound(FoundOf(c, keys), out, exact)
  {
  }

  /** The misses of a batched lookup, in the order in which it lists them. */
  function Misses(c: CacheState, keys: seq<UtxoKey>): seq<UtxoKey>
    requires |c.shards| == NUM_SHARDS
  {
    MissingOf(c, Regrouped(keys, NUM_SHARDS))
  }

  /** A batched lookup in a truthful cache. */
  method ReadCache(cache: UtxoCache, keys: seq<UtxoKey>, ghost caps: seq<nat>, ghost out: Resolved, ghost exact: bool)
    returns (found: Resolved, misses: seq<UtxoKey>)
    requires Good(cache.State(), caps, out, exact)
    modifies cache`shards, cache`hits, cache`misses
    ensures Good(cache.State(), caps, out, exact)
    ensures cache.State() == Each(Reading, old(cache.State()), keys)
    ensures found == FoundOf(old(cache.State()), keys) && misses == Misses(old(cache.State()), keys)
    ensures Sound(found, out, exact)
    ensures forall k :: k in keys <==> k in found || k in misses
  {
    ghost var c := cache.State();
    FoundIsSound(c, caps, out, exact, keys);
    EachStaysGood(Reading, c, caps, out, exact, keys);
    found, misses := cache.GetMany(keys);
    MissesAreUnfound(c, keys, misses);
  }

  /** Looks the misses of a cache read up in the store; `missing` lists those it lacks too. */
  method LookUpMisses(cache: UtxoCache, writer: MockWriter, misses: seq<UtxoKey>, found: Resolved,
                      ghost caps: seq<nat>, ghost out: Resolved, ghost exact: bool)
    returns (r: Result<Resolved, WriterError>, missing: seq<UtxoKey>, rows: nat)
    requires Good(cache.State(), caps, out, exact) && Sound(found, out, exact)
    requires OutputsTrue(writer.outputs, out)
    modifies cache`shards, cache`inserts, writer`log
    ensures Good(cache.State(), caps, out, exact)
    ensures r.Success? ==> cache.State() == InsertEach(old(cache.State()), Fetched(writer.outputs, misses))
    ensures r.Failure? ==> cache.State() == old(cache.State())
    ensures r.Success? ==> Sound(r.value, out, exact) && Adds(r.value, found, misses, writer.outputs)
    ensures r.Success? ==>
              Unresolved(missing, misses, writer.outputs) && rows == |FoundRows(writer.outputs, misses)| <= |misses|
    ensures r.Failure? ==> r.error == QueryFailed
    ensures !writer.inTransaction ==> Steady(old(writer.log), writer.log)
    ensures old(writer.log.failures) <= writer.log.failures
            && (r.Failure? <==> old(writer.log.failures) < writer.log.failures)
  {
    missing, rows := [], 0;
    var looked := writer.LookupOutputsBatch(misses);
    match looked
    case Failure(_) => r := Failure(QueryFailed);
    case Success(found1) =>
      FoundRowsAreFewer(writer.outputs, misses);
      var resolved;
      resolved, missing := ResolveMisses(cache, misses, found1, found, caps, writer.outputs, out, exact);
      r, rows := Success(resolved), |found1|;
  }

  function CountFallback(c: CacheState): CacheState {
    c.(stats := c.stats.(fallbacks := c.stats.fallbacks + 1))
  }

  /**
    The cache after a lookup with fallback, from the cache after the batched read: if
    there are misses, one fallback counted and the misses that the store has inserted.
    */
  function AfterFallback(read: CacheState, misses: seq<UtxoKey>, outputs: seq<OutputData>,
                         looked: bool): (r: CacheState)
    requires |read.shards| == NUM_SHARDS
    ensures |r.shards| == NUM_SHARDS
  {
    if misses == [] then read
    else if looked then InsertEach(CountFallback(read), Fetched(outputs, misses))
    else CountFallback(read)
  }

  /** Cache first, store for the misses; an error if a key is found in neither. */
  method GetManyWithFallback(cache: UtxoCache, writer: MockWriter, keys: seq<UtxoKey>,
                             ghost caps: seq<nat>, ghost out: Resolved, ghost exact: bool)
    returns (r: Result<Resolved, WriterError>, ghost misses: seq<UtxoKey>)
    requires Good(cache.State(), caps, out, exact)
    requires OutputsTrue(writer.outputs, out)
    modifies cache`shards, cache`hits, cache`misses, cache`inserts, cache`fallbacks,
             writer`log
    ensures Good(cache.State(), caps, out, exact)
    ensures misses == Misses(old(cache.State()), keys)
    ensures cache.State() == AfterFallback(Each(Reading, old(cache.State()), keys), misses, writer.outputs,
                                           writer.log.failures == old(writer.log.failures))
    ensures r.Success? ==> Sound(r.value, out, exact) && forall k :: k in keys ==> k in r.value
    ensures r.Success? <==>
              writer.log.failures == old(writer.log.failures)
              && forall k :: k in misses ==> FindOutput(writer.outputs, k).Some?
    ensures forall k :: k in misses ==> k in keys
    ensures r.Failure? ==> r.error == QueryFailed
    ensures !writer.inTransaction ==> Steady(old(writer.log), writer.log)
    ensures old(writer.log.failures) <= writer.log.failures
  {
    var found, missed := ReadCache(cache, keys, caps, out, exact);
    misses := missed;
    ghost var read := cache.State();
    if missed == [] {
      return Success(found), misses;
    }
    cache.RecordFallback();
    assert cache.State() == CountFallback(read);
    CountersDoNotMatter(read, cache.State(), caps, out, exact);
    r := FallBack(cache, writer, missed, found, caps, out, exact);
  }

  /** The store lookup of a read with fallback; an error unless it resolves every miss. */
  method FallBack(cache: UtxoCache, writer: MockWriter, misses: seq<UtxoKey>, found: Resolved,
                  ghost caps: seq<nat>, ghost out: Resolved, ghost exact: bool)
    returns (r: Result<Resolved, WriterError>)
    requires Good(cache.State(), caps, out, exact) && Sound(found, out, exact)
    requires OutputsTrue(writer.outputs, out)
    modifies cache`shards, cache`inserts, writer`log
    ensures Good(cache.State(), caps, out, exact)
    ensures writer.log.failures == old(writer.log.failures) ==>
              cache.State() == InsertEach(old(cache.State()), Fetched(writer.outputs, misses))
    ensures writer.log.failures != old(writer.log.failures) ==> cache.State() == old(cache.State())
    ensures r.Success? ==> Sound(r.value, out, exact) && forall k :: k in found || k in misses ==> k in r.value
    ensures r.Success? <==>
              writer.log.failures == old(writer.log.failures)
              && forall k :: k in misses ==> FindOutput(writer.outputs, k).Some?
    ensures r.Failure? ==> r.error == QueryFailed
    ensures !writer.inTransaction ==> Steady(old(writer.log), writer.log)
    ensures old(writer.log.failures) <= writer.log.failures
  {
    var missing, rows;
    r, missing, rows := LookUpMisses(cache, writer, misses, found, caps, out, exact);
    if r.Success? && missing != [] {
      assert missing[0] in missing;
      r := Failure(QueryFailed);
    }
  }

  lemma MissesAreUnfound(c: CacheState, keys: seq<UtxoKey>, misses: seq<UtxoKey>)
    requires |c.shards| == NUM_SHARDS && multiset(misses) == multiset(MissingOf(c, keys))
    ensures forall k :: k in keys <==> k in FoundOf(c, keys) || k in misses
  {
    forall k
      ensures k in misses <==> k in keys && Lookup(c, k).None?
    {
      MissingMember(c, keys, k);
      assert k in misses <==> k in multiset(misses);
      assert k in MissingOf(c, keys) <==> k in multiset(MissingOf(c, keys));
    }
  }

  lemma {:induction false} FoundRowsAreFewer(outputs: seq<OutputData>, ids: seq<UtxoKey>)
    ensures |FoundRows(outputs, ids)| <= |ids|
  {
    if ids != [] {
      FoundRowsAreFewer(outputs, ids[..|ids| - 1]);
    }
  }

  // ------------------------------------------------------------------
  // Writing
  // ------------------------------------------------------------------

  /** Phase 2: the cache half of the concurrent write. */
  method PopulateCache(cache: UtxoCache, rows: seq<OutputData>, ghost caps: seq<nat>, ghost out: Resolved,
                       ghost exact: bool)
    requires Good(cache.State(), caps, out, exact) && OutputsTrue(rows, out)
    modifies cache`shards, cache`inserts
    ensures Good(cache.State(), caps, out, exact)
    ensures cache.State() == InsertEach(old(cache.State()), EntriesOf(rows))
  {
    EntriesOfRows(rows, out, exact);
    InsertEachStaysGood(cache.State(), caps, out, exact, EntriesOf(rows));
    InsertRows(cache, rows);
  }

  method InsertRows(cache: UtxoCache, rows: seq<OutputData>)
    requires cache.Valid()
    modifies cache`shards, cache`inserts
    ensures cache.Valid() && cache.State() == InsertEach(old(cache.State()), EntriesOf(rows))
  {
    ghost var c := cache.State();
    ghost var es := EntriesOf(rows);
    for i := 0 to |rows|
      invariant cache.Valid() && cache.State() == InsertEach(c, es[..i])
    {
      assert es[..i + 1][..i] == es[..i];
      assert es[..i + 1][i] == EntryOf(rows[i]);
      cache.InsertOne(rows[i].key, CachedOf(rows[i]));
    }
    assert es[..|rows|] == es;
  }

  ghost predicate SameMap(c: CacheState, d: CacheState)
    requires |c.shards| == NUM_SHARDS == |d.shards|
  {
    forall k :: Lookup(c, k) == Lookup(d, k)
  }

  /** One read that is not counted. */
  function QuietRead(c: CacheState, k: UtxoKey): (d: CacheState)
    requires |c.shards| == NUM_SHARDS
    ensures |d.shards| == NUM_SHARDS
  {
    Step(Reading, c, k).(stats := c.stats)
  }

  /** The cache after the keys were looked up, but for those already had: those in `have`, and those found before. */
  function Supplied(c: CacheState, have: set<UtxoKey>, keys: seq<UtxoKey>): (d: CacheState)
    requires |c.shards| == NUM_SHARDS
    ensures |d.shards| == NUM_SHARDS
  {
    if keys == [] then c
    else
      var before, k := keys[..|keys| - 1], keys[|keys| - 1];
      var d := Supplied(c, have, before);
      if k in have || (k in before && Lookup(c, k).Some?) then d else QuietRead(d, k)
  }

  lemma SuppliedSnoc(c: CacheState, have: set<UtxoKey>, keys: seq<UtxoKey>, i: nat)
    requires |c.shards| == NUM_SHARDS && i < |keys|
    ensures Supplied(c, have, keys[..i + 1]) ==
            var d := Supplied(c, have, keys[..i]);
            if keys[i] in have || (keys[i] in keys[..i] && Lookup(c, keys[i]).Some?) then d else QuietRead(d, keys[i])
    ensures keys[..i + 1] == keys[..i] + [keys[i]]
  {
    assert keys[..i + 1][..i] == keys[..i];
  }

  /** `get_quiet` on a truthful cache. */
  method ReadQuietly(cache: UtxoCache, k: UtxoKey, ghost caps: seq<nat>, ghost out: Resolved, ghost exact: bool)
    returns (v: Option<CachedOutput>)
    requires Good(cache.State(), caps, out, exact)
    modifies cache`shards
    ensures Good(cache.State(), caps, out, exact)
    ensures cache.State() == QuietRead(old(cache.State()), k) && SameMap(old(cache.State()), cache.State())
    ensures v == Lookup(old(cache.State()), k)
    ensures v.Some? ==> k in out && Matches(v.value, out[k], exact)
  {
    ghost var c := cache.State();
    StepStaysGood(Reading, c, caps, out, exact, k);
    v := cache.GetQuiet(k);
    CountersDoNotMatter(Step(Reading, c, k), cache.State(), caps, out, exact);
    assert v == Lookup(c, k);
  }

  /** One key of Phase 3b. */
  method SupplementOne(cache: UtxoCache, k: UtxoKey, had: Resolved, ghost caps: seq<nat>, ghost out: Resolved,
                       ghost exact: bool)
    returns (all: Resolved)
    requires Good(cache.State(), caps, out, exact) && Sound(had, out, exact)
    modifies cache`shards
    ensures Good(cache.State(), caps, out, exact) && SameMap(old(cache.State()), cache.State())
    ensures cache.State() == if k in had then old(cache.State()) else QuietRead(old(cache.State()), k)
    ensures Sound(all, out, exact)
    ensures all == if k !in had && Lookup(old(cache.State()), k).Some?
                   then had[k := Lookup(old(cache.State()), k).value] else had
  {
    all := had;
    if k !in had {
      var cached := ReadQuietly(cache, k, caps, out, exact);
      if cached.Some? {
        all := had[k := cached.value];
      }
    }
  }

  /** Phase 3b: what the prefetch did not resolve may be in the cache by now. */
  method Supplement(cache: UtxoCache, keys: seq<UtxoKey>, prefetched: Resolved,
                    ghost caps: seq<nat>, ghost out: Resolved, ghost exact: bool)
    returns (all: Resolved)
    requires Good(cache.State(), caps, out, exact) && Sound(prefetched, out, exact)
    modifies cache`shards
    ensures Good(cache.State(), caps, out, exact) && Sound(all, out, exact)
    ensures cache.State() == Supplied(old(cache.State()), prefetched.Keys, keys)
    ensures forall k :: k in all <==> k in prefetched || (k in keys && Lookup(old(cache.State()), k).Some?)
    ensures forall k :: k in prefetched ==> all[k] == prefetched[k]
  {
    ghost var c := cache.State();
    all := prefetched;
    for i := 0 to |keys|
      invariant Good(cache.State(), caps, out, exact)
      invariant SameMap(c, cache.State()) && cache.State() == Supplied(c, prefetched.Keys, keys[..i])
      invariant Sound(all, out, exact)
      invariant forall k :: k in all <==> k in prefetched || (k in keys[..i] && Lookup(c, k).Some?)
      invariant forall k :: k in prefetched ==> all[k] == prefetched[k]
    {
      SuppliedSnoc(c, prefetched.Keys, keys, i);
      all := SupplementOne(cache, keys[i], all, caps, out, exact);
    }
    assert keys[..|keys|] == keys;
  }
}
