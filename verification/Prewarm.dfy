/** Filling the cache from the blocks below the resume height, newest block first, without evicting anything. */
module Prewarming {
  import opened Types
  import opened Lru
  import opened Cache
  import opened Coherence
  import opened Aggregation
  import opened Chain

  /** How the loader classifies a script: script type and address, coarser than what ingestion derives. */
  type Classifier = TxOut -> (ScriptTypeTag, Option<Address>)

  /** What loading each indexed height gives: its block or a read error. */
  type Index = map<int, Result<Block, string>>

  function CoarseEntry(tx: Tx, i: nat, classify: Classifier): Entry
    requires i < |tx.outputs|
  {
    var k, o := OutputKey(tx.txid, i), tx.outputs[i];
    Entry(k, CachedOutput(k.vout, o.value, classify(o).0, classify(o).1))
  }

  function TxEntries(tx: Tx, n: nat, classify: Classifier): seq<Entry>
    requires n <= |tx.outputs|
  {
    seq(n, i requires 0 <= i < n => CoarseEntry(tx, i, classify))
  }

  function TxsEntries(txs: seq<Tx>, classify: Classifier): seq<Entry> {
    if txs == [] then []
    else
      var tx := txs[|txs| - 1];
      TxsEntries(txs[..|txs| - 1], classify) + TxEntries(tx, |tx.outputs|, classify)
  }

  function BlockEntries(b: Block, classify: Classifier): seq<Entry> {
    TxsEntries(b.txs, classify)
  }

  /** The entry is that of output `i`: its number, its value, and what the loader makes of its script. */
  ghost predicate EntryMeans(tx: Tx, i: nat, classify: Classifier, e: Entry) {
    && i < |tx.outputs| && e.key.txid == tx.txid && e.key.vout == i % 0x1_0000_0000
    && e.value.outputIndex == e.key.vout && e.value.amount == tx.outputs[i].value
    && e.value.scriptType == classify(tx.outputs[i]).0 && e.value.address == classify(tx.outputs[i]).1
  }

  /** A block yields one entry for every output of every transaction, and no others. */
  lemma {:induction false} BlockEntriesMean(txs: seq<Tx>, classify: Classifier, e: Entry)
    ensures e in TxsEntries(txs, classify) <==> exists tx, i: nat :: tx in txs && EntryMeans(tx, i, classify, e)
  {
    if txs != [] {
      var before, last := txs[..|txs| - 1], txs[|txs| - 1];
      assert txs == before + [last];
      BlockEntriesMean(before, classify, e);
      TxEntriesMean(last, classify, e);
    }
  }

  lemma TxEntriesMean(tx: Tx, classify: Classifier, e: Entry)
    ensures e in TxEntries(tx, |tx.outputs|, classify) <==> exists i: nat :: EntryMeans(tx, i, classify, e)
  {
    var es := TxEntries(tx, |tx.outputs|, classify);
    if i: nat :| EntryMeans(tx, i, classify, e) {
      assert es[i] == e;
    }
    if e in es {
      var i :| 0 <= i < |es| && es[i] == e;
      assert EntryMeans(tx, i, classify, e);
    }
  }

  ghost predicate Loaded(index: Index, h: int) {
    h in index && index[h].Success?
  }

  /** What each height yields: the entries of its block, wherever one can be loaded. */
  type Feed = int -> seq<Entry>

  ghost predicate Feeds(feed: Feed, index: Index, classify: Classifier) {
    forall h {:trigger index[h]} :: Loaded(index, h) ==> feed(h) == BlockEntries(index[h].value, classify)
  }

  /** The entries of the `n` blocks below `start`, in the order of the walk. */
  ghost function WalkEntries(feed: Feed, start: nat, n: nat): seq<Entry> {
    if n == 0 then [] else WalkEntries(feed, start, n - 1) + feed(start - n)
  }

  /** Every key cached in `c` is still cached in `d`. */
  ghost predicate Kept(c: CacheState, d: CacheState)
    requires |c.shards| == NUM_SHARDS == |d.shards|
  {
    forall k :: Lookup(c, k).Some? ==> Lookup(d, k).Some?
  }

  ghost predicate AllCached(c: CacheState, es: seq<Entry>)
    requires |c.shards| == NUM_SHARDS
  {
    forall e :: e in es ==> Lookup(c, e.key).Some?
  }

  ghost predicate SomeShardFull(c: CacheState)
    requires |c.shards| == NUM_SHARDS
  {
    exists t :: 0 <= t < NUM_SHARDS && |c.shards[t].entries| >= c.shards[t].cap
  }

  /** An insertion into a shard with room evicts nothing. */
  lemma RoomyInsertKeeps(c: CacheState, k: UtxoKey, v: CachedOutput)
    requires ValidCache(c) && HasRoom(c, k)
    ensures ValidCache(Insert(c, k, v)) && Kept(c, Insert(c, k, v)) && Lookup(Insert(c, k, v), k) == Some(v)
  {
    var t := ShardIndex(k);
    InsertEffect(c, k, v);
    PutEffect(c.shards[t], k, v);
    forall j | Lookup(c, j).Some?
      ensures Lookup(Insert(c, k, v), j).Some?
    {
      PeekFinds(c.shards[t].entries, j);
      PeekFinds(Insert(c, k, v).shards[t].entries, j);
    }
  }

  /** The converse: inserting a new key into a full shard evicts an entry. */
  lemma FullInsertEvicts(c: CacheState, k: UtxoKey, v: CachedOutput)
    requires ValidCache(c) && Lookup(c, k).None?
    ensures Kept(c, Insert(c, k, v)) <==> HasRoom(c, k)
  {
    var t := ShardIndex(k);
    var s := c.shards[t];
    if |s.entries| < s.cap {
      RoomyInsertKeeps(c, k, v);
    } else {
      var last := s.entries[s.cap - 1];
      var es := [Entry(k, v)] + s.entries;
      PeekFinds(s.entries, k);
      WithoutFilters(s.entries, k);
      PeekOfEntry(s.entries, last);
      assert last in s.entries;
      assert Lookup(c, last.key).Some?;
      var now := Insert(c, k, v).shards[t].entries;
      assert now == es[..s.cap];
      forall e | e in now
        ensures e.key != last.key
      {
        var i :| 0 <= i < |now| && now[i] == e;
        if i > 0 {
          assert e == s.entries[i - 1];
        }
      }
      PeekFinds(now, last.key);
    }
  }

  /** Inserting the entries one by one, each finds room in its shard. */
  predicate Roomy(c: CacheState, es: seq<Entry>)
    requires |c.shards| == NUM_SHARDS
  {
    es == [] || (Roomy(c, es[..|es| - 1]) && HasRoom(InsertEach(c, es[..|es| - 1]), es[|es| - 1].key))
  }

  /** The cache `d` is `c` after the entries went in without evicting anything. */
  predicate Grown(c: CacheState, d: CacheState, es: seq<Entry>) {
    |c.shards| == NUM_SHARDS && d == InsertEach(c, es) && Roomy(c, es)
  }

  lemma {:induction false} GrownOn(c: CacheState, d: CacheState, e: CacheState, es: seq<Entry>, more: seq<Entry>)
    requires Grown(c, d, es) && Grown(d, e, more)
    ensures Grown(c, e, es + more)
    decreases |more|
  {
    if more == [] {
      assert es + more == es;
    } else {
      var front := more[..|more| - 1];
      assert (es + more)[..|es + more| - 1] == es + front;
      GrownOn(c, d, InsertEach(d, front), es, front);
    }
  }

  lemma GrownByOne(c: CacheState, e: Entry)
    requires |c.shards| == NUM_SHARDS && HasRoom(c, e.key)
    ensures Grown(c, Insert(c, e.key, e.value), [e])
  {
    assert [e][..0] == [];
    assert InsertEach(c, [e]) == Insert(InsertEach(c, []), e.key, e.value);
  }

  /** Room at every insertion means that nothing is evicted, neither old entries nor new ones. */
  lemma {:induction false} GrownKeeps(c: CacheState, d: CacheState, es: seq<Entry>)
    requires ValidCache(c) && Grown(c, d, es)
    ensures ValidCache(d) && Kept(c, d) && AllCached(d, es)
    decreases |es|
  {
    if es != [] {
      var front, e := es[..|es| - 1], es[|es| - 1];
      assert es == front + [e];
      GrownKeeps(c, InsertEach(c, front), front);
      RoomyInsertKeeps(InsertEach(c, front), e.key, e.value);
    }
  }

  /** Inserts outputs until one meets a full shard; `done` of them went in. */
  method InsertTx(cache: UtxoCache, tx: Tx, classify: Classifier) returns (ok: bool, ghost done: nat)
    requires cache.Valid()
    modifies cache`shards, cache`inserts
    ensures cache.Valid() && done <= |tx.outputs|
    ensures Grown(old(cache.State()), cache.State(), TxEntries(tx, done, classify))
    ensures if ok then done == |tx.outputs| else done < |tx.outputs| && SomeShardFull(cache.State())
  {
    ghost var c := cache.State();
    for i := 0 to |tx.outputs|
      invariant cache.Valid() && Grown(c, cache.State(), TxEntries(tx, i, classify))
    {
      ghost var d := cache.State();
      var e := CoarseEntry(tx, i, classify);
      var inserted := cache.InsertPrewarm(e.key, e.value);
      if !inserted {
        return false, i;
      }
      GrownByOne(d, e);
      GrownOn(c, d, cache.State(), TxEntries(tx, i, classify), [e]);
      assert TxEntries(tx, i + 1, classify) == TxEntries(tx, i, classify) + [e];
    }
    ok, done := true, |tx.outputs|;
  }

  /** The entries of a block that went in before a shard was found full. */
  ghost predicate PrefixOf(some: seq<Entry>, all: seq<Entry>) {
    |some| <= |all| && some == all[..|some|]
  }

  lemma {:induction false} TxsEntriesGrow(txs: seq<Tx>, i: nat, n: nat, classify: Classifier)
    requires i < |txs| && n <= |txs[i].outputs|
    ensures TxsEntries(txs[..i + 1], classify) == TxsEntries(txs[..i], classify)
            + TxEntries(txs[i], |txs[i].outputs|, classify)
    ensures PrefixOf(TxsEntries(txs[..i], classify) + TxEntries(txs[i], n, classify), TxsEntries(txs, classify))
    decreases |txs|
  {
    assert txs[..i + 1][..i] == txs[..i];
    var all := TxEntries(txs[i], |txs[i].outputs|, classify);
    assert TxEntries(txs[i], n, classify) == all[..n];
    if i == |txs| - 1 {
      assert txs[..i + 1] == txs;
    } else {
      var front := txs[..|txs| - 1];
      assert front[..i] == txs[..i];
      TxsEntriesGrow(front, i, n, classify);
    }
  }

  method InsertBlock(cache: UtxoCache, b: Block, classify: Classifier) returns (ok: bool, ghost some: seq<Entry>)
    requires cache.Valid()
    modifies cache`shards, cache`inserts
    ensures cache.Valid() && PrefixOf(some, BlockEntries(b, classify))
    ensures Grown(old(cache.State()), cache.State(), some)
    ensures if ok then some == BlockEntries(b, classify) else SomeShardFull(cache.State())
  {
    ghost var c := cache.State();
    some := [];
    for i := 0 to |b.txs|
      invariant cache.Valid() && some == TxsEntries(b.txs[..i], classify)
      invariant Grown(c, cache.State(), some)
    {
      ghost var d, done := cache.State(), 0;
      ok, done := InsertTx(cache, b.txs[i], classify);
      TxsEntriesGrow(b.txs, i, done, classify);
      GrownOn(c, d, cache.State(), some, TxEntries(b.txs[i], done, classify));
      some := some + TxEntries(b.txs[i], done, classify);
      if !ok {
        return;
      }
    }
    assert b.txs[..|b.txs|] == b.txs;
    ok := true;
  }

  /**
    The cache `d` is `c` after the outputs of the `n` blocks just below `start` and
    `some` more went in, in that order and without an eviction.
    */
  ghost predicate Walked(c: CacheState, d: CacheState, index: Index, start: nat, n: nat, some: seq<Entry>, feed: Feed) {
    && n <= start
    && (forall h :: start - n <= h < start ==> Loaded(index, h))
    && Grown(c, d, WalkEntries(feed, start, n) + some)
  }

  lemma WalkedNowhere(c: CacheState, index: Index, start: nat, feed: Feed)
    requires |c.shards| == NUM_SHARDS
    ensures Walked(c, c, index, start, 0, [], feed)
  {
  }

  lemma WalkedOn(c: CacheState, d: CacheState, e: CacheState, index: Index, start: nat, n: nat, some: seq<Entry>,
                 feed: Feed)
    requires Walked(c, d, index, start, n, [], feed) && Grown(d, e, some)
    ensures Walked(c, e, index, start, n, some, feed)
    ensures n < start && Loaded(index, start - 1 - n) && some == feed(start - 1 - n) ==>
              Walked(c, e, index, start, n + 1, [], feed)
  {
    var walk := WalkEntries(feed, start, n);
    assert walk + [] == walk;
    GrownOn(c, d, e, walk, some);
    if n < start && Loaded(index, start - 1 - n) && some == feed(start - 1 - n) {
      assert WalkEntries(feed, start, n + 1) == walk + some;
      assert walk + some + [] == walk + some;
    }
  }

  /** Why a walk that went down `n` blocks ended. */
  ghost predicate NothingMore(d: CacheState, index: Index, start: nat, n: nat, maxBlocks: nat)
    requires |d.shards| == NUM_SHARDS
  {
    n == maxBlocks || n + 1 >= start || start - 1 - n !in index || SomeShardFull(d)
  }

  /** The next block to visit could not be loaded. */
  ghost predicate BrokenAt(index: Index, start: nat, n: nat, error: string) {
    n < start && start - 1 - n in index && index[start - 1 - n] == Failure(error)
  }

  ghost predicate AllTrue(feed: Feed, out: Resolved) {
    forall h :: EntriesTrue(feed(h), out, false)
  }

  /**
    Prewarming never evicts. On return `n`, the cache has received precisely the
    outputs of the `n` blocks just below `start`, and possibly some of the next
    block before a shard was full; all of them are cached, every key cached before
    still is, and what was true of the amounts still is. `n` falls short of
    `maxBlocks` only at the lowest block, at a height without a block, or when
    some shard is full. It fails only if preloading or loading the next block fails.
    */
  method PrewarmCache(cache: UtxoCache, start: u32, maxBlocks: u32, preloadFails: bool, index: Index,
                      classify: Classifier,
                      ghost caps: seq<nat>, ghost out: Resolved, ghost feed: Feed)
    returns (r: Result<nat, string>, ghost n: nat, ghost some: seq<Entry>)
    requires Feeds(feed, index, classify) && AllTrue(feed, out)
    requires Good(cache.State(), caps, out, false)
    modifies cache`shards, cache`inserts
    ensures Good(cache.State(), caps, out, false)
    ensures Walked(old(cache.State()), cache.State(), index, start, n, some, feed)
    ensures Kept(old(cache.State()), cache.State())
    ensures AllCached(cache.State(), WalkEntries(feed, start, n))
    ensures n <= start && (start > 0 ==> n < start)
    ensures some != [] ==> n < start && PrefixOf(some, feed(start - 1 - n))
    ensures r.Success? ==> r.value == n <= maxBlocks && NothingMore(cache.State(), index, start, n, maxBlocks)
    ensures r.Failure? ==>
              start > 0 && some == [] && (if preloadFails then n == 0 else BrokenAt(index, start, n, r.error))
    ensures preloadFails && start > 0 ==> r.Failure?
  {
    ghost var c := cache.State();
    if start == 0 || preloadFails {
      WalkedNowhere(c, index, start, feed);
      r, n, some := if start == 0 then Success(0) else Failure("index"), 0, [];
    } else {
      r, n, some := WalkDown(cache, start, maxBlocks, index, classify, feed);
    }
    WalkKeeps(c, cache.State(), caps, out, index, start, n, some, feed);
  }

  lemma WalkKeeps(c: CacheState, d: CacheState, caps: seq<nat>, out: Resolved,
                  index: Index, start: nat, n: nat, some: seq<Entry>, feed: Feed)
    requires Good(c, caps, out, false) && AllTrue(feed, out)
    requires Walked(c, d, index, start, n, some, feed)
    requires some != [] ==> n < start && PrefixOf(some, feed(start - 1 - n))
    ensures Good(d, caps, out, false) && Kept(c, d) && AllCached(d, WalkEntries(feed, start, n))
  {
    var walk := WalkEntries(feed, start, n);
    GrownKeeps(c, d, walk + some);
    forall e | e in walk + some
      ensures e.key in out && Matches(e.value, out[e.key], false)
    {
      if e in walk {
        WalkOrigin(feed, start, n, e);
      } else {
        assert e in feed(start - 1 - n);
      }
    }
    InsertEachStaysGood(c, caps, out, false, walk + some);
  }

  /** Whether the walk goes on to the block at `current`. */
  method GoesOn(cache: UtxoCache, current: nat, loaded: nat, maxBlocks: nat) returns (r: bool)
    requires cache.Valid()
    ensures r ==> loaded < maxBlocks && current > 0
    ensures !r ==> loaded >= maxBlocks || current == 0 || SomeShardFull(cache.State())
  {
    var room := cache.HasCapacity();
    if !room {
      assert |cache.shards[0].entries| >= cache.shards[0].cap;
    }
    r := room && loaded < maxBlocks && current > 0;
  }

  method WalkDown(cache: UtxoCache, start: u32, maxBlocks: u32, index: Index, classify: Classifier, ghost feed: Feed)
    returns (r: Result<nat, string>, ghost n: nat, ghost some: seq<Entry>)
    requires cache.Valid() && start > 0 && Feeds(feed, index, classify)
    modifies cache`shards, cache`inserts
    ensures cache.Valid()
    ensures n < start && Walked(old(cache.State()), cache.State(), index, start, n, some, feed)
    ensures some != [] ==> PrefixOf(some, feed(start - 1 - n))
    ensures r.Success? ==> r.value == n <= maxBlocks && NothingMore(cache.State(), index, start, n, maxBlocks)
    ensures r.Failure? ==> some == [] && BrokenAt(index, start, n, r.error)
  {
    ghost var c := cache.State();
    WalkedNowhere(c, index, start, feed);
    var loaded, current, next := 0, start - 1, GoOn;
    n, some := 0, [];
    while next.GoOn?
      invariant loaded == n <= maxBlocks && current == start - 1 - n && n < start
      invariant cache.Valid() && Walked(c, cache.State(), index, start, n, some, feed)
      invariant Ends(next, some, cache.State(), index, start, n, maxBlocks, feed)
      decreases next.GoOn?, current
    {
      next, n, some := WalkStep(cache, current, loaded, maxBlocks, index, classify, c, start, n, feed);
      if next.GoOn? {
        loaded, current := loaded + 1, current - 1;
      }
    }
    r := if next.Stop? then Success(loaded) else Failure(next.error);
  }

  datatype Next = GoOn | Stop | Broken(error: string)

  /** What is known when the walk is to go on, has stopped or is broken. */
  ghost predicate Ends(next: Next, some: seq<Entry>, d: CacheState, index: Index, start: nat, n: nat, maxBlocks: nat,
                       feed: Feed)
    requires |d.shards| == NUM_SHARDS
  {
    match next
    case GoOn => some == []
    case Stop => NothingMore(d, index, start, n, maxBlocks)
      && (some != [] ==> n < start && PrefixOf(some, feed(start - 1 - n)))
    case Broken(error) => some == [] && BrokenAt(index, start, n, error)
  }

  /** One round of the walk: the checks, the load and the visit to the block at `current`. */
  method WalkStep(cache: UtxoCache, current: nat, loaded: nat, maxBlocks: nat, index: Index, classify: Classifier,
                  ghost c: CacheState, ghost start: nat, ghost n: nat, ghost feed: Feed)
    returns (next: Next, ghost m: nat, ghost some: seq<Entry>)
    requires Feeds(feed, index, classify)
    requires cache.Valid() && n < start && current == start - 1 - n && loaded == n <= maxBlocks
    requires Walked(c, cache.State(), index, start, n, [], feed)
    modifies cache`shards, cache`inserts
    ensures cache.Valid()
    ensures next.GoOn? ==> 0 < current && loaded < maxBlocks
    ensures m == (if next.GoOn? then n + 1 else n) < start
    ensures Walked(c, cache.State(), index, start, m, some, feed)
            && Ends(next, some, cache.State(), index, start, m, maxBlocks, feed)
  {
    m, some := n, [];
    var more := GoesOn(cache, current, loaded, maxBlocks);
    if !more || current !in index {
      return Stop, n, some;
    }
    if index[current].Failure? {
      return Broken(index[current].error), n, some;
    }
    var ok;
    ok, some := WalkBlock(cache, index[current].value, index, classify, c, start, n, feed);
    if ok {
      next, m, some := GoOn, n + 1, [];
    } else {
      next := Stop;
    }
  }

  /** The visit to the highest block not yet visited, the one at `start - 1 - n`. */
  method WalkBlock(cache: UtxoCache, b: Block, ghost index: Index, classify: Classifier,
                   ghost c: CacheState, ghost start: nat, ghost n: nat, ghost feed: Feed)
    returns (ok: bool, ghost some: seq<Entry>)
    requires n < start && Loaded(index, start - 1 - n) && feed(start - 1 - n) == BlockEntries(b, classify)
    requires cache.Valid() && Walked(c, cache.State(), index, start, n, [], feed)
    modifies cache`shards, cache`inserts
    ensures cache.Valid()
    ensures if ok then Walked(c, cache.State(), index, start, n + 1, [], feed)
            else Walked(c, cache.State(), index, start, n, some, feed) && SomeShardFull(cache.State())
    ensures PrefixOf(some, feed(start - 1 - n))
  {
    ghost var d := cache.State();
    ok, some := InsertBlock(cache, b, classify);
    WalkedOn(c, d, cache.State(), index, start, n, some, feed);
  }

  /** A prewarmed output is found with its amount, until later insertions push it out. */
  lemma PrewarmedAmounts(c: CacheState, d: CacheState, caps: seq<nat>, out: Resolved,
                         index: Index, start: nat, n: nat, some: seq<Entry>, feed: Feed, e: Entry)
    requires ValidCache(c) && Walked(c, d, index, start, n, some, feed) && Good(d, caps, out, false)
             && AllTrue(feed, out)
    requires e in WalkEntries(feed, start, n) + some
    requires some != [] ==> n < start && PrefixOf(some, feed(start - 1 - n))
    ensures Lookup(d, e.key).Some? && Lookup(d, e.key).value.amount == e.value.amount
  {
    var all := WalkEntries(feed, start, n) + some;
    GrownKeeps(c, d, all);
    if e !in some {
      WalkOrigin(feed, start, n, e);
    }
  }

  lemma {:induction false} WalkOrigin(feed: Feed, start: nat, n: nat, e: Entry)
    requires e in WalkEntries(feed, start, n)
    ensures exists h :: start - n <= h < start && e in feed(h)
  {
    if e !in feed(start - n) {
      WalkOrigin(feed, start, n - 1, e);
    }
  }
}
