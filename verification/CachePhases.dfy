/** What ingestion does to the cache, from its first read to the removal of what was spent. */
module CachePhases {
  import opened Types
  import opened Lru
  import opened Chain
  import opened Aggregation
  import opened Cache
  import opened Coherence
  import opened Writer
  import opened Chunking
  import opened Ingestion

  function NewKeys(items: seq<Item>): set<UtxoKey> {
    KeysOfRows(OutputRows(TxsOf(items)))
  }

  /** The outputs of a chunk in the order in which it caches them. */
  function ChunkEntries(chunk: seq<Item>): seq<Entry> {
    EntriesOf(OutputRows(TxsOf(chunk)))
  }

  lemma KeysInTable(outputs: seq<OutputData>, k: UtxoKey)
    ensures k in KeysOfRows(outputs) <==> FindOutput(outputs, k).Some?
  {
    FindOutputFinds(outputs, k);
  }

  /** After Phase 2, of the keys that were not cached before precisely the surviving outputs of the chunk are. */
  lemma FreshOutputsCached(c: CacheState, caps: seq<nat>, out: Resolved, exact: bool, chunk: seq<Item>)
    requires Good(c, caps, out, exact)
    ensures forall k :: Lookup(c, k).None? ==> (Lookup(InsertEach(c, ChunkEntries(chunk)), k).Some? <==>
                                                Survives(caps, ChunkEntries(chunk), k))
    ensures forall k :: Survives(caps, ChunkEntries(chunk), k) ==> Lookup(InsertEach(c, ChunkEntries(chunk)), k).Some?
  {
    var es := ChunkEntries(chunk);
    forall k
      ensures k in KeysOf(es) ==> (Lookup(InsertEach(c, es), k).Some? <==> Survives(caps, es, k))
      ensures k !in KeysOf(es) && Lookup(c, k).None? ==> Lookup(InsertEach(c, es), k).None?
    {
      if k in KeysOf(es) {
        CachedIffSurvives(c, es, k);
      } else {
        OnlyInserted(c, es, k);
      }
    }
  }

  // ------------------------------------------------------------------
  // Prefetching
  // ------------------------------------------------------------------

  /**
    The cache after the prefetch, from the cache after the batched read: the misses that
    the table has are inserted, and those it lacks are taken off the miss counter.
    */
  function AfterPrefetch(read: CacheState, misses: seq<UtxoKey>, outputs: seq<OutputData>): (d: CacheState)
    requires |read.shards| == NUM_SHARDS
    ensures |d.shards| == NUM_SHARDS
  {
    Corrected(InsertEach(read, Fetched(outputs, misses)), |misses| - |FoundRows(outputs, misses)|)
  }

  function Corrected(c: CacheState, count: int): CacheState {
    c.(stats := c.stats.(misses := c.stats.misses - count))
  }

  /** The cache after prefetching for a chunk. */
  function PrefetchedCache(c: CacheState, outputs: seq<OutputData>, chunk: seq<Item>): (d: CacheState)
    requires |c.shards| == NUM_SHARDS
    ensures |d.shards| == NUM_SHARDS
  {
    var keys := CollectInputKeys(chunk);
    AfterPrefetch(Each(Reading, c, keys), Misses(c, keys), outputs)
  }

  /** What a chunk's prefetch returns: the inputs that are cached or stored. */
  function PrefetchedSet(c: CacheState, outputs: seq<OutputData>, chunk: seq<Item>): set<UtxoKey>
    requires |c.shards| == NUM_SHARDS
  {
    set k | k in CollectInputKeys(chunk) && (Lookup(c, k).Some? || k in KeysOfRows(outputs))
  }

  /** The cache after the later phases of a chunk: inputs not yet had are looked up, then all inputs go out. */
  function Spent(c: CacheState, have: set<UtxoKey>, keys: seq<UtxoKey>): (d: CacheState)
    requires |c.shards| == NUM_SHARDS
    ensures |d.shards| == NUM_SHARDS
  {
    Each(Removing, Supplied(c, have, keys), keys)
  }

  /** The cache after the phases of a chunk: its outputs go in, its inputs go out. */
  function AfterPhases(c: CacheState, have: set<UtxoKey>, chunk: seq<Item>): (d: CacheState)
    requires |c.shards| == NUM_SHARDS
    ensures |d.shards| == NUM_SHARDS
  {
    Spent(InsertEach(c, ChunkEntries(chunk)), have, CollectInputKeys(chunk))
  }

  /** The cache after a whole chunk, given the output table before it. */
  function ChunkCached(c: CacheState, outputs: seq<OutputData>, chunk: seq<Item>): (d: CacheState)
    requires |c.shards| == NUM_SHARDS
    ensures |d.shards| == NUM_SHARDS
  {
    AfterPhases(PrefetchedCache(c, outputs, chunk), PrefetchedSet(c, outputs, chunk), chunk)
  }

  /** The cache after a batched lookup with fallback that resolves every key. */
  function LookedUp(c: CacheState, keys: seq<UtxoKey>, outputs: seq<OutputData>): (d: CacheState)
    requires |c.shards| == NUM_SHARDS
    ensures |d.shards| == NUM_SHARDS
  {
    AfterFallback(Each(Reading, c, keys), Misses(c, keys), outputs, true)
  }

  function LookedUpAndSpent(c: CacheState, keys: seq<UtxoKey>, outputs: seq<OutputData>): (d: CacheState)
    requires |c.shards| == NUM_SHARDS
    ensures |d.shards| == NUM_SHARDS
  {
    Each(Removing, LookedUp(c, keys, outputs), keys)
  }

  /** The cache after a single block: its outputs go in, its inputs are looked up and go out. */
  function BlockCached(c: CacheState, outputs: seq<OutputData>, item: Item): (d: CacheState)
    requires |c.shards| == NUM_SHARDS
    ensures |d.shards| == NUM_SHARDS
  {
    LookedUpAndSpent(InsertEach(c, ChunkEntries([item])), CollectInputKeys([item]),
                     outputs + OutputRows(TxsOf([item])))
  }

  predicate Within(ranges: seq<Range>, n: nat) {
    forall i :: 0 <= i < |ranges| ==> ranges[i].start <= ranges[i].end <= n
  }

  lemma PartitionIsWithin(memory: seq<nat>, budget: nat, ranges: seq<Range>)
    requires Partition(memory, budget, ranges)
    ensures Within(ranges, |memory|)
  {
    forall i | 0 <= i < |ranges|
      ensures ranges[i].start <= ranges[i].end <= |memory|
    {
      assert Fits(memory, budget, ranges, i);
    }
  }

  /** Chunk `i`. */
  function Part(items: seq<Item>, ranges: seq<Range>, i: nat): seq<Item>
    requires i < |ranges| && Within(ranges, |items|)
  {
    items[ranges[i].start..ranges[i].end]
  }

  /** The output table after the first `n` chunks. */
  function OutputsAfter(outputs: seq<OutputData>, items: seq<Item>, ranges: seq<Range>, n: nat): seq<OutputData>
    requires n <= |ranges| && Within(ranges, |items|)
  {
    if n == 0 then outputs
    else OutputsAfter(outputs, items, ranges, n - 1) + OutputRows(TxsOf(Part(items, ranges, n - 1)))
  }

  /** What a chunk does to the cache, given the output table. */
  type ChunkStep = (CacheState, seq<OutputData>, seq<Item>) -> CacheState

  function WholeChunk(c: CacheState, outputs: seq<OutputData>, chunk: seq<Item>): CacheState {
    if |c.shards| == NUM_SHARDS then ChunkCached(c, outputs, chunk) else c
  }

  function RunChunks(step: ChunkStep, c: CacheState, outputs: seq<OutputData>, items: seq<Item>, ranges: seq<Range>,
                     n: nat): CacheState
    requires n <= |ranges| && Within(ranges, |items|)
  {
    if n == 0 then c
    else
      step(RunChunks(step, c, outputs, items, ranges, n - 1), OutputsAfter(outputs, items, ranges, n - 1),
           Part(items, ranges, n - 1))
  }

  /** The cache after the first `n` chunks, given the output table before them. */
  function BatchCached(c: CacheState, outputs: seq<OutputData>, items: seq<Item>, ranges: seq<Range>, n: nat)
    : CacheState
    requires n <= |ranges| && Within(ranges, |items|)
  {
    RunChunks(WholeChunk, c, outputs, items, ranges, n)
  }

  /** What holds of the cache and the output table after so many chunks. */
  type CacheTrack = (CacheState, seq<OutputData>, int) -> bool

  /** Each chunk carries `track` on. */
  ghost predicate Tracking(step: ChunkStep, track: CacheTrack, items: seq<Item>, ranges: seq<Range>)
    requires Within(ranges, |items|)
  {
    forall c: CacheState, outputs: seq<OutputData>, i {:trigger track(c, outputs, i), Part(items, ranges, i)} ::
      0 <= i < |ranges| && track(c, outputs, i) ==>
        track(step(c, outputs, Part(items, ranges, i)), outputs + OutputRows(TxsOf(Part(items, ranges, i))), i + 1)
  }

  ghost function RunTrack(step: ChunkStep, c0: CacheState, outputs0: seq<OutputData>, items: seq<Item>,
                          ranges: seq<Range>): CacheTrack
    requires Within(ranges, |items|)
  {
    (c: CacheState, outputs: seq<OutputData>, n: int) =>
      0 <= n <= |ranges| && c == RunChunks(step, c0, outputs0, items, ranges, n)
      && outputs == OutputsAfter(outputs0, items, ranges, n)
  }

  lemma RunIsTracked(step: ChunkStep, c0: CacheState, outputs0: seq<OutputData>, items: seq<Item>, ranges: seq<Range>)
    requires Within(ranges, |items|)
    ensures Tracking(step, RunTrack(step, c0, outputs0, items, ranges), items, ranges)
    ensures RunTrack(step, c0, outputs0, items, ranges)(c0, outputs0, 0)
  {
  }

  lemma TrackedNext(step: ChunkStep, track: CacheTrack, c: CacheState, outputs: seq<OutputData>, items: seq<Item>,
                    ranges: seq<Range>, m: nat, n: nat)
    requires n == m + 1 <= |ranges| && Within(ranges, |items|) && Tracking(step, track, items, ranges)
    requires track(RunChunks(step, c, outputs, items, ranges, m), OutputsAfter(outputs, items, ranges, m), m)
    ensures track(RunChunks(step, c, outputs, items, ranges, n), OutputsAfter(outputs, items, ranges, n), n)
  {
    var chunk := Part(items, ranges, m);
  }

  /** What every chunk carries on holds after a run of chunks. */
  lemma {:induction false} TrackedThroughout(step: ChunkStep, track: CacheTrack, c: CacheState,
                                             outputs: seq<OutputData>, items: seq<Item>, ranges: seq<Range>, n: nat)
    requires n <= |ranges| && Within(ranges, |items|)
    requires Tracking(step, track, items, ranges) && track(c, outputs, 0)
    ensures track(RunChunks(step, c, outputs, items, ranges, n), OutputsAfter(outputs, items, ranges, n), n)
  {
    if n > 0 {
      var m: nat := n - 1;
      TrackedThroughout(step, track, c, outputs, items, ranges, m);
      TrackedNext(step, track, c, outputs, items, ranges, m, n);
    }
  }

  lemma {:induction false} SuppliedAlike(c: CacheState, a: set<UtxoKey>, b: set<UtxoKey>, keys: seq<UtxoKey>)
    requires |c.shards| == NUM_SHARDS && forall k :: k in keys ==> (k in a <==> k in b)
    ensures Supplied(c, a, keys) == Supplied(c, b, keys)
  {
    if keys != [] {
      var before := keys[..|keys| - 1];
      assert keys[|keys| - 1] in keys && forall k :: k in before ==> k in keys;
      SuppliedAlike(c, a, b, before);
    }
  }

  lemma PrefetchedIsHad(c: CacheState, outputs: seq<OutputData>, chunk: seq<Item>, m: Resolved)
    requires |c.shards| == NUM_SHARDS && PrefetchedKeys(c, outputs, CollectInputKeys(chunk), m)
    ensures AfterPhases(PrefetchedCache(c, outputs, chunk), m.Keys, chunk) == ChunkCached(c, outputs, chunk)
  {
    SuppliedAlike(InsertEach(PrefetchedCache(c, outputs, chunk), ChunkEntries(chunk)), m.Keys,
                  PrefetchedSet(c, outputs, chunk), CollectInputKeys(chunk));
  }

  /** Of the keys asked for, precisely the cached and the stored ones are resolved. */
  ghost predicate PrefetchedKeys(c: CacheState, outputs: seq<OutputData>, keys: seq<UtxoKey>, m: Resolved)
    requires |c.shards| == NUM_SHARDS
  {
    forall k :: k in keys ==> (k in m <==> Lookup(c, k).Some? || k in KeysOfRows(outputs))
  }

  lemma NoKeys(c: CacheState)
    requires |c.shards| == NUM_SHARDS
    ensures Misses(c, []) == [] && Each(Reading, c, []) == c
  {
    RegroupedPermutes([]);
  }

  lemma NothingMissed(c: CacheState, keys: seq<UtxoKey>, found: Resolved, outputs: seq<OutputData>)
    requires |c.shards| == NUM_SHARDS && found == FoundOf(c, keys) && forall k :: k in keys ==> k in found
    ensures PrefetchedKeys(c, outputs, keys, found)
  {
  }

  lemma SomeMissed(c: CacheState, keys: seq<UtxoKey>, found: Resolved, missed: seq<UtxoKey>, outputs: seq<OutputData>,
                   m: Resolved)
    requires |c.shards| == NUM_SHARDS && found == FoundOf(c, keys) && Adds(m, found, missed, outputs)
    requires forall k :: k in keys <==> k in found || k in missed
    ensures PrefetchedKeys(c, outputs, keys, m)
  {
    forall k | k in keys
      ensures k in m <==> Lookup(c, k).Some? || k in KeysOfRows(outputs)
    {
      KeysInTable(outputs, k);
    }
  }

  /** What is cached after the prefetch has been prefetched. */
  lemma CachedIsPrefetched(c: CacheState, caps: seq<nat>, out: Resolved, exact: bool, outputs: seq<OutputData>,
                           keys: seq<UtxoKey>, misses: seq<UtxoKey>, m: Resolved)
    requires Good(c, caps, out, exact) && PrefetchedKeys(c, outputs, keys, m)
    ensures forall k :: k in keys && Lookup(AfterPrefetch(Each(Reading, c, keys), misses, outputs), k).Some? ==> k in m
  {
    var read, es := Each(Reading, c, keys), Fetched(outputs, misses);
    EachEffect(Reading, c, keys);
    FetchedKeys(outputs, misses);
    forall k | k in keys && Lookup(InsertEach(read, es), k).Some?
      ensures k in m
    {
      KeysInTable(outputs, k);
      if k !in KeysOf(es) {
        OnlyInserted(read, es, k);
      }
    }
  }

  // ------------------------------------------------------------------
  // What the phases leave in the cache
  // ------------------------------------------------------------------

  /** The keys of the list that are cached. */
  function Held(c: CacheState, keys: seq<UtxoKey>): set<UtxoKey>
    requires |c.shards| == NUM_SHARDS
  {
    set k | k in keys && Lookup(c, k).Some?
  }

  lemma {:induction false} RemovalsCount(c: CacheState, keys: seq<UtxoKey>)
    requires ValidCache(c)
    ensures Each(Removing, c, keys).stats == c.stats.(removals := c.stats.removals + |Held(c, keys)|)
  {
    if keys != [] {
      var before, k := keys[..|keys| - 1], keys[|keys| - 1];
      assert keys == before + [k];
      RemovalsCount(c, before);
      EachEffect(Removing, c, before);
      if k !in before && Lookup(c, k).Some? {
        assert Held(c, keys) == Held(c, before) + {k};
      } else {
        assert Held(c, keys) == Held(c, before);
      }
    }
  }

  lemma {:induction false} ReadsCount(c: CacheState, keys: seq<UtxoKey>)
    requires ValidCache(c)
    ensures |MissingOf(c, keys)| <= |keys|
    ensures Each(Reading, c, keys).stats == c.stats.(hits := c.stats.hits + (|keys| - |MissingOf(c, keys)|),
                                                     misses := c.stats.misses + |MissingOf(c, keys)|)
  {
    if keys != [] {
      ReadsCount(c, keys[..|keys| - 1]);
      EachEffect(Reading, c, keys[..|keys| - 1]);
    }
  }

  lemma MissesCount(c: CacheState, keys: seq<UtxoKey>)
    requires |c.shards| == NUM_SHARDS
    ensures |Misses(c, keys)| == |MissingOf(c, keys)|
  {
    RegroupedFoundAndMissing(c, keys);
    assert |multiset(Misses(c, keys))| == |multiset(MissingOf(c, keys))|;
  }

  lemma {:induction false} InsertsCount(c: CacheState, es: seq<Entry>)
    requires |c.shards| == NUM_SHARDS
    ensures InsertEach(c, es).stats == c.stats.(inserts := c.stats.inserts + |es|)
  {
    if es != [] {
      InsertsCount(c, es[..|es| - 1]);
    }
  }

  lemma {:induction false} FetchedCount(outputs: seq<OutputData>, ks: seq<UtxoKey>)
    ensures |Fetched(outputs, ks)| == |FoundRows(outputs, ks)|
  {
    if ks != [] {
      FetchedCount(outputs, ks[..|ks| - 1]);
    }
  }

  /** Quiet reads change neither what is cached nor the counters. */
  lemma {:induction false} SuppliedEffect(c: CacheState, have: set<UtxoKey>, keys: seq<UtxoKey>)
    requires ValidCache(c)
    ensures ValidCache(Supplied(c, have, keys)) && Caps(Supplied(c, have, keys)) == Caps(c)
    ensures SameMap(c, Supplied(c, have, keys)) && Supplied(c, have, keys).stats == c.stats
  {
    if keys != [] {
      var before, k := keys[..|keys| - 1], keys[|keys| - 1];
      SuppliedEffect(c, have, before);
      QuietReadEffect(Supplied(c, have, before), k);
    }
  }

  lemma QuietReadEffect(c: CacheState, k: UtxoKey)
    requires ValidCache(c)
    ensures ValidCache(QuietRead(c, k)) && Caps(QuietRead(c, k)) == Caps(c)
    ensures SameMap(c, QuietRead(c, k))
  {
    StepEffect(Reading, c, k);
    assert QuietRead(c, k).shards == Step(Reading, c, k).shards;
  }

  /** The spent keys go, all others are cached as before; as many removals count as spent keys were cached. */
  ghost predicate Removed(d: CacheState, r: CacheState, keys: seq<UtxoKey>)
    requires |d.shards| == |r.shards| == NUM_SHARDS
  {
    && ValidCache(r) && Caps(r) == Caps(d)
    && (forall k :: k in keys ==> Lookup(r, k).None?)
    && (forall k :: k !in keys ==> Lookup(r, k) == Lookup(d, k))
    && r.stats == d.stats.(removals := d.stats.removals + |Held(d, keys)|)
  }

  lemma SpentEffect(c: CacheState, have: set<UtxoKey>, keys: seq<UtxoKey>)
    requires ValidCache(c)
    ensures Removed(c, Spent(c, have, keys), keys)
  {
    var d := Supplied(c, have, keys);
    SuppliedEffect(c, have, keys);
    EachEffect(Removing, d, keys);
    RemovalsCount(d, keys);
    assert Held(d, keys) == Held(c, keys);
  }

  lemma PrefetchedEffect(c: CacheState, outputs: seq<OutputData>, chunk: seq<Item>)
    requires ValidCache(c)
    ensures ValidCache(PrefetchedCache(c, outputs, chunk)) && Caps(PrefetchedCache(c, outputs, chunk)) == Caps(c)
    ensures forall k :: k !in CollectInputKeys(chunk) && Lookup(PrefetchedCache(c, outputs, chunk), k).Some? ==>
                          Lookup(c, k).Some?
  {
    var keys := CollectInputKeys(chunk);
    var read, es := Each(Reading, c, keys), Fetched(outputs, Misses(c, keys));
    EachEffect(Reading, c, keys);
    InsertEachStaysValid(read, es);
    forall k | k !in keys && Lookup(InsertEach(read, es), k).Some?
      ensures Lookup(c, k).Some?
    {
      FetchedAsked(c, outputs, keys);
      OnlyInserted(read, es, k);
    }
  }

  lemma FetchedAsked(c: CacheState, outputs: seq<OutputData>, keys: seq<UtxoKey>)
    requires |c.shards| == NUM_SHARDS
    ensures forall k :: k in KeysOf(Fetched(outputs, Misses(c, keys))) ==> k in keys && Lookup(c, k).None?
  {
    var misses := Misses(c, keys);
    FetchedKeys(outputs, misses);
    RegroupedPermutes(keys);
    forall k | k in misses
      ensures k in keys && Lookup(c, k).None?
    {
      MissingMember(c, Regrouped(keys, NUM_SHARDS), k);
      assert k in multiset(keys);
    }
  }

  /**
    A committed chunk leaves nothing cached that it spends, and everything else as it was
    when its outputs had been inserted: of its unspent outputs precisely the surviving ones
    are cached, and of other keys none that was not cached before the chunk.
    */
  lemma ChunkEffect(c: CacheState, outputs: seq<OutputData>, chunk: seq<Item>)
    requires ValidCache(c)
    ensures Removed(InsertEach(PrefetchedCache(c, outputs, chunk), ChunkEntries(chunk)), ChunkCached(c, outputs, chunk),
                    CollectInputKeys(chunk))
    ensures forall k :: k !in CollectInputKeys(chunk) && k in NewKeys(chunk) ==>
                          (Lookup(ChunkCached(c, outputs, chunk), k).Some? <==>
                           Survives(Caps(c), ChunkEntries(chunk), k))
    ensures forall k :: k !in CollectInputKeys(chunk) && k !in NewKeys(chunk)
                        && Lookup(ChunkCached(c, outputs, chunk), k).Some? ==>
                          Lookup(c, k).Some?
  {
    var p, es := PrefetchedCache(c, outputs, chunk), ChunkEntries(chunk);
    PrefetchedEffect(c, outputs, chunk);
    InsertEachStaysValid(p, es);
    SpentEffect(InsertEach(p, es), PrefetchedSet(c, outputs, chunk), CollectInputKeys(chunk));
    EntriesOfRows(OutputRows(TxsOf(chunk)), map[], false);
    forall k
      ensures k in NewKeys(chunk) ==> (Lookup(InsertEach(p, es), k).Some? <==> Survives(Caps(c), es, k))
      ensures k !in NewKeys(chunk) && Lookup(InsertEach(p, es), k).Some? ==> Lookup(p, k).Some?
    {
      if k in NewKeys(chunk) {
        CachedIffSurvives(p, es, k);
      } else {
        OnlyInserted(p, es, k);
      }
    }
  }

  /**
    What a committed chunk adds to the counters: a hit for each input found cached by the
    prefetch, a miss for each other one that the table has, an insertion for each of these
    and for each output, a removal for each distinct input cached after its outputs were.
    */
  lemma ChunkCounts(c: CacheState, outputs: seq<OutputData>, chunk: seq<Item>)
    requires ValidCache(c)
    ensures var keys, es, st := CollectInputKeys(chunk), ChunkEntries(chunk), c.stats;
            var misses := Misses(c, keys);
            var stored := |FoundRows(outputs, misses)|;
            && |misses| == |MissingOf(c, keys)| <= |keys|
            && ChunkCached(c, outputs, chunk).stats ==
                 st.(hits := st.hits + (|keys| - |misses|), misses := st.misses + stored,
                     inserts := st.inserts + stored + |es|,
                     removals := st.removals + |Held(InsertEach(PrefetchedCache(c, outputs, chunk), es), keys)|)
  {
    var keys := CollectInputKeys(chunk);
    ChunkEffect(c, outputs, chunk);
    ReadsCount(c, keys);
    MissesCount(c, keys);
    FetchedCount(outputs, Misses(c, keys));
    InsertsCount(Each(Reading, c, keys), Fetched(outputs, Misses(c, keys)));
    InsertsCount(PrefetchedCache(c, outputs, chunk), ChunkEntries(chunk));
  }

  /**
    A block ingested on its own leaves nothing cached that it spends, and everything else as
    it was when its inputs had been looked up; without a miss, as it was when its outputs
    had been inserted.
    */
  lemma BlockEffect(c: CacheState, outputs: seq<OutputData>, item: Item)
    requires ValidCache(c)
    ensures var keys, d := CollectInputKeys([item]), InsertEach(c, ChunkEntries([item]));
            var looked, r := LookedUp(d, keys, outputs + OutputRows(TxsOf([item]))), BlockCached(c, outputs, item);
            && Removed(looked, r, keys)
            && (forall k :: k !in keys && Lookup(r, k).Some? ==> Lookup(d, k).Some?)
            && (Misses(d, keys) == [] ==> SameMap(looked, d))
  {
    var keys, d := CollectInputKeys([item]), InsertEach(c, ChunkEntries([item]));
    InsertEachStaysValid(c, ChunkEntries([item]));
    var all := outputs + OutputRows(TxsOf([item]));
    LookedUpEffect(d, keys, all);
    EachEffect(Removing, LookedUp(d, keys, all), keys);
    RemovalsCount(LookedUp(d, keys, all), keys);
  }

  lemma LookedUpEffect(c: CacheState, keys: seq<UtxoKey>, outputs: seq<OutputData>)
    requires ValidCache(c)
    ensures ValidCache(LookedUp(c, keys, outputs)) && Caps(LookedUp(c, keys, outputs)) == Caps(c)
    ensures forall k :: k !in keys && Lookup(LookedUp(c, keys, outputs), k).Some? ==> Lookup(c, k).Some?
    ensures Misses(c, keys) == [] ==> SameMap(LookedUp(c, keys, outputs), c)
  {
    var read, misses := Each(Reading, c, keys), Misses(c, keys);
    EachEffect(Reading, c, keys);
    if misses != [] {
      var es, d := Fetched(outputs, misses), CountFallback(read);
      assert d.shards == read.shards;
      InsertEachStaysValid(d, es);
      forall k | k !in keys && Lookup(InsertEach(d, es), k).Some?
        ensures Lookup(c, k).Some?
      {
        FetchedAsked(c, outputs, keys);
        OnlyInserted(d, es, k);
      }
    }
  }

  /**
    What a block ingested on its own adds to the counters: a hit or a miss for each input by
    whether it is cached once the outputs are, an insertion for each output and each stored miss,
    a removal for each distinct input cached after the lookup, and a fallback if there is a miss.
    */
  lemma BlockCounts(c: CacheState, outputs: seq<OutputData>, item: Item)
    requires ValidCache(c)
    ensures var keys, d := CollectInputKeys([item]), InsertEach(c, ChunkEntries([item]));
            var st, misses, all := d.stats, Misses(d, keys), outputs + OutputRows(TxsOf([item]));
            && st == c.stats.(inserts := c.stats.inserts + |ChunkEntries([item])|)
            && |misses| == |MissingOf(d, keys)| <= |keys|
            && BlockCached(c, outputs, item).stats ==
                 st.(hits := st.hits + (|keys| - |misses|), misses := st.misses + |misses|,
                     inserts := st.inserts + |FoundRows(all, misses)|,
                     removals := st.removals + |Held(LookedUp(d, keys, all), keys)|,
                     fallbacks := st.fallbacks + if misses == [] then 0 else 1)
  {
    var es := ChunkEntries([item]);
    var d, keys, all := InsertEach(c, es), CollectInputKeys([item]), outputs + OutputRows(TxsOf([item]));
    InsertEachStaysValid(c, es);
    InsertsCount(c, es);
    SpendingCounts(d, keys, all);
  }

  lemma SpendingCounts(c: CacheState, keys: seq<UtxoKey>, outputs: seq<OutputData>)
    requires ValidCache(c)
    ensures var st, misses := c.stats, Misses(c, keys);
            && |misses| == |MissingOf(c, keys)| <= |keys|
            && LookedUpAndSpent(c, keys, outputs).stats ==
                 st.(hits := st.hits + (|keys| - |misses|), misses := st.misses + |misses|,
                     inserts := st.inserts + |FoundRows(outputs, misses)|,
                     removals := st.removals + |Held(LookedUp(c, keys, outputs), keys)|,
                     fallbacks := st.fallbacks + if misses == [] then 0 else 1)
  {
    LookUpCounts(c, keys, outputs);
    LookedUpEffect(c, keys, outputs);
    RemovalsCount(LookedUp(c, keys, outputs), keys);
  }

  lemma LookUpCounts(c: CacheState, keys: seq<UtxoKey>, outputs: seq<OutputData>)
    requires ValidCache(c)
    ensures var st, misses := c.stats, Misses(c, keys);
            && |misses| == |MissingOf(c, keys)| <= |keys|
            && LookedUp(c, keys, outputs).stats ==
                 st.(hits := st.hits + (|keys| - |misses|), misses := st.misses + |misses|,
                     inserts := st.inserts + |FoundRows(outputs, misses)|,
                     fallbacks := st.fallbacks + if misses == [] then 0 else 1)
  {
    var misses := Misses(c, keys);
    ReadsCount(c, keys);
    MissesCount(c, keys);
    FetchedCount(outputs, misses);
    InsertsCount(CountFallback(Each(Reading, c, keys)), Fetched(outputs, misses));
  }

  /** From `c` to `d`, a chunk leaves out what it spends, and a key that it neither spends nor creates. */
  ghost predicate Forgets(c: CacheState, d: CacheState, chunk: seq<Item>, k: UtxoKey)
    requires |c.shards| == |d.shards| == NUM_SHARDS
  {
    ValidCache(c) ==>
      && ValidCache(d)
      && (k in CollectInputKeys(chunk) || (k !in NewKeys(chunk) && Lookup(c, k).None?) ==> Lookup(d, k).None?)
  }

  lemma ChunkForgets(c: CacheState, outputs: seq<OutputData>, chunk: seq<Item>, k: UtxoKey)
    requires |c.shards| == NUM_SHARDS
    ensures Forgets(c, ChunkCached(c, outputs, chunk), chunk, k)
  {
    if ValidCache(c) {
      ChunkEffect(c, outputs, chunk);
    }
  }

  /** Of the first `n` chunks, chunk `i` spends the key and no later one creates it. */
  ghost predicate SpentLast(items: seq<Item>, ranges: seq<Range>, n: nat, i: nat, k: UtxoKey)
    requires i < n <= |ranges| && Within(ranges, |items|)
  {
    && k in CollectInputKeys(Part(items, ranges, i))
    && forall j :: i < j < n ==> k !in NewKeys(Part(items, ranges, j))
  }

  /** After `n` chunks the key is not cached if the last of them to spend it is not followed by one that creates it. */
  ghost predicate Gone(c: CacheState, items: seq<Item>, ranges: seq<Range>, n: nat, k: UtxoKey)
    requires n <= |ranges| && Within(ranges, |items|)
  {
    ValidCache(c) && forall i :: 0 <= i < n && SpentLast(items, ranges, n, i, k) ==> Lookup(c, k).None?
  }

  lemma GoneNext(c: CacheState, d: CacheState, items: seq<Item>, ranges: seq<Range>, n: nat, k: UtxoKey)
    requires n < |ranges| && Within(ranges, |items|) && Gone(c, items, ranges, n, k) && |d.shards| == NUM_SHARDS
    requires Forgets(c, d, Part(items, ranges, n), k)
    ensures Gone(d, items, ranges, n + 1, k)
  {
    var m := n + 1;
    forall i | 0 <= i < m && SpentLast(items, ranges, m, i, k)
      ensures Lookup(d, k).None?
    {
      assert i < n ==> SpentLast(items, ranges, n, i, k);
    }
  }

  ghost function GoneTrack(items: seq<Item>, ranges: seq<Range>, k: UtxoKey): CacheTrack
    requires Within(ranges, |items|)
  {
    (c: CacheState, outputs: seq<OutputData>, n: int) => 0 <= n <= |ranges| && Gone(c, items, ranges, n, k)
  }

  lemma GoneIsTracked(items: seq<Item>, ranges: seq<Range>, k: UtxoKey)
    requires Within(ranges, |items|)
    ensures Tracking(WholeChunk, GoneTrack(items, ranges, k), items, ranges)
  {
    var track := GoneTrack(items, ranges, k);
    forall c: CacheState, outputs: seq<OutputData>, n {:trigger track(c, outputs, n), Part(items, ranges, n)}
      | 0 <= n < |ranges| && track(c, outputs, n)
      ensures track(WholeChunk(c, outputs, Part(items, ranges, n)),
                    outputs + OutputRows(TxsOf(Part(items, ranges, n))), n + 1)
    {
      ChunkForgets(c, outputs, Part(items, ranges, n), k);
      GoneNext(c, WholeChunk(c, outputs, Part(items, ranges, n)), items, ranges, n, k);
    }
  }

  /**
    What a chunk of a batch has spent is not cached at the end, unless a later chunk creates
    the same key.
    */
  lemma SpentStaysGone(c: CacheState, outputs: seq<OutputData>, items: seq<Item>, ranges: seq<Range>, n: nat, i: nat,
                       k: UtxoKey)
    requires ValidCache(c) && i < n <= |ranges| && Within(ranges, |items|) && SpentLast(items, ranges, n, i, k)
    ensures ValidCache(BatchCached(c, outputs, items, ranges, n))
    ensures Lookup(BatchCached(c, outputs, items, ranges, n), k).None?
  {
    GoneIsTracked(items, ranges, k);
    TrackedThroughout(WholeChunk, GoneTrack(items, ranges, k), c, outputs, items, ranges, n);
    assert Gone(BatchCached(c, outputs, items, ranges, n), items, ranges, n, k);
  }
}
