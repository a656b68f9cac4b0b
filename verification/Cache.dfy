/**
  The sharded UTXO cache. `CacheState` is its value with one function per
  operation; `UtxoCache` is the object, each method proved against its function.
  */
module Cache {
  import opened Types
  import opened Lru

  const NUM_SHARDS: nat := 16

  datatype Stats = Stats(hits: nat, misses: int, inserts: nat, removals: nat, fallbacks: nat)

  datatype CacheState = CacheState(shards: seq<Shard>, stats: Stats)

  /** The txid bytes that choose the shard. */
  const MIXED_POSITIONS: seq<nat> := [0, 7, 15, 23, 31]

  function MixedBytes(txid: Txid, positions: seq<nat>): nat {
    if positions == [] then 0
    else
      Xor(MixedBytes(txid, positions[..|positions| - 1]),
          if positions[|positions| - 1] < 32 then txid[positions[|positions| - 1]] else 0)
  }

  function ShardIndex(k: UtxoKey): (i: nat)
    ensures i < NUM_SHARDS
  {
    Xor(MixedBytes(k.txid, MIXED_POSITIONS), k.vout) % NUM_SHARDS
  }

  ghost predicate ValidCache(c: CacheState) {
    && |c.shards| == NUM_SHARDS
    && forall t :: 0 <= t < NUM_SHARDS ==> ValidShard(c.shards[t]) && Homed(c.shards[t].entries, t)
  }

  /** Every entry of shard `t` has a key that hashes to `t`. */
  ghost predicate Homed(es: seq<Entry>, t: nat) {
    forall e :: e in es ==> ShardIndex(e.key) == t
  }

  /** The map the cache stands for. */
  function Lookup(c: CacheState, k: UtxoKey): Option<CachedOutput>
    requires |c.shards| == NUM_SHARDS
  {
    Peek(c.shards[ShardIndex(k)].entries, k)
  }

  function Caps(c: CacheState): seq<nat> {
    seq(|c.shards|, t requires 0 <= t < |c.shards| => c.shards[t].cap)
  }

  function WithShard(c: CacheState, t: nat, s: Shard): CacheState
    requires t < |c.shards|
  {
    c.(shards := c.shards[t := s])
  }

  function Insert(c: CacheState, k: UtxoKey, v: CachedOutput): CacheState
    requires |c.shards| == NUM_SHARDS
  {
    var t := ShardIndex(k);
    WithShard(c, t, Put(c.shards[t], k, v)).(stats := c.stats.(inserts := c.stats.inserts + 1))
  }

  predicate HasRoom(c: CacheState, k: UtxoKey)
    requires |c.shards| == NUM_SHARDS
  {
    var s := c.shards[ShardIndex(k)];
    |s.entries| < s.cap
  }

  /** An insertion that gives up rather than evict. */
  function Prewarm(c: CacheState, k: UtxoKey, v: CachedOutput): CacheState
    requires |c.shards| == NUM_SHARDS
  {
    if HasRoom(c, k) then Insert(c, k, v) else c
  }

  /** A sixteenth of the capacity, but at least one place. */
  function PerShard(capacity: nat): nat {
    if capacity / NUM_SHARDS < 1 then 1 else capacity / NUM_SHARDS
  }

  /** The two operations that come in a batched form. */
  datatype Access = Reading | Removing

  function ApplyToShard(a: Access, s: Shard, k: UtxoKey): Shard {
    match a
    case Reading => Touch(s, k)
    case Removing => Pop(s, k)
  }

  /** Statistics after `n` accesses of which `hits` found their key. */
  function Tally(a: Access, st: Stats, n: nat, hits: nat): Stats
    requires hits <= n
  {
    match a
    case Reading => st.(hits := st.hits + hits, misses := st.misses + (n - hits))
    case Removing => st.(removals := st.removals + hits)
  }

  function Found(s: Shard, k: UtxoKey): nat {
    if Peek(s.entries, k).Some? then 1 else 0
  }

  /** One `get` or one `remove`. */
  function Step(a: Access, c: CacheState, k: UtxoKey): CacheState
    requires |c.shards| == NUM_SHARDS
  {
    var t := ShardIndex(k);
    WithShard(c, t, ApplyToShard(a, c.shards[t], k)).(stats := Tally(a, c.stats, 1, Found(c.shards[t], k)))
  }

  /** One `get` or `remove` per key, in the order given. */
  function Each(a: Access, c: CacheState, keys: seq<UtxoKey>): (r: CacheState)
    requires |c.shards| == NUM_SHARDS
    ensures |r.shards| == NUM_SHARDS
  {
    if keys == [] then c else Step(a, Each(a, c, keys[..|keys| - 1]), keys[|keys| - 1])
  }

  /** One insertion per entry, in the order given. */
  function InsertEach(c: CacheState, es: seq<Entry>): (r: CacheState)
    requires |c.shards| == NUM_SHARDS
    ensures |r.shards| == NUM_SHARDS
  {
    if es == [] then c
    else Insert(InsertEach(c, es[..|es| - 1]), es[|es| - 1].key, es[|es| - 1].value)
  }

  // ------------------------------------------------------------------
  // Single operations as map operations
  // ------------------------------------------------------------------

  lemma InsertEffect(c: CacheState, k: UtxoKey, v: CachedOutput)
    requires ValidCache(c)
    ensures ValidCache(Insert(c, k, v)) && Caps(Insert(c, k, v)) == Caps(c)
    ensures Lookup(Insert(c, k, v), k) == Some(v)
    ensures forall j :: j != k && Lookup(Insert(c, k, v), j).Some? ==> Lookup(Insert(c, k, v), j) == Lookup(c, j)
  {
    var t := ShardIndex(k);
    var s := c.shards[t];
    PutEffect(s, k, v);
    forall j | j != k && Lookup(Insert(c, k, v), j).Some?
      ensures Lookup(Insert(c, k, v), j) == Lookup(c, j)
    {
      if ShardIndex(j) == t {
        var es := [Entry(k, v)] + Without(s.entries, k);
        PeekPrefix(es, Min(s.cap, |es|), j);
        assert es[1..] == Without(s.entries, k);
        PeekWithout(s.entries, k, j);
      }
    }
  }

  lemma StepEffect(a: Access, c: CacheState, k: UtxoKey)
    requires ValidCache(c)
    ensures ValidCache(Step(a, c, k)) && Caps(Step(a, c, k)) == Caps(c)
    ensures forall j :: Lookup(Step(a, c, k), j) == if a.Removing? && j == k then None else Lookup(c, j)
  {
    var t := ShardIndex(k);
    var s := c.shards[t];
    TouchEffect(s, k);
    PopEffect(s, k);
    forall j
      ensures Lookup(Step(a, c, k), j) == if a.Removing? && j == k then None else Lookup(c, j)
    {
      PeekWithout(s.entries, k, j);
    }
  }

  /** One read counts a hit or a miss, one removal counts what it removed, an insertion counts in any case. */
  lemma Counting(c: CacheState, k: UtxoKey, v: CachedOutput)
    requires |c.shards| == NUM_SHARDS
    ensures var st, held := c.stats, Lookup(c, k).Some?;
            && Step(Reading, c, k).stats ==
                 Stats(if held then st.hits + 1 else st.hits, if held then st.misses else st.misses + 1,
                       st.inserts, st.removals, st.fallbacks)
            && Step(Removing, c, k).stats ==
                 Stats(st.hits, st.misses, st.inserts, if held then st.removals + 1 else st.removals, st.fallbacks)
            && Insert(c, k, v).stats == Stats(st.hits, st.misses, st.inserts + 1, st.removals, st.fallbacks)
  {
  }

  /** The shards share the capacity evenly, and each has a place. */
  lemma CapacityIsShared(capacity: nat)
    ensures PerShard(capacity) >= 1
    ensures capacity >= NUM_SHARDS ==>
              NUM_SHARDS * PerShard(capacity) <= capacity < NUM_SHARDS * (PerShard(capacity) + 1)
    ensures capacity < NUM_SHARDS ==> PerShard(capacity) == 1
  {
  }

  lemma {:induction false} EachEffect(a: Access, c: CacheState, keys: seq<UtxoKey>)
    requires ValidCache(c)
    ensures ValidCache(Each(a, c, keys)) && Caps(Each(a, c, keys)) == Caps(c)
    ensures forall j :: Lookup(Each(a, c, keys), j) == if a.Removing? && j in keys then None else Lookup(c, j)
  {
    if keys != [] {
      var before, k := keys[..|keys| - 1], keys[|keys| - 1];
      assert keys == before + [k];
      EachEffect(a, c, before);
      StepEffect(a, Each(a, c, before), k);
    }
  }

  // ------------------------------------------------------------------
  // Regrouping by shard
  // ------------------------------------------------------------------

  /** The keys of shard `t`, in request order. */
  function ForShard(keys: seq<UtxoKey>, t: nat): seq<UtxoKey> {
    if keys == [] then []
    else
      var before, k := keys[..|keys| - 1], keys[|keys| - 1];
      if ShardIndex(k) == t then ForShard(before, t) + [k] else ForShard(before, t)
  }

  /** The order in which the batched operations visit the keys: shard by shard. */
  function Regrouped(keys: seq<UtxoKey>, n: nat): seq<UtxoKey> {
    if n == 0 then [] else Regrouped(keys, n - 1) + ForShard(keys, n - 1)
  }

  function ApplyAll(a: Access, s: Shard, keys: seq<UtxoKey>): Shard {
    if keys == [] then s else ApplyToShard(a, ApplyAll(a, s, keys[..|keys| - 1]), keys[|keys| - 1])
  }

  /** How many of the accesses find their key. */
  function ShardHits(a: Access, s: Shard, keys: seq<UtxoKey>): (n: nat)
    ensures n <= |keys|
  {
    if keys == [] then 0
    else
      ShardHits(a, s, keys[..|keys| - 1]) +
      Found(ApplyAll(a, s, keys[..|keys| - 1]), keys[|keys| - 1])
  }

  function SumHits(a: Access, c: CacheState, keys: seq<UtxoKey>, n: nat): nat
    requires n <= NUM_SHARDS == |c.shards|
  {
    if n == 0 then 0 else SumHits(a, c, keys, n - 1) + ShardHits(a, c.shards[n - 1], ForShard(keys, n - 1))
  }

  lemma {:induction false} ForShardSnoc(keys: seq<UtxoKey>, k: UtxoKey, t: nat)
    ensures ForShard(keys + [k], t) == if ShardIndex(k) == t then ForShard(keys, t) + [k] else ForShard(keys, t)
  {
    assert (keys + [k])[..|keys|] == keys;
  }

  lemma {:induction false} EachSnoc(a: Access, c: CacheState, keys: seq<UtxoKey>, k: UtxoKey)
    requires |c.shards| == NUM_SHARDS
    ensures Each(a, c, keys + [k]) == Step(a, Each(a, c, keys), k)
  {
    assert (keys + [k])[..|keys|] == keys;
  }

  lemma {:induction false} EachConcat(a: Access, c: CacheState, x: seq<UtxoKey>, y: seq<UtxoKey>)
    requires |c.shards| == NUM_SHARDS
    ensures Each(a, c, x + y) == Each(a, Each(a, c, x), y)
  {
    if y == [] {
      assert x + y == x;
    } else {
      var y', k := y[..|y| - 1], y[|y| - 1];
      assert x + y == (x + y') + [k];
      EachConcat(a, c, x, y');
      EachSnoc(a, c, x + y', k);
    }
  }

  lemma {:induction false} ApplyAllSnoc(a: Access, s: Shard, keys: seq<UtxoKey>, k: UtxoKey)
    ensures ApplyAll(a, s, keys + [k]) == ApplyToShard(a, ApplyAll(a, s, keys), k)
    ensures ShardHits(a, s, keys + [k]) == ShardHits(a, s, keys) + Found(ApplyAll(a, s, keys), k)
  {
    assert (keys + [k])[..|keys|] == keys;
  }

  lemma {:induction false} ForShardConcat(x: seq<UtxoKey>, y: seq<UtxoKey>, t: nat)
    ensures ForShard(x + y, t) == ForShard(x, t) + ForShard(y, t)
  {
    if y == [] {
      assert x + y == x;
    } else {
      assert (x + y)[..|x + y| - 1] == x + y[..|y| - 1];
      ForShardConcat(x, y[..|y| - 1], t);
      Assoc(ForShard(x, t), ForShard(y[..|y| - 1], t), [y[|y| - 1]]);
    }
  }

  lemma {:induction false} ForShardTwice(keys: seq<UtxoKey>, u: nat, t: nat)
    ensures ForShard(ForShard(keys, u), t) == if t == u then ForShard(keys, t) else []
  {
    if keys != [] {
      var before, k := keys[..|keys| - 1], keys[|keys| - 1];
      ForShardTwice(before, u, t);
      if ShardIndex(k) == u {
        ForShardSnoc(ForShard(before, u), k, t);
      }
    }
  }

  lemma ForShardOfRegrouped(keys: seq<UtxoKey>, n: nat, t: nat)
    ensures ForShard(Regrouped(keys, n), t) == if t < n then ForShard(keys, t) else []
  {
    if n > 0 {
      ForShardOfRegrouped(keys, n - 1, t);
      ForShardConcat(Regrouped(keys, n - 1), ForShard(keys, n - 1), t);
      ForShardTwice(keys, n - 1, t);
    }
  }

  lemma {:induction false} ForShardCounts(keys: seq<UtxoKey>, t: nat, j: UtxoKey)
    ensures multiset(ForShard(keys, t))[j] == if ShardIndex(j) == t then multiset(keys)[j] else 0
  {
    if keys != [] {
      var before, k := keys[..|keys| - 1], keys[|keys| - 1];
      assert keys == before + [k];
      ForShardCounts(before, t, j);
    }
  }

  lemma {:induction false} RegroupedCounts(keys: seq<UtxoKey>, n: nat, j: UtxoKey)
    ensures multiset(Regrouped(keys, n))[j] == if ShardIndex(j) < n then multiset(keys)[j] else 0
  {
    if n > 0 {
      RegroupedCounts(keys, n - 1, j);
      ForShardCounts(keys, n - 1, j);
    }
  }

  /** Regrouping loses no key and adds none, duplicates included. */
  lemma RegroupedPermutes(keys: seq<UtxoKey>)
    ensures multiset(Regrouped(keys, NUM_SHARDS)) == multiset(keys)
    ensures |Regrouped(keys, NUM_SHARDS)| == |keys|
  {
    forall j
      ensures multiset(Regrouped(keys, NUM_SHARDS))[j] == multiset(keys)[j]
    {
      RegroupedCounts(keys, NUM_SHARDS, j);
    }
    assert multiset(Regrouped(keys, NUM_SHARDS)) == multiset(keys);
    assert |multiset(Regrouped(keys, NUM_SHARDS))| == |multiset(keys)|;
  }

  lemma {:induction false} EachByShard(a: Access, c: CacheState, keys: seq<UtxoKey>, t: nat)
    requires t < NUM_SHARDS == |c.shards|
    ensures Each(a, c, keys).shards[t] == ApplyAll(a, c.shards[t], ForShard(keys, t))
  {
    if keys != [] {
      var before, k := keys[..|keys| - 1], keys[|keys| - 1];
      EachByShard(a, c, before, t);
      if ShardIndex(k) == t {
        ApplyAllSnoc(a, c.shards[t], ForShard(before, t), k);
      }
    }
  }

  lemma {:induction false} SumHitsGrows(a: Access, c: CacheState, keys: seq<UtxoKey>, k: UtxoKey, n: nat)
    requires n <= NUM_SHARDS == |c.shards|
    ensures SumHits(a, c, keys + [k], n) ==
            SumHits(a, c, keys, n) +
            if ShardIndex(k) < n then Found(Each(a, c, keys).shards[ShardIndex(k)], k) else 0
  {
    if n > 0 {
      SumHitsGrows(a, c, keys, k, n - 1);
      ShardHitsGrow(a, c, keys, k, n - 1);
    }
  }

  lemma {:induction false} ShardHitsGrow(a: Access, c: CacheState, keys: seq<UtxoKey>, k: UtxoKey, t: nat)
    requires t < NUM_SHARDS == |c.shards|
    ensures ShardHits(a, c.shards[t], ForShard(keys + [k], t)) ==
            ShardHits(a, c.shards[t], ForShard(keys, t)) +
            if ShardIndex(k) == t then Found(Each(a, c, keys).shards[t], k) else 0
  {
    ForShardSnoc(keys, k, t);
    EachByShard(a, c, keys, t);
    ApplyAllSnoc(a, c.shards[t], ForShard(keys, t), k);
  }

  lemma NoHits(a: Access, c: CacheState, n: nat)
    requires n <= NUM_SHARDS == |c.shards|
    ensures SumHits(a, c, [], n) == 0
  {
  }

  /** The statistics of a run of accesses, from the runs inside each shard. */
  lemma {:induction false} EachStats(a: Access, c: CacheState, keys: seq<UtxoKey>)
    requires |c.shards| == NUM_SHARDS
    ensures SumHits(a, c, keys, NUM_SHARDS) <= |keys|
    ensures Each(a, c, keys).stats == Tally(a, c.stats, |keys|, SumHits(a, c, keys, NUM_SHARDS))
  {
    if keys == [] {
      NoHits(a, c, NUM_SHARDS);
    } else {
      var before, k := keys[..|keys| - 1], keys[|keys| - 1];
      assert keys == before + [k];
      EachStats(a, c, before);
      SumHitsGrows(a, c, before, k, NUM_SHARDS);
    }
  }

  lemma {:induction false} SumHitsOfRegrouped(a: Access, c: CacheState, keys: seq<UtxoKey>, n: nat)
    requires n <= NUM_SHARDS == |c.shards|
    ensures SumHits(a, c, Regrouped(keys, NUM_SHARDS), n) == SumHits(a, c, keys, n)
  {
    if n > 0 {
      SumHitsOfRegrouped(a, c, keys, n - 1);
      ForShardOfRegrouped(keys, NUM_SHARDS, n - 1);
    }
  }

  /**
    Visiting the keys shard by shard leaves every shard with the contents and
    the recency order, and the counters with the values, that one access per key
    in request order would leave.
    */
  lemma RegroupingIsInvisible(a: Access, c: CacheState, keys: seq<UtxoKey>)
    requires |c.shards| == NUM_SHARDS
    ensures Each(a, c, Regrouped(keys, NUM_SHARDS)) == Each(a, c, keys)
  {
    var rs := Regrouped(keys, NUM_SHARDS);
    forall t | 0 <= t < NUM_SHARDS
      ensures Each(a, c, rs).shards[t] == Each(a, c, keys).shards[t]
    {
      EachByShard(a, c, rs, t);
      EachByShard(a, c, keys, t);
      ForShardOfRegrouped(keys, NUM_SHARDS, t);
    }
    RegroupedPermutes(keys);
    EachStats(a, c, rs);
    EachStats(a, c, keys);
    SumHitsOfRegrouped(a, c, keys, NUM_SHARDS);
    assert Each(a, c, rs).shards == Each(a, c, keys).shards;
  }

  /** The keys of `keys` that the cache does not hold, in order. */
  function MissingOf(c: CacheState, keys: seq<UtxoKey>): seq<UtxoKey>
    requires |c.shards| == NUM_SHARDS
  {
    if keys == [] then []
    else
      var before, k := keys[..|keys| - 1], keys[|keys| - 1];
      if Lookup(c, k).None? then MissingOf(c, before) + [k] else MissingOf(c, before)
  }

  /** The map of found values that a batched lookup returns. */
  function FoundOf(c: CacheState, keys: seq<UtxoKey>): map<UtxoKey, CachedOutput>
    requires |c.shards| == NUM_SHARDS
  {
    map k | k in keys && Lookup(c, k).Some? :: Lookup(c, k).value
  }

  lemma {:induction false} FoundSnoc(c: CacheState, keys: seq<UtxoKey>, k: UtxoKey)
    requires |c.shards| == NUM_SHARDS
    ensures FoundOf(c, keys + [k]) ==
            if Lookup(c, k).Some? then FoundOf(c, keys)[k := Lookup(c, k).value] else FoundOf(c, keys)
    ensures MissingOf(c, keys + [k]) == if Lookup(c, k).None? then MissingOf(c, keys) + [k] else MissingOf(c, keys)
  {
    assert (keys + [k])[..|keys|] == keys;
  }

  lemma {:induction false} MissingConcat(c: CacheState, x: seq<UtxoKey>, y: seq<UtxoKey>)
    requires |c.shards| == NUM_SHARDS
    ensures MissingOf(c, x + y) == MissingOf(c, x) + MissingOf(c, y)
  {
    if y == [] {
      assert x + y == x;
    } else {
      assert (x + y)[..|x + y| - 1] == x + y[..|y| - 1];
      MissingConcat(c, x, y[..|y| - 1]);
      Assoc(MissingOf(c, x), MissingOf(c, y[..|y| - 1]), [y[|y| - 1]]);
    }
  }

  lemma FoundConcat(c: CacheState, x: seq<UtxoKey>, y: seq<UtxoKey>)
    requires |c.shards| == NUM_SHARDS
    ensures FoundOf(c, x + y) == FoundOf(c, x) + FoundOf(c, y)
  {
    assert forall k :: k in x + y <==> k in x || k in y;
  }

  /** What one more key adds to a lookup that began with `found` and `missing`. */
  lemma {:induction false} ReadOneMore(c: CacheState, ks: seq<UtxoKey>, i: nat,
                                       found: map<UtxoKey, CachedOutput>, missing: seq<UtxoKey>)
    requires ValidCache(c) && i < |ks|
    ensures Each(Reading, c, ks[..i + 1]) == Step(Reading, Each(Reading, c, ks[..i]), ks[i])
    ensures Lookup(Each(Reading, c, ks[..i]), ks[i]) == Lookup(c, ks[i])
    ensures found + FoundOf(c, ks[..i + 1]) ==
            match Lookup(c, ks[i])
            case Some(v) => (found + FoundOf(c, ks[..i]))[ks[i] := v]
            case None => found + FoundOf(c, ks[..i])
    ensures missing + MissingOf(c, ks[..i + 1]) ==
            match Lookup(c, ks[i])
            case Some(_) => missing + MissingOf(c, ks[..i])
            case None => missing + MissingOf(c, ks[..i]) + [ks[i]]
  {
    var before, k := ks[..i], ks[i];
    assert ks[..i + 1] == before + [k];
    EachSnoc(Reading, c, before, k);
    FoundSnoc(c, before, k);
    assert Lookup(Each(Reading, c, before), k) == Lookup(c, k) by {
      EachEffect(Reading, c, before);
    }
    MergeUpdate(found, FoundOf(c, before), k, Lookup(c, k));
  }

  lemma MergeUpdate(m: map<UtxoKey, CachedOutput>, n: map<UtxoKey, CachedOutput>, k: UtxoKey, v: Option<CachedOutput>)
    ensures v.Some? ==> m + n[k := v.value] == (m + n)[k := v.value]
  {
  }

  /** Found values and misses depend on the cache only as a map. */
  lemma {:induction false} FoundBySameMap(c: CacheState, d: CacheState, keys: seq<UtxoKey>)
    requires |c.shards| == NUM_SHARDS == |d.shards|
    requires forall k :: Lookup(c, k) == Lookup(d, k)
    ensures FoundOf(c, keys) == FoundOf(d, keys)
    ensures MissingOf(c, keys) == MissingOf(d, keys)
  {
    if keys != [] {
      FoundBySameMap(c, d, keys[..|keys| - 1]);
    }
  }

  /** Found and missed keys partition the request, each miss listed as often as it was asked for. */
  lemma {:induction false} MissesPartition(c: CacheState, keys: seq<UtxoKey>)
    requires |c.shards| == NUM_SHARDS
    ensures forall k :: multiset(MissingOf(c, keys))[k] == if k in FoundOf(c, keys) then 0 else multiset(keys)[k]
  {
    if keys != [] {
      var before, k := keys[..|keys| - 1], keys[|keys| - 1];
      assert keys == before + [k];
      MissesPartition(c, before);
      forall j
        ensures multiset(MissingOf(c, keys))[j] == if j in FoundOf(c, keys) then 0 else multiset(keys)[j]
      {
        assert j in before ==> j in keys;
        assert j in multiset(before) <==> j in before;
      }
    }
  }

  lemma MissingMember(c: CacheState, keys: seq<UtxoKey>, k: UtxoKey)
    requires |c.shards| == NUM_SHARDS
    ensures k in MissingOf(c, keys) <==> k in keys && Lookup(c, k).None?
  {
    MissesPartition(c, keys);
    assert k in MissingOf(c, keys) <==> multiset(MissingOf(c, keys))[k] > 0;
    assert k in keys <==> multiset(keys)[k] > 0;
  }

  // ------------------------------------------------------------------
  // The object
  // ------------------------------------------------------------------

  class UtxoCache {
    var shards: seq<Shard>
    var hits: nat
    var misses: int
    var inserts: nat
    var removals: nat
    var fallbacks: nat

    ghost function State(): CacheState
      reads this
    {
      CacheState(shards, Stats(hits, misses, inserts, removals, fallbacks))
    }

    ghost predicate Valid()
      reads this
    {
      ValidCache(State())
    }

    constructor (capacity: nat)
      requires 0 < capacity
      ensures Valid()
      ensures State().stats == Stats(0, 0, 0, 0, 0)
      ensures forall t :: 0 <= t < NUM_SHARDS ==> shards[t] == Shard(PerShard(capacity), [])
    {
      var perShard := PerShard(capacity);
      shards := seq(NUM_SHARDS, _ => Shard(perShard, []));
      hits, misses, inserts, removals, fallbacks := 0, 0, 0, 0, 0;
    }

    method InsertOne(k: UtxoKey, v: CachedOutput)
      requires Valid()
      modifies this`shards, this`inserts
      ensures Valid() && State() == Insert(old(State()), k, v)
    {
      InsertEffect(State(), k, v);
      var t := ShardIndex(k);
      shards := shards[t := Put(shards[t], k, v)];
      inserts := inserts + 1;
    }

    method Get(k: UtxoKey) returns (r: Option<CachedOutput>)
      requires Valid()
      modifies this`shards, this`hits, this`misses
      ensures Valid() && State() == Step(Reading, old(State()), k)
      ensures r == Lookup(old(State()), k)
    {
      StepEffect(Reading, State(), k);
      var t := ShardIndex(k);
      r := Peek(shards[t].entries, k);
      shards := shards[t := Touch(shards[t], k)];
      if r.Some? {
        hits := hits + 1;
      } else {
        misses := misses + 1;
      }
    }

    /** As `Get`, but the counters stay as they are. */
    method GetQuiet(k: UtxoKey) returns (r: Option<CachedOutput>)
      requires Valid()
      modifies this`shards
      ensures Valid() && State() == Step(Reading, old(State()), k).(stats := old(State()).stats)
      ensures r == Lookup(old(State()), k)
    {
      StepEffect(Reading, State(), k);
      var t := ShardIndex(k);
      r := Peek(shards[t].entries, k);
      shards := shards[t := Touch(shards[t], k)];
    }

    method Remove(k: UtxoKey) returns (removed: bool)
      requires Valid()
      modifies this`shards, this`removals
      ensures Valid() && State() == Step(Removing, old(State()), k)
      ensures removed <==> Lookup(old(State()), k).Some?
    {
      StepEffect(Removing, State(), k);
      var t := ShardIndex(k);
      removed := Peek(shards[t].entries, k).Some?;
      shards := shards[t := Pop(shards[t], k)];
      if removed {
        removals := removals + 1;
      }
    }

    /** The request positions of each shard, in request order. */
    method GroupByShard(keys: seq<UtxoKey>) returns (byShard: seq<seq<nat>>)
      ensures |byShard| == NUM_SHARDS
      ensures forall t :: 0 <= t < NUM_SHARDS ==> Positions(keys, byShard[t], ForShard(keys, t))
    {
      byShard := seq(NUM_SHARDS, _ => []);
      for i := 0 to |keys|
        invariant |byShard| == NUM_SHARDS
        invariant forall t :: 0 <= t < NUM_SHARDS ==> Positions(keys, byShard[t], ForShard(keys[..i], t))
      {
        var t := ShardIndex(keys[i]);
        assert keys[..i + 1][..i] == keys[..i];
        byShard := byShard[t := byShard[t] + [i]];
      }
      assert keys[..|keys|] == keys;
    }

    /** The visit to one shard within `GetMany`: reads the keys `ks` at positions `idx`. */
    method ReadShard(keys: seq<UtxoKey>, idx: seq<nat>, ghost ks: seq<UtxoKey>,
                     found0: map<UtxoKey, CachedOutput>, missing0: seq<UtxoKey>)
      returns (found: map<UtxoKey, CachedOutput>, missing: seq<UtxoKey>)
      requires Valid() && Positions(keys, idx, ks)
      modifies this`shards, this`hits, this`misses
      ensures Valid() && State() == Each(Reading, old(State()), ks)
      ensures found == found0 + FoundOf(old(State()), ks)
      ensures missing == missing0 + MissingOf(old(State()), ks)
    {
      ghost var c := State();
      found, missing := found0, missing0;
      for i := 0 to |idx|
        invariant Valid() && State() == Each(Reading, c, ks[..i])
        invariant found == found0 + FoundOf(c, ks[..i])
        invariant missing == missing0 + MissingOf(c, ks[..i])
      {
        var k := keys[idx[i]];
        ReadOneMore(c, ks, i, found0, missing0);
        var r := Get(k);
        match r
        case Some(v) => found := found[k := v];
        case None => missing := missing + [k];
      }
      assert ks[..|ks|] == ks;
    }

    /**
      Batched lookup: each shard is visited once, yet state and counters end up
      as after one `Get` per key in request order.
      */
    method GetMany(keys: seq<UtxoKey>) returns (found: map<UtxoKey, CachedOutput>, missing: seq<UtxoKey>)
      requires Valid()
      modifies this`shards, this`hits, this`misses
      ensures Valid() && State() == Each(Reading, old(State()), keys)
      ensures found == FoundOf(old(State()), keys)
      ensures missing == MissingOf(old(State()), Regrouped(keys, NUM_SHARDS))
      ensures multiset(missing) == multiset(MissingOf(old(State()), keys))
    {
      ghost var c := State();
      var byShard := GroupByShard(keys);
      found, missing := map[], [];
      for t := 0 to NUM_SHARDS
        invariant Valid() && State() == Each(Reading, c, Regrouped(keys, t))
        invariant found == FoundOf(c, Regrouped(keys, t))
        invariant missing == MissingOf(c, Regrouped(keys, t))
      {
        found, missing := ReadShard(keys, byShard[t], ForShard(keys, t), found, missing);
        NextShard(c, keys, t);
      }
      RegroupingIsInvisible(Reading, c, keys);
      RegroupedFoundAndMissing(c, keys);
    }

    method RemoveShard(keys: seq<UtxoKey>, idx: seq<nat>, ghost ks: seq<UtxoKey>)
      requires Valid() && Positions(keys, idx, ks)
      modifies this`shards, this`removals
      ensures Valid() && State() == Each(Removing, old(State()), ks)
    {
      ghost var c := State();
      for i := 0 to |idx|
        invariant Valid() && State() == Each(Removing, c, ks[..i])
      {
        var k := keys[idx[i]];
        assert ks[..i + 1] == ks[..i] + [k];
        EachSnoc(Removing, c, ks[..i], k);
        var removed := Remove(k);
      }
      assert ks[..|ks|] == ks;
    }

    method RemoveMany(keys: seq<UtxoKey>)
      requires Valid()
      modifies this`shards, this`removals
      ensures Valid() && State() == Each(Removing, old(State()), keys)
    {
      ghost var c := State();
      var byShard := GroupByShard(keys);
      for t := 0 to NUM_SHARDS
        invariant Valid() && State() == Each(Removing, c, Regrouped(keys, t))
      {
        RemoveShard(keys, byShard[t], ForShard(keys, t));
        EachConcat(Removing, c, Regrouped(keys, t), ForShard(keys, t));
      }
      RegroupingIsInvisible(Removing, c, keys);
    }

    method Contains(k: UtxoKey) returns (r: bool)
      requires Valid()
      ensures r <==> Lookup(State(), k).Some?
    {
      r := Peek(shards[ShardIndex(k)].entries, k).Some?;
    }

    method AdjustMisses(count: nat)
      modifies this`misses
      ensures misses == old(misses) - count
    {
      misses := misses - count;
    }

    method RecordFallback()
      modifies this`fallbacks
      ensures fallbacks == old(fallbacks) + 1
    {
      fallbacks := fallbacks + 1;
    }

    /** Inserts only while the target shard has room, so that nothing is ever evicted. */
    method InsertPrewarm(k: UtxoKey, v: CachedOutput) returns (ok: bool)
      requires Valid()
      modifies this`shards, this`inserts
      ensures Valid()
      ensures ok <==> HasRoom(old(State()), k)
      ensures State() == Prewarm(old(State()), k, v)
    {
      var t := ShardIndex(k);
      if |shards[t].entries| >= shards[t].cap {
        return false;
      }
      InsertOne(k, v);
      ok := true;
    }

    method HasCapacity() returns (r: bool)
      requires Valid()
      ensures r <==> exists t :: 0 <= t < NUM_SHARDS && |shards[t].entries| < shards[t].cap
    {
      r := false;
      for t := 0 to NUM_SHARDS
        invariant r <==> exists u :: 0 <= u < t && |shards[u].entries| < shards[u].cap
      {
        if |shards[t].entries| < shards[t].cap {
          r := true;
        }
      }
    }
  }

  /** `idx` lists the positions in `keys` of the keys `ks`. */
  ghost predicate Positions(keys: seq<UtxoKey>, idx: seq<nat>, ks: seq<UtxoKey>) {
    && |idx| == |ks|
    && forall i :: 0 <= i < |idx| ==> idx[i] < |keys| && keys[idx[i]] == ks[i]
  }

  /** What one more shard adds to a batched lookup. */
  lemma NextShard(c: CacheState, keys: seq<UtxoKey>, t: nat)
    requires ValidCache(c) && t < NUM_SHARDS
    ensures var so := Regrouped(keys, t);
            var ks := ForShard(keys, t);
            && Each(Reading, c, Regrouped(keys, t + 1)) == Each(Reading, Each(Reading, c, so), ks)
            && FoundOf(c, Regrouped(keys, t + 1)) == FoundOf(c, so) + FoundOf(Each(Reading, c, so), ks)
            && MissingOf(c, Regrouped(keys, t + 1)) == MissingOf(c, so) + MissingOf(Each(Reading, c, so), ks)
  {
    var so, ks := Regrouped(keys, t), ForShard(keys, t);
    EachConcat(Reading, c, so, ks);
    FoundConcat(c, so, ks);
    MissingConcat(c, so, ks);
    EachEffect(Reading, c, so);
    FoundBySameMap(c, Each(Reading, c, so), ks);
  }

  lemma RegroupedFoundAndMissing(c: CacheState, keys: seq<UtxoKey>)
    requires |c.shards| == NUM_SHARDS
    ensures FoundOf(c, Regrouped(keys, NUM_SHARDS)) == FoundOf(c, keys)
    ensures multiset(MissingOf(c, Regrouped(keys, NUM_SHARDS))) == multiset(MissingOf(c, keys))
  {
    RegroupedPermutes(keys);
    PermutationInvariance(c, Regrouped(keys, NUM_SHARDS), keys);
  }

  lemma PermutationInvariance(c: CacheState, xs: seq<UtxoKey>, ys: seq<UtxoKey>)
    requires |c.shards| == NUM_SHARDS && multiset(xs) == multiset(ys)
    ensures FoundOf(c, xs) == FoundOf(c, ys)
    ensures multiset(MissingOf(c, xs)) == multiset(MissingOf(c, ys))
  {
    forall k
      ensures k in xs <==> k in ys
    {
      assert k in xs <==> k in multiset(xs);
      assert k in ys <==> k in multiset(ys);
    }
    MissesPartition(c, xs);
    MissesPartition(c, ys);
  }
}
