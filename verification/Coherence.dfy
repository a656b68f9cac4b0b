/** What ties the cache to the chain: every cached value is that of the output its key names. */
module Coherence {
  import opened Types
  import opened Lru
  import opened Cache
  import opened Aggregation

  ghost predicate Coherent(c: CacheState, out: Resolved, exact: bool)
    requires |c.shards| == NUM_SHARDS
  {
    forall k {:trigger Lookup(c, k)} :: Lookup(c, k).Some? ==> k in out && Matches(Lookup(c, k).value, out[k], exact)
  }

  /** A valid cache of the given shard capacities that tells the truth. */
  ghost predicate Good(c: CacheState, caps: seq<nat>, out: Resolved, exact: bool) {
    ValidCache(c) && Caps(c) == caps && Coherent(c, out, exact)
  }

  /** Truth is about the shards, not the counters. */
  lemma CountersDoNotMatter(c: CacheState, d: CacheState, caps: seq<nat>, out: Resolved, exact: bool)
    requires Good(c, caps, out, exact) && c.shards == d.shards
    ensures Good(d, caps, out, exact)
  {
    forall k
      ensures Lookup(d, k) == Lookup(c, k)
    {
    }
  }

  lemma InsertStaysGood(c: CacheState, caps: seq<nat>, out: Resolved, exact: bool, k: UtxoKey, v: CachedOutput)
    requires Good(c, caps, out, exact)
    requires k in out && Matches(v, out[k], exact)
    ensures Good(Insert(c, k, v), caps, out, exact)
  {
    InsertEffect(c, k, v);
  }

  lemma StepStaysGood(a: Access, c: CacheState, caps: seq<nat>, out: Resolved, exact: bool, k: UtxoKey)
    requires Good(c, caps, out, exact)
    ensures Good(Step(a, c, k), caps, out, exact)
    ensures a.Reading? ==> forall j :: Lookup(Step(a, c, k), j) == Lookup(c, j)
  {
    StepEffect(a, c, k);
  }

  lemma EachStaysGood(a: Access, c: CacheState, caps: seq<nat>, out: Resolved, exact: bool, keys: seq<UtxoKey>)
    requires Good(c, caps, out, exact)
    ensures Good(Each(a, c, keys), caps, out, exact)
  {
    EachEffect(a, c, keys);
  }

  // ------------------------------------------------------------------
  // A list of insertions
  // ------------------------------------------------------------------

  ghost predicate EntriesTrue(es: seq<Entry>, out: Resolved, exact: bool) {
    forall e :: e in es ==> e.key in out && Matches(e.value, out[e.key], exact)
  }

  lemma {:induction false} InsertEachStaysGood(c: CacheState, caps: seq<nat>, out: Resolved, exact: bool,
                                               es: seq<Entry>)
    requires Good(c, caps, out, exact) && EntriesTrue(es, out, exact)
    ensures Good(InsertEach(c, es), caps, out, exact)
  {
    if es != [] {
      var before, e := es[..|es| - 1], es[|es| - 1];
      assert es == before + [e];
      InsertEachStaysGood(c, caps, out, exact, before);
      InsertStaysGood(InsertEach(c, before), caps, out, exact, e.key, e.value);
    }
  }

  /** The entries that go to shard `t`, in order. */
  function EntriesFor(es: seq<Entry>, t: nat): seq<Entry> {
    if es == [] then []
    else
      var before, e := es[..|es| - 1], es[|es| - 1];
      if ShardIndex(e.key) == t then EntriesFor(before, t) + [e] else EntriesFor(before, t)
  }

  function ShardKeys(keys: set<UtxoKey>, t: nat): set<UtxoKey> {
    set k | k in keys && ShardIndex(k) == t
  }

  /** Each shard has room for its share of the keys. */
  ghost predicate Room(caps: seq<nat>, keys: set<UtxoKey>) {
    |caps| == NUM_SHARDS && forall t :: 0 <= t < NUM_SHARDS ==> |ShardKeys(keys, t)| <= caps[t]
  }

  lemma {:induction false} InsertEachByShard(c: CacheState, es: seq<Entry>, t: nat)
    requires t < NUM_SHARDS == |c.shards|
    ensures InsertEach(c, es).shards[t] == PutAll(c.shards[t], EntriesFor(es, t))
  {
    if es != [] {
      var before, e := es[..|es| - 1], es[|es| - 1];
      InsertEachByShard(c, before, t);
      if ShardIndex(e.key) == t {
        assert (EntriesFor(before, t) + [e])[..|EntriesFor(before, t)|] == EntriesFor(before, t);
      }
    }
  }

  lemma {:induction false} KeysOfEntriesFor(es: seq<Entry>, t: nat)
    ensures KeysOf(EntriesFor(es, t)) == ShardKeys(KeysOf(es), t)
  {
    if es != [] {
      var before, e := es[..|es| - 1], es[|es| - 1];
      assert es == before + [e];
      KeysOfEntriesFor(before, t);
      assert KeysOf(es) == KeysOf(before) + {e.key};
      if ShardIndex(e.key) == t {
        assert KeysOf(EntriesFor(before, t) + [e]) == KeysOf(EntriesFor(before, t)) + {e.key};
      }
    }
  }

  /** A list of insertions whose distinct keys fit their shards leaves all of them cached. */
  lemma InsertedSurvive(c: CacheState, es: seq<Entry>, k: UtxoKey)
    requires ValidCache(c) && Room(Caps(c), KeysOf(es)) && k in KeysOf(es)
    ensures Lookup(InsertEach(c, es), k).Some?
  {
    var t := ShardIndex(k);
    var own := EntriesFor(es, t);
    KeysOfEntriesFor(es, t);
    InsertEachByShard(c, es, t);
    assert |KeysOf(own)| <= Caps(c)[t];
    RecentKeysSurvive(c.shards[t], own);
    var s := PutAll(c.shards[t], own);
    assert k in KeysOf(s.entries[..|KeysOf(own)|]);
    PrefixKeys(s.entries, |KeysOf(own)|);
    PeekFinds(s.entries, k);
  }

  /**
    A key of the list outlives it: fewer distinct other keys of its shard follow its
    last insertion than the shard has places.
    */
  ghost predicate Survives(caps: seq<nat>, es: seq<Entry>, k: UtxoKey) {
    && |caps| == NUM_SHARDS && k in KeysOf(es)
    && |ShardKeys(KeysOf(AfterLast(es, k)), ShardIndex(k))| < caps[ShardIndex(k)]
  }

  lemma {:induction false} AfterLastByShard(es: seq<Entry>, k: UtxoKey)
    ensures AfterLast(EntriesFor(es, ShardIndex(k)), k) == EntriesFor(AfterLast(es, k), ShardIndex(k))
  {
    if es != [] {
      var t, before, e := ShardIndex(k), es[..|es| - 1], es[|es| - 1];
      AfterLastByShard(before, k);
      if ShardIndex(e.key) == t {
        assert (EntriesFor(before, t) + [e])[..|EntriesFor(before, t)|] == EntriesFor(before, t);
      }
      if e.key != k {
        assert (AfterLast(before, k) + [e])[..|AfterLast(before, k)|] == AfterLast(before, k);
      }
    }
  }

  /** Whether a key survives is decided in its shard. */
  lemma SurvivesInShard(caps: seq<nat>, es: seq<Entry>, k: UtxoKey)
    requires |caps| == NUM_SHARDS && k in KeysOf(es)
    ensures var own := EntriesFor(es, ShardIndex(k));
            k in KeysOf(own) && (Survives(caps, es, k) <==> |KeysOf(AfterLast(own, k))| < caps[ShardIndex(k)])
  {
    KeysOfEntriesFor(es, ShardIndex(k));
    AfterLastByShard(es, k);
    KeysOfEntriesFor(AfterLast(es, k), ShardIndex(k));
  }

  /** Which of the inserted keys are cached afterwards, exactly, and whatever the cache held before. */
  lemma CachedIffSurvives(c: CacheState, es: seq<Entry>, k: UtxoKey)
    requires ValidCache(c) && k in KeysOf(es)
    ensures Lookup(InsertEach(c, es), k).Some? <==> Survives(Caps(c), es, k)
  {
    var t := ShardIndex(k);
    var s, own := c.shards[t], EntriesFor(es, t);
    SurvivesInShard(Caps(c), es, k);
    InsertEachByShard(c, es, t);
    HeldIff(s, own, k);
    PeekFinds(PutAll(s, own).entries, k);
  }

  /** A key that is not inserted is cached afterwards only if it was before. */
  lemma {:induction false} OnlyInserted(c: CacheState, es: seq<Entry>, k: UtxoKey)
    requires ValidCache(c) && k !in KeysOf(es)
    ensures Lookup(InsertEach(c, es), k).Some? ==> Lookup(c, k).Some?
  {
    if es != [] {
      var before, e := es[..|es| - 1], es[|es| - 1];
      assert es == before + [e];
      OnlyInserted(c, before, k);
      InsertEachStaysValid(c, before);
      InsertEffect(InsertEach(c, before), e.key, e.value);
    }
  }

  /** Keys that all fit their shards all survive. */
  lemma RoomSurvives(caps: seq<nat>, es: seq<Entry>, k: UtxoKey)
    requires Room(caps, KeysOf(es)) && k in KeysOf(es)
    ensures Survives(caps, es, k)
  {
    var t := ShardIndex(k);
    var n := LastSplits(es, k);
    var after, all := ShardKeys(KeysOf(AfterLast(es, k)), t), ShardKeys(KeysOf(es), t);
    assert es[n] in es && forall e :: e in es[n + 1..] ==> e in es;
    SubsetSize(after + {k}, all);
  }

  /** That condition is exact: if the keys do not fit, one of them has been evicted. */
  lemma AllCachedIffRoom(c: CacheState, es: seq<Entry>)
    requires ValidCache(c)
    ensures (forall k :: k in KeysOf(es) ==> Lookup(InsertEach(c, es), k).Some?) <==> Room(Caps(c), KeysOf(es))
  {
    if Room(Caps(c), KeysOf(es)) {
      forall k | k in KeysOf(es)
        ensures Lookup(InsertEach(c, es), k).Some?
      {
        InsertedSurvive(c, es, k);
      }
    } else {
      InsertEachStaysValid(c, es);
      var t :| 0 <= t < NUM_SHARDS && |ShardKeys(KeysOf(es), t)| > Caps(c)[t];
      var s := InsertEach(c, es).shards[t];
      KeysNoMoreThanEntries(s.entries);
      if ShardKeys(KeysOf(es), t) <= KeysOf(s.entries) {
        SubsetSize(ShardKeys(KeysOf(es), t), KeysOf(s.entries));
      }
      var k :| k in ShardKeys(KeysOf(es), t) && k !in KeysOf(s.entries);
      PeekFinds(s.entries, k);
    }
  }

  lemma {:induction false} InsertEachStaysValid(c: CacheState, es: seq<Entry>)
    requires ValidCache(c)
    ensures ValidCache(InsertEach(c, es)) && Caps(InsertEach(c, es)) == Caps(c)
  {
    if es != [] {
      InsertEachStaysValid(c, es[..|es| - 1]);
      InsertEffect(InsertEach(c, es[..|es| - 1]), es[|es| - 1].key, es[|es| - 1].value);
    }
  }

  lemma {:induction false} KeysNoMoreThanEntries(es: seq<Entry>)
    ensures |KeysOf(es)| <= |es|
  {
    if es != [] {
      var before, e := es[..|es| - 1], es[|es| - 1];
      assert es == before + [e];
      KeysNoMoreThanEntries(before);
      assert KeysOf(es) == KeysOf(before) + {e.key};
    }
  }

  lemma PrefixKeys(es: seq<Entry>, n: nat)
    requires n <= |es|
    ensures KeysOf(es[..n]) <= KeysOf(es)
  {
    assert forall e :: e in es[..n] ==> e in es;
  }

  lemma SubsetSize(a: set<UtxoKey>, b: set<UtxoKey>)
    requires a <= b
    ensures |a| <= |b|
  {
    assert b == a + (b - a);
  }
}
