/**
  The cache over whole runs: insertions in any order with evictions, reads, removals,
  prewarming, snapshots, restarts and reloads of whatever file is on disk.
  */
module CacheRuns {
  import opened Types
  import opened Lru
  import opened Cache
  import opened Coherence
  import opened Aggregation
  import opened SnapshotFile

  /** The cache of the running process and the snapshot on disk. */
  datatype World = World(cache: CacheState, file: Option<seq<byte>>)

  datatype Op =
    | Inserting(entry: Entry)
    | Prewarming(entry: Entry)
    | Accessing(access: Access, keys: seq<UtxoKey>)
    | Saving(height: u32)
    | Loading
    | Restarting(capacity: nat)
    | Damaging(left: Option<seq<byte>>)

  function EmptyCache(capacity: nat): (c: CacheState)
    ensures |c.shards| == NUM_SHARDS
  {
    CacheState(seq(NUM_SHARDS, _ => Shard(PerShard(capacity), [])), Stats(0, 0, 0, 0, 0))
  }

  function Perform(op: Op, w: World, crc: seq<byte> -> u32, utf8: seq<byte> -> bool): (r: World)
    requires |w.cache.shards| == NUM_SHARDS
    ensures |r.cache.shards| == NUM_SHARDS
  {
    match op
    case Inserting(e) => w.(cache := Insert(w.cache, e.key, e.value))
    case Prewarming(e) => w.(cache := Prewarm(w.cache, e.key, e.value))
    case Accessing(a, keys) => w.(cache := Each(a, w.cache, keys))
    case Saving(height) => w.(file := Some(FileOf(AllEntries(w.cache, NUM_SHARDS), height, crc)))
    case Loading => w.(cache := AfterLoad(w.cache, w.file, crc, utf8))
    case Restarting(capacity) => w.(cache := EmptyCache(capacity))
    case Damaging(left) => w.(file := left)
  }

  function Run(ops: seq<Op>, w: World, crc: seq<byte> -> u32, utf8: seq<byte> -> bool): (r: World)
    requires |w.cache.shards| == NUM_SHARDS
    ensures |r.cache.shards| == NUM_SHARDS
  {
    if ops == [] then w else Perform(ops[|ops| - 1], Run(ops[..|ops| - 1], w, crc, utf8), crc, utf8)
  }

  // ------------------------------------------------------------------
  // What is true of every value put in is true of every value held
  // ------------------------------------------------------------------

  /** An entry that tells the truth and that the snapshot format can represent. */
  ghost predicate Worthy(e: Entry, out: Resolved, exact: bool, utf8: seq<byte> -> bool) {
    e.key in out && Matches(e.value, out[e.key], exact) && Encodable(e, utf8)
  }

  ghost predicate AllWorthy(es: seq<Entry>, out: Resolved, exact: bool, utf8: seq<byte> -> bool) {
    forall e :: e in es ==> Worthy(e, out, exact, utf8)
  }

  ghost predicate Holds(c: CacheState, out: Resolved, exact: bool, utf8: seq<byte> -> bool) {
    && ValidCache(c)
    && (forall t :: 0 <= t < NUM_SHARDS ==> AllWorthy(c.shards[t].entries, out, exact, utf8))
    && (forall t :: 0 <= t < NUM_SHARDS ==> c.shards[t].cap <= U64_MAX / NUM_SHARDS)
  }

  /**
    What the environment may do: insert outputs of known transactions, start with
    any capacity the counters can hold, and lose or damage the file in ways that
    the load detects.
    */
  ghost predicate Allowed(op: Op, out: Resolved, exact: bool, crc: seq<byte> -> u32, utf8: seq<byte> -> bool) {
    match op
    case Inserting(e) => Worthy(e, out, exact, utf8)
    case Prewarming(e) => Worthy(e, out, exact, utf8)
    case Restarting(capacity) => capacity <= U64_MAX
    case Damaging(left) => left.Some? ==> ParseFile(left.value, crc, utf8).None?
    case _ => true
  }

  ghost predicate AllAllowed(ops: seq<Op>, out: Resolved, exact: bool, crc: seq<byte> -> u32, utf8: seq<byte> -> bool) {
    forall i :: 0 <= i < |ops| ==> Allowed(ops[i], out, exact, crc, utf8)
  }

  /** Whatever the file yields is true. */
  ghost predicate Trusted(file: Option<seq<byte>>, out: Resolved, exact: bool, crc: seq<byte> -> u32,
                          utf8: seq<byte> -> bool) {
    file.Some? ==>
      match ParseFile(file.value, crc, utf8)
      case None => true
      case Some(es) => AllWorthy(es, out, exact, utf8)
  }

  ghost predicate Inv(w: World, out: Resolved, exact: bool, crc: seq<byte> -> u32, utf8: seq<byte> -> bool) {
    Holds(w.cache, out, exact, utf8) && Trusted(w.file, out, exact, crc, utf8)
  }

  lemma InsertHolds(c: CacheState, e: Entry, out: Resolved, exact: bool, utf8: seq<byte> -> bool)
    requires Holds(c, out, exact, utf8) && Worthy(e, out, exact, utf8)
    ensures Holds(Insert(c, e.key, e.value), out, exact, utf8)
  {
    InsertEffect(c, e.key, e.value);
    PutEffect(c.shards[ShardIndex(e.key)], e.key, e.value);
  }

  lemma StepHolds(a: Access, c: CacheState, k: UtxoKey, out: Resolved, exact: bool, utf8: seq<byte> -> bool)
    requires Holds(c, out, exact, utf8)
    ensures Holds(Step(a, c, k), out, exact, utf8)
  {
    StepEffect(a, c, k);
    TouchEffect(c.shards[ShardIndex(k)], k);
    PopEffect(c.shards[ShardIndex(k)], k);
  }

  lemma {:induction false} EachHolds(a: Access, c: CacheState, keys: seq<UtxoKey>, out: Resolved, exact: bool,
                                     utf8: seq<byte> -> bool)
    requires Holds(c, out, exact, utf8)
    ensures Holds(Each(a, c, keys), out, exact, utf8)
  {
    if keys != [] {
      EachHolds(a, c, keys[..|keys| - 1], out, exact, utf8);
      StepHolds(a, Each(a, c, keys[..|keys| - 1]), keys[|keys| - 1], out, exact, utf8);
    }
  }

  lemma LoadHolds(c: CacheState, es: seq<Entry>, out: Resolved, exact: bool, utf8: seq<byte> -> bool)
    requires Holds(c, out, exact, utf8) && AllWorthy(es, out, exact, utf8)
    ensures Holds(Reloaded(c, es), out, exact, utf8)
  {
    forall t | 0 <= t < NUM_SHARDS
      ensures ValidShard(Reloaded(c, es).shards[t]) && Homed(Reloaded(c, es).shards[t].entries, t)
      ensures Reloaded(c, es).shards[t].cap == c.shards[t].cap
      ensures AllWorthy(Reloaded(c, es).shards[t].entries, out, exact, utf8)
    {
      ReloadedShard(c, es, t);
    }
  }

  lemma {:induction false} SavedHolds(c: CacheState, n: nat, out: Resolved, exact: bool, utf8: seq<byte> -> bool)
    requires Holds(c, out, exact, utf8) && n <= NUM_SHARDS
    ensures AllWorthy(AllEntries(c, n), out, exact, utf8)
    ensures |AllEntries(c, n)| <= n * (U64_MAX / NUM_SHARDS)
  {
    if n > 0 {
      SavedHolds(c, n - 1, out, exact, utf8);
      assert ValidShard(c.shards[n - 1]);
    }
  }

  lemma SaveIsTrusted(c: CacheState, height: u32, out: Resolved, exact: bool, crc: seq<byte> -> u32,
                      utf8: seq<byte> -> bool)
    requires Holds(c, out, exact, utf8)
    ensures Trusted(Some(FileOf(AllEntries(c, NUM_SHARDS), height, crc)), out, exact, crc, utf8)
  {
    var es := AllEntries(c, NUM_SHARDS);
    SavedHolds(c, NUM_SHARDS, out, exact, utf8);
    assert AllEncodable(es, utf8) by {
      forall i | 0 <= i < |es|
        ensures Encodable(es[i], utf8)
      {
        assert es[i] in es;
      }
    }
    FileRoundTrip(es, height, crc, utf8);
  }

  lemma OpKeepsInv(op: Op, w: World, out: Resolved, exact: bool, crc: seq<byte> -> u32, utf8: seq<byte> -> bool)
    requires Inv(w, out, exact, crc, utf8) && Allowed(op, out, exact, crc, utf8)
    ensures Inv(Perform(op, w, crc, utf8), out, exact, crc, utf8)
  {
    match op
    case Inserting(e) => InsertHolds(w.cache, e, out, exact, utf8);
    case Prewarming(e) => InsertHolds(w.cache, e, out, exact, utf8);
    case Accessing(a, keys) => EachHolds(a, w.cache, keys, out, exact, utf8);
    case Saving(height) => SaveIsTrusted(w.cache, height, out, exact, crc, utf8);
    case Loading =>
      if w.file.Some? && ParseFile(w.file.value, crc, utf8).Some? {
        LoadHolds(w.cache, ParseFile(w.file.value, crc, utf8).value, out, exact, utf8);
      }
    case Restarting(capacity) =>
    case Damaging(left) =>
  }

  lemma {:induction false} RunKeepsInv(ops: seq<Op>, w: World, out: Resolved, exact: bool, crc: seq<byte> -> u32,
                                       utf8: seq<byte> -> bool)
    requires Inv(w, out, exact, crc, utf8) && AllAllowed(ops, out, exact, crc, utf8)
    ensures Inv(Run(ops, w, crc, utf8), out, exact, crc, utf8)
  {
    if ops != [] {
      RunKeepsInv(ops[..|ops| - 1], w, out, exact, crc, utf8);
      OpKeepsInv(ops[|ops| - 1], Run(ops[..|ops| - 1], w, crc, utf8), out, exact, crc, utf8);
    }
  }

  lemma EmptyHolds(capacity: nat, out: Resolved, exact: bool, utf8: seq<byte> -> bool)
    requires capacity <= U64_MAX
    ensures Holds(EmptyCache(capacity), out, exact, utf8)
  {
  }

  /**
    Coherence over whole runs: from an empty cache and no file, after any sequence
    of operations, a cached value is the output its key names, no shard is over its
    capacity, and a key is held at most once.
    */
  lemma EveryCachedValueIsTrue(ops: seq<Op>, capacity: nat, out: Resolved, exact: bool,
                               crc: seq<byte> -> u32, utf8: seq<byte> -> bool)
    requires capacity <= U64_MAX && AllAllowed(ops, out, exact, crc, utf8)
    ensures var c := Run(ops, World(EmptyCache(capacity), None), crc, utf8).cache;
            Good(c, Caps(c), out, exact)
  {
    EmptyHolds(capacity, out, exact, utf8);
    RunKeepsInv(ops, World(EmptyCache(capacity), None), out, exact, crc, utf8);
    var c := Run(ops, World(EmptyCache(capacity), None), crc, utf8).cache;
    forall k | Lookup(c, k).Some?
      ensures k in out && Matches(Lookup(c, k).value, out[k], exact)
    {
      PeekFinds(c.shards[ShardIndex(k)].entries, k);
      assert AllWorthy(c.shards[ShardIndex(k)].entries, out, exact, utf8);
    }
  }
}
