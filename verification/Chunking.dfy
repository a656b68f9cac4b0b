/** Greedy partitioning of a batch into chunks that fit a memory budget. */
module Chunking {
  datatype Range = Range(start: nat, end: nat)

  function SumTo(mem: seq<nat>, n: nat): nat
    requires n <= |mem|
  {
    if n == 0 then 0 else SumTo(mem, n - 1) + mem[n - 1]
  }

  /** Memory of the blocks `lo` to `hi - 1`. */
  function Load(mem: seq<nat>, lo: nat, hi: nat): int
    requires lo <= hi <= |mem|
  {
    SumTo(mem, hi) - SumTo(mem, lo)
  }

  /** Loads add up, and that of one block is its own memory. */
  lemma LoadMeans(mem: seq<nat>, lo: nat, mid: nat, hi: nat)
    requires lo <= mid <= hi <= |mem|
    ensures Load(mem, lo, hi) == Load(mem, lo, mid) + Load(mem, mid, hi)
    ensures forall i :: 0 <= i < |mem| ==> Load(mem, i, i + 1) == mem[i]
  {
  }

  lemma {:induction false} LoadMonotone(mem: seq<nat>, lo: nat, lo': nat, hi: nat, hi': nat)
    requires lo <= lo' <= hi' <= hi <= |mem|
    ensures 0 <= Load(mem, lo', hi') <= Load(mem, lo, hi)
    decreases hi - lo
  {
    if lo < lo' {
      LoadMonotone(mem, lo + 1, lo', hi, hi');
    } else if hi' < hi {
      LoadMonotone(mem, lo, lo', hi - 1, hi');
    } else if lo < hi {
      LoadMonotone(mem, lo, lo, hi - 1, hi - 1);
    }
  }

  predicate Acceptable(mem: seq<nat>, budget: nat, r: Range) {
    && r.start < r.end <= |mem|
    && (Load(mem, r.start, r.end) <= budget || r.end == r.start + 1)
  }

  /** Where chunk `i` starts when the chunks are laid end to end. */
  function StartOf(chunks: seq<Range>, i: nat): nat
    requires i <= |chunks|
  {
    if i == 0 then 0 else chunks[i - 1].end
  }

  /** Chunk `i` begins where the one before it ends and is acceptable. */
  ghost predicate Fits(mem: seq<nat>, budget: nat, chunks: seq<Range>, i: nat)
    requires i < |chunks|
  {
    Acceptable(mem, budget, chunks[i]) && chunks[i].start == StartOf(chunks, i)
  }

  /** Chunk `i` could not have taken in the block that follows it. */
  ghost predicate Full(mem: seq<nat>, budget: nat, chunks: seq<Range>, i: nat)
    requires i < |chunks|
  {
    var r := chunks[i];
    r.start <= r.end < |mem| ==> Load(mem, r.start, r.end + 1) > budget
  }

  /** Contiguous from block 0 on, every chunk non-empty and within budget or a single block. */
  ghost predicate Tiles(mem: seq<nat>, budget: nat, chunks: seq<Range>) {
    forall i :: 0 <= i < |chunks| ==> Fits(mem, budget, chunks, i)
  }

  ghost predicate Partition(mem: seq<nat>, budget: nat, chunks: seq<Range>) {
    Tiles(mem, budget, chunks) && StartOf(chunks, |chunks|) == |mem|
  }

  ghost predicate Maximal(mem: seq<nat>, budget: nat, chunks: seq<Range>) {
    forall i :: 0 <= i < |chunks| ==> Full(mem, budget, chunks, i)
  }

  /** The chunk boundaries lie no further left than those of any other partition. */
  lemma {:induction false} GreedyStaysAhead(mem: seq<nat>, budget: nat, greedy: seq<Range>, other: seq<Range>, i: nat)
    requires Tiles(mem, budget, greedy) && Maximal(mem, budget, greedy)
    requires Tiles(mem, budget, other)
    requires i <= |greedy| && i <= |other|
    ensures StartOf(other, i) <= StartOf(greedy, i) <= |mem|
  {
    if i > 0 {
      GreedyStaysAhead(mem, budget, greedy, other, i - 1);
      assert Fits(mem, budget, greedy, i - 1) && Fits(mem, budget, other, i - 1);
      var g, o := greedy[i - 1], other[i - 1];
      if o.end > g.end {
        assert Full(mem, budget, greedy, i - 1);
        LoadMonotone(mem, o.start, g.start, o.end, g.end + 1);
      }
    }
  }

  lemma StartsInside(mem: seq<nat>, budget: nat, chunks: seq<Range>, i: nat)
    requires Tiles(mem, budget, chunks) && i < |chunks|
    ensures StartOf(chunks, i) < |mem|
  {
    assert Fits(mem, budget, chunks, i);
  }

  /** Greedy chunking is optimal: no partition of the batch has fewer chunks. */
  lemma {:induction false} GreedyIsOptimal(mem: seq<nat>, budget: nat, greedy: seq<Range>, other: seq<Range>)
    requires Partition(mem, budget, greedy) && Maximal(mem, budget, greedy)
    requires Partition(mem, budget, other)
    ensures |greedy| <= |other|
  {
    if |other| < |greedy| {
      GreedyStaysAhead(mem, budget, greedy, other, |other|);
      StartsInside(mem, budget, greedy, |other|);
    }
  }

  /** The two conditions leave no choice. */
  lemma {:induction false} GreedyIsUnique(mem: seq<nat>, budget: nat, a: seq<Range>, b: seq<Range>)
    requires Partition(mem, budget, a) && Maximal(mem, budget, a)
    requires Partition(mem, budget, b) && Maximal(mem, budget, b)
    ensures a == b
  {
    GreedyIsOptimal(mem, budget, a, b);
    GreedyIsOptimal(mem, budget, b, a);
    forall i | 0 <= i < |a|
      ensures a[i] == b[i]
    {
      GreedyStaysAhead(mem, budget, a, b, i);
      GreedyStaysAhead(mem, budget, b, a, i);
      GreedyStaysAhead(mem, budget, a, b, i + 1);
      GreedyStaysAhead(mem, budget, b, a, i + 1);
      assert Fits(mem, budget, a, i) && Fits(mem, budget, b, i);
    }
  }

  lemma AddChunk(mem: seq<nat>, budget: nat, chunks: seq<Range>, r: Range)
    requires Tiles(mem, budget, chunks) && Maximal(mem, budget, chunks)
    requires Acceptable(mem, budget, r) && r.start == StartOf(chunks, |chunks|)
    requires r.end < |mem| ==> Load(mem, r.start, r.end + 1) > budget
    ensures Tiles(mem, budget, chunks + [r]) && Maximal(mem, budget, chunks + [r])
  {
    forall i | 0 <= i < |chunks + [r]|
      ensures Fits(mem, budget, chunks + [r], i) && Full(mem, budget, chunks + [r], i)
    {
      if i < |chunks| {
        assert Fits(mem, budget, chunks, i) && Full(mem, budget, chunks, i);
      }
    }
  }

  method ComputeAdaptiveChunks(mem: seq<nat>, budget: nat) returns (chunks: seq<Range>)
    ensures Partition(mem, budget, chunks)
    ensures Maximal(mem, budget, chunks)
  {
    if mem == [] {
      return [];
    }
    chunks := [];
    var chunkStart, chunkMemory := 0, 0;
    for i := 0 to |mem|
      invariant chunkStart <= i && chunkStart == StartOf(chunks, |chunks|)
      invariant chunkMemory == Load(mem, chunkStart, i)
      invariant chunkStart < i ==> chunkMemory <= budget
      invariant Tiles(mem, budget, chunks) && Maximal(mem, budget, chunks)
    {
      if chunkMemory + mem[i] > budget && i > chunkStart {
        AddChunk(mem, budget, chunks, Range(chunkStart, i));
        chunks := chunks + [Range(chunkStart, i)];
        chunkStart := i;
        chunkMemory := 0;
      }
      chunkMemory := chunkMemory + mem[i];
      if mem[i] > budget && i == chunkStart {
        if i + 1 < |mem| {
          LoadMonotone(mem, chunkStart, chunkStart, i + 2, i + 1);
        }
        AddChunk(mem, budget, chunks, Range(chunkStart, i + 1));
        chunks := chunks + [Range(chunkStart, i + 1)];
        chunkStart := i + 1;
        chunkMemory := 0;
      }
    }
    if chunkStart < |mem| {
      AddChunk(mem, budget, chunks, Range(chunkStart, |mem|));
      chunks := chunks + [Range(chunkStart, |mem|)];
    }
  }
}
