/** Real-time ingestion: following a canonical chain that may be reorganised at any moment. */
module Live {
  import opened Types
  import opened Chain
  import opened Aggregation
  import opened Cache
  import opened Coherence
  import opened Writer
  import opened Refinement
  import opened Chunking
  import opened Ingestion
  import opened Orchestration
  import opened Recovery

  // ------------------------------------------------------------------
  // Chains
  // ------------------------------------------------------------------

  /** The node's best chain, by height. */
  ghost predicate Canonical(chain: seq<Block>) {
    forall i :: 0 < i < |chain| ==> chain[i].prevHash == chain[i - 1].hash
  }

  /** The block table is one chain from height 0 on, each block naming its parent's hash. */
  ghost predicate ChainRows(blocks: seq<BlockData>) {
    && (forall i :: 0 <= i < |blocks| ==> blocks[i].height == i)
    && (forall i :: 0 < i < |blocks| ==> blocks[i].previousHash == blocks[i - 1].hash)
  }

  /** A contiguous, hash-linked chain with the checkpoint at its tip. */
  ghost predicate StoredChain(t: Tables) {
    && t.blocks != [] && ChainRows(t.blocks)
    && t.checkpoint.Some?
    && t.checkpoint.value.height == |t.blocks| - 1
    && t.checkpoint.value.hash == t.blocks[|t.blocks| - 1].hash
  }

  /** A block hash commits to the parent hash. */
  ghost predicate HashCommits(blocks: seq<BlockData>, chain: seq<Block>) {
    forall i, j :: 0 <= i < |blocks| && 0 <= j < |chain| && blocks[i].hash == chain[j].hash ==>
        blocks[i].previousHash == chain[j].prevHash
  }

  predicate Agree(blocks: seq<BlockData>, chain: seq<Block>, h: int) {
    0 <= h < |chain| && FindBlock(blocks, h).Some? && FindBlock(blocks, h).value.hash == chain[h].hash
  }

  lemma {:induction false} FindInChain(blocks: seq<BlockData>, h: int)
    requires forall i :: 0 <= i < |blocks| ==> blocks[i].height == i
    ensures FindBlock(blocks, h) == if 0 <= h < |blocks| then Some(blocks[h]) else None
  {
    FindBlockFinds(blocks, h);
    if 0 <= h < |blocks| {
      assert blocks[h] in blocks;
    }
  }

  /** Where two hash-linked chains agree, they agree all the way down. */
  lemma {:induction false} AgreementGoesDown(blocks: seq<BlockData>, chain: seq<Block>, f: int, h: int)
    requires ChainRows(blocks) && Canonical(chain) && HashCommits(blocks, chain)
    requires Agree(blocks, chain, f) && 0 <= h <= f
    ensures Agree(blocks, chain, h)
    decreases f - h
  {
    FindInChain(blocks, f);
    if h < f {
      FindInChain(blocks, f - 1);
      AgreementGoesDown(blocks, chain, f - 1, h);
    }
  }

  /** The walk's answer: agreement at `f`, none above it up to `start`. */
  ghost predicate IsFork(blocks: seq<BlockData>, chain: seq<Block>, start: int, f: int) {
    && 0 <= f <= start && Agree(blocks, chain, f)
    && forall h :: f < h <= start ==> !Agree(blocks, chain, h)
  }

  /**
    Fork point exactness: `f` separates agreement from disagreement, it is the only
    such height, and there is one unless the genesis blocks differ.
    */
  lemma ForkPointIsExact(blocks: seq<BlockData>, chain: seq<Block>, start: int)
    requires ChainRows(blocks) && Canonical(chain) && HashCommits(blocks, chain) && 0 <= start
    ensures forall f :: IsFork(blocks, chain, start, f) ==>
              forall h :: 0 <= h <= start ==> (Agree(blocks, chain, h) <==> h <= f)
    ensures forall f, g :: IsFork(blocks, chain, start, f) && IsFork(blocks, chain, start, g) ==> f == g
    ensures (exists f :: IsFork(blocks, chain, start, f)) <==> Agree(blocks, chain, 0)
  {
    forall f, h | IsFork(blocks, chain, start, f) && 0 <= h <= start
      ensures Agree(blocks, chain, h) <==> h <= f
    {
      if h <= f {
        AgreementGoesDown(blocks, chain, f, h);
      }
    }
    if f :| IsFork(blocks, chain, start, f) {
      AgreementGoesDown(blocks, chain, f, 0);
    }
    if Agree(blocks, chain, 0) {
      var f := HighestAgreement(blocks, chain, start);
    }
  }

  lemma {:induction false} HighestAgreement(blocks: seq<BlockData>, chain: seq<Block>, start: int) returns (f: int)
    requires 0 <= start && Agree(blocks, chain, 0)
    ensures IsFork(blocks, chain, start, f)
    decreases start
  {
    if Agree(blocks, chain, start) {
      f := start;
    } else {
      f := HighestAgreement(blocks, chain, start - 1);
    }
  }

  // ------------------------------------------------------------------
  // Calls to the node
  // ------------------------------------------------------------------

  /**
    The node's best chain at each call of each round, where call 0 asks for the tip. It
    may change from any call to the next; an empty one stands for a call that fails.
    */
  type Env = (nat, nat) -> seq<Block>

  /** The true outputs, the shard capacities of the cache, and whether it is truthful in every field. */
  datatype Known = Known(out: Resolved, caps: seq<nat>, exact: bool)

  /** What is served is well-formed, and its outputs are the true ones. */
  ghost predicate Serves(env: Env, k: Known) {
    forall r, n {:trigger ServedWell(env(r, n), k)} :: ServedWell(env(r, n), k)
  }

  ghost predicate ServedWell(chain: seq<Block>, k: Known) {
    && |chain| < 0x1_0000_0000 && Canonical(chain)
    && forall h :: 0 <= h < |chain| ==> OutputsTrue(OutputRows(TxsOf([ItemAt(chain, h)])), k.out)
  }

  /** Hashes commit to parents across everything that is stored or served. */
  ghost predicate Committed(blocks: seq<BlockData>, env: Env) {
    && (forall r, n {:trigger HashCommits(blocks, env(r, n))} :: HashCommits(blocks, env(r, n)))
    && (forall r, n, q, m {:trigger ChainsCommit(env(r, n), env(q, m))} :: ChainsCommit(env(r, n), env(q, m)))
  }

  ghost predicate ChainsCommit(a: seq<Block>, b: seq<Block>) {
    forall i, j :: 0 <= i < |a| && 0 <= j < |b| && a[i].hash == b[j].hash ==> a[i].prevHash == b[j].prevHash
  }

  /** Every call of the round is answered by a chain that reaches `top` and starts with the stored genesis block. */
  ghost predicate Answers(env: Env, round: nat, genesis: string, top: int) {
    forall n {:trigger env(round, n)} :: AnswersAt(env(round, n), genesis, top)
  }

  predicate AnswersAt(chain: seq<Block>, genesis: string, top: int) {
    chain != [] && top < |chain| && chain[0].hash == genesis
  }

  // ------------------------------------------------------------------
  // The walk to the fork point
  // ------------------------------------------------------------------

  datatype ForkError = CallFailed | DivergedAtGenesis

  predicate Differs(blocks: seq<BlockData>, chain: seq<Block>, h: int) {
    h < |chain| && !Agree(blocks, chain, h)
  }

  /**
    The walk asks for one hash per height, downwards from `start`, and every call may
    meet another chain: agreement at `f`, difference at each height above it.
    */
  ghost predicate WalkEnds(blocks: seq<BlockData>, env: Env, round: nat, first: nat, start: int, f: int) {
    && 0 <= f <= start && Agree(blocks, env(round, first + (start - f)), f)
    && forall c: nat :: first <= c < first + (start - f) ==> Differs(blocks, env(round, c), start - (c - first))
  }

  ghost predicate EndsNowhere(blocks: seq<BlockData>, env: Env, round: nat, first: nat, start: int) {
    forall f :: !WalkEnds(blocks, env, round, first, start, f)
  }

  /** Against one chain all along, the walk ends at its fork point. */
  lemma WalkOnOneChain(blocks: seq<BlockData>, env: Env, round: nat, first: nat, start: int, f: int, chain: seq<Block>)
    requires start < |chain| && forall n: nat :: first <= n ==> env(round, n) == chain
    ensures WalkEnds(blocks, env, round, first, start, f) <==> IsFork(blocks, chain, start, f)
  {
    if WalkEnds(blocks, env, round, first, start, f) {
      forall h | f < h <= start
        ensures !Agree(blocks, chain, h)
      {
        assert Differs(blocks, env(round, first + (start - h)), h);
      }
    }
  }

  method FindForkPoint(writer: MockWriter, env: Env, round: nat, first: nat, start: u32)
    returns (r: Result<u32, ForkError>)
    ensures r.Success? ==> WalkEnds(writer.blocks, env, round, first, start, r.value)
    ensures r.Failure? ==> EndsNowhere(writer.blocks, env, round, first, start)
    ensures r == Failure(DivergedAtGenesis) ==> Differs(writer.blocks, env(round, first + start), 0)
    ensures r == Failure(CallFailed) ==>
              exists c: nat :: first <= c <= first + start && |env(round, c)| <= start - (c - first)
  {
    var height: int := start;
    while height >= 0
      invariant -1 <= height <= start
      invariant forall c: nat :: first <= c < first + (start - height) ==>
                  Differs(writer.blocks, env(round, c), start - (c - first))
    {
      var ours := writer.LookupBlockHash(height);
      var call: nat := first + (start - height);
      var chain := env(round, call);
      if height >= |chain| {
        return Failure(CallFailed);
      }
      if ours == Some(chain[height].hash) {
        return Success(height);
      }
      height := height - 1;
    }
    assert Differs(writer.blocks, env(round, first + start), 0);
    r := Failure(DivergedAtGenesis);
  }

  /** With every call answered, the walk ends somewhere. */
  lemma {:induction false} WalkHasEnd(blocks: seq<BlockData>, env: Env, round: nat, first: nat, start: int, h: int)
    returns (f: int)
    requires blocks != [] && ChainRows(blocks) && 0 <= h <= start && Answers(env, round, blocks[0].hash, start)
    requires forall c: nat :: first <= c < first + (start - h) ==> Differs(blocks, env(round, c), start - (c - first))
    ensures WalkEnds(blocks, env, round, first, start, f)
    decreases h
  {
    var chain := env(round, first + (start - h));
    if Agree(blocks, chain, h) {
      f := h;
    } else {
      FindInChain(blocks, 0);
      assert h > 0 && Differs(blocks, chain, h);
      f := WalkHasEnd(blocks, env, round, first, start, h - 1);
    }
  }

  // ------------------------------------------------------------------
  // One step of the loop
  // ------------------------------------------------------------------

  function ItemAt(chain: seq<Block>, h: u32): Item
    requires h < |chain|
  {
    Item(h, chain[h], "rpc")
  }

  /** The stored blocks are the first of the canonical ones. */
  ghost predicate PrefixOf(blocks: seq<BlockData>, chain: seq<Block>) {
    |blocks| <= |chain| && forall i :: 0 <= i < |blocks| ==> blocks[i].hash == chain[i].hash
  }

  /** Ingesting the next block on top of a stored chain keeps it one. */
  lemma ChainGrows(t0: Tables, t: Tables, item: Item, out: Resolved)
    requires StoredChain(t0) && Grows(t0, t, [item], out)
    requires item.height == |t0.blocks| && item.block.prevHash == t0.blocks[|t0.blocks| - 1].hash
    ensures StoredChain(t) && t.blocks == t0.blocks + [BlockRow(item)]
  {
    assert BlockRows([item]) == [BlockRow(item)];
  }

  /** The one chunk of a batch of one block. */
  lemma OneChunk(t0: Tables, t: Tables, item: Item, budget: nat, chunks: seq<Range>, k: Known)
    requires Partition(Memories([item]), budget, chunks)
    requires PrefixIngested(t0, t, [item], 1, chunks, k.caps, k.out, k.exact)
    ensures ChunkDone(t0, t, [item], k.caps, k.out, k.exact)
  {
    assert [item][..1] == [item] && [item][0..1] == [item] && [item][..0] == [];
    if FindsInputs(k.caps, t0.outputs, [item]) {
      forall c | c in chunks && c.start <= c.end <= 1
        ensures ChunkResolves(k.caps, [item], c, t0.outputs)
      {
        assert [item][c.start..c.end] == if c.start < c.end then [item] else [];
      }
      PhasesCommuteWithBlocks(ViewOf(t0), [item], k.out);
    }
  }

  lemma ChainCut(blocks: seq<BlockData>, f: int, tip: int)
    requires forall i :: 0 <= i < |blocks| ==> blocks[i].height == i
    requires 0 <= f < |blocks| && |blocks| - 1 <= tip
    ensures Filter(BlockOutside(f, tip), blocks) == blocks[..f + 1]
  {
    FilterFront(BlockOutside(f, tip), blocks, f + 1);
  }

  /** Rolling a stored chain back to a fork point leaves the chain up to it. */
  lemma ChainShrinks(t0: Tables, fork: int)
    requires StoredChain(t0) && 0 <= fork < |t0.blocks| - 1
    ensures var t := RolledBack(t0, |t0.blocks| - 1, fork);
            StoredChain(t) && t.blocks == t0.blocks[..fork + 1]
  {
    var tip := |t0.blocks| - 1;
    RollbacksCompose(t0, fork, tip);
    ChainCut(t0.blocks, fork, tip);
    FindInChain(t0.blocks[..fork + 1], fork);
  }

  lemma OutputsStayTrue(t0: Tables, tip: int, fork: int, k: Known)
    requires OutputsTrue(t0.outputs, k.out)
    ensures OutputsTrue(RolledBack(t0, tip, fork).outputs, k.out)
  {
    RollbacksCompose(t0, fork, tip);
    var txids := TxidsIn(t0.transactions, fork, tip);
    forall o | o in Filter(OutputNotOf(txids), t0.outputs)
      ensures o in t0.outputs
    {
      FilterMember(OutputNotOf(txids), t0.outputs, o);
    }
  }

  /** Both a longer and a shorter stored chain stay within what is committed. */
  lemma CommittedStep(before: seq<BlockData>, after: seq<BlockData>, env: Env, r: nat, n: nat, h: u32)
    requires Committed(before, env)
    requires after <= before || (h < |env(r, n)| && after == before + [BlockRow(ItemAt(env(r, n), h))])
    ensures Committed(after, env)
  {
    forall q, m
      ensures HashCommits(after, env(q, m))
    {
      assert HashCommits(before, env(q, m)) && ChainsCommit(env(r, n), env(q, m));
    }
  }

  /** Between steps: a stored chain, and `height` the next block to ask for. */
  ghost predicate InStep(o: Orchestrator, height: int, env: Env, k: Known)
    reads o, o.writer, o.cache
  {
    && o.Ready(k.out, k.exact) && o.caps == k.caps && StoredChain(o.writer.Contents()) && height == |o.writer.blocks|
    && Committed(o.writer.blocks, env)
  }

  datatype Move = Up | Back(depth: nat)

  /**
    One step whose first call is `call`. Up: the next block of that call's chain is ingested, with
    true rows if it finds its inputs. Back: that block does not name the stored tip; the walk, one call per height,
    finds agreement `depth` blocks below the tip, and what is left is a prefix of the
    chain that agreed. It is shorter than before if and only if the walk's first chain
    differs at the tip.
    */
  ghost predicate StepOn(a: Tables, b: Tables, env: Env, round: nat, call: nat, move: Move, k: Known) {
    var height := |a.blocks|;
    && 0 < height < |env(round, call)| < 0x1_0000_0000
    && match move
       case Up => ChunkDone(a, b, [ItemAt(env(round, call), height)], k.caps, k.out, k.exact)
       case Back(depth) =>
         && depth < height && env(round, call)[height].prevHash != a.blocks[height - 1].hash
         && WalkEnds(a.blocks, env, round, call + 1, height - 1, height - 1 - depth)
         && b == RolledBack(a, height - 1, height - 1 - depth)
         && b.blocks == a.blocks[..height - depth] && PrefixOf(b.blocks, env(round, call + 1 + depth))
         && (depth > 0 <==> Differs(a.blocks, env(round, call + 1), height - 1))
  }

  /**
    No step from `t` is possible: the fetch, which is the call `call`, fails, or the block
    does not name the stored tip and the walk that follows ends nowhere.
    */
  ghost predicate Stuck(t: Tables, env: Env, round: nat, call: nat) {
    var height, chain := |t.blocks|, env(round, call);
    || height >= |chain|
    || (height > 0 && chain[height].prevHash != t.blocks[height - 1].hash
        && EndsNowhere(t.blocks, env, round, call + 1, height - 1))
  }

  /** With every call answered there is a step. */
  lemma AnsweredIsNotStuck(t: Tables, env: Env, round: nat, call: nat, top: int)
    requires StoredChain(t) && |t.blocks| <= top && Answers(env, round, t.blocks[0].hash, top)
    ensures !Stuck(t, env, round, call)
  {
    assert AnswersAt(env(round, call), t.blocks[0].hash, top);
    var f := WalkHasEnd(t.blocks, env, round, call + 1, |t.blocks| - 1, |t.blocks| - 1);
  }

  /** A rollback to where the walk ended that took the blocks off but failed to write the checkpoint. */
  ghost predicate LostCheckpoint(t: Tables, now: Tables, env: Env, round: nat, call: nat) {
    exists fork :: CutOnly(t, now, env, round, call, fork)
  }

  ghost predicate CutOnly(t: Tables, now: Tables, env: Env, round: nat, call: nat, fork: int) {
    && 0 <= fork < |t.blocks| - 1 && now == RemoveDown(t, fork, |t.blocks| - 1)
    && WalkEnds(t.blocks, env, round, call + 1, |t.blocks| - 1, fork)
  }

  /** What an error in the step that starts with `call` leaves of the tables `t`. */
  ghost predicate LeftBehind(writer: MockWriter, t: Tables, env: Env, round: nat, call: nat)
    reads writer
  {
    (writer.Settled() && (writer.Contents() == t || LostCheckpoint(t, writer.Contents(), env, round, call)))
      || writer.Over(t)
  }

  /** A batch of the one block that follows the tip. */
  method IngestNext(o: Orchestrator, item: Item, ghost k: Known) returns (r: Outcome<WriterError>)
    requires o.Ready(k.out, k.exact) && StoredChain(o.writer.Contents()) && item.height == |o.writer.blocks|
    requires OutputsTrue(OutputRows(TxsOf([item])), k.out)
    requires o.caps == k.caps
    modifies o.writer, o.cache
    ensures r.Fail? || (o.Ready(k.out, k.exact) && StoredChain(o.writer.Contents()))
    ensures r.Fail? || ChunkDone(old(o.writer.Contents()), o.writer.Contents(), [item], k.caps, k.out, k.exact)
    ensures r.Pass? ==> o.writer.blocks == old(o.writer.blocks) + [BlockRow(item)]
    ensures r.Fail? && r.error.ReorgDetected? ==>
              && o.Ready(k.out, k.exact) && o.writer.Contents() == old(o.writer.Contents())
              && item.block.prevHash != o.writer.blocks[item.height - 1].hash
    ensures r.Fail? && !r.error.ReorgDetected? ==>
              old(o.writer.log.failures) < o.writer.log.failures && o.writer.Over(old(o.writer.Contents()))
    ensures Explains(old(o.writer.log), o.writer.log, o.writer.inTransaction, o.writer.Quiet())
  {
    ghost var t0 := o.writer.Contents();
    FindInChain(t0.blocks, item.height - 1);
    ghost var done, chunks, n, base;
    r, done, chunks, n, base := o.IngestBlocksBatch([item], k.out, k.exact);
    if r.Pass? {
      NextIngested(t0, o.writer.Contents(), item, o.maxMemory, chunks, k);
    }
  }

  lemma NextIngested(t0: Tables, t: Tables, item: Item, budget: nat, chunks: seq<Range>, k: Known)
    requires StoredChain(t0) && item.height == |t0.blocks| && Partition(Memories([item]), budget, chunks)
    requires PrefixIngested(t0, t, [item], 1, chunks, k.caps, k.out, k.exact)
    ensures StoredChain(t) && t.blocks == t0.blocks + [BlockRow(item)]
    ensures ChunkDone(t0, t, [item], k.caps, k.out, k.exact)
  {
    FindInChain(t0.blocks, item.height - 1);
    OneChunk(t0, t, item, budget, chunks, k);
    ChainGrows(t0, t, item, k.out);
  }

  /** Ingests the block that was fetched. */
  method PutOnTop(o: Orchestrator, ghost env: Env, ghost round: nat, ghost call: nat, chain: seq<Block>, height: u32,
                  ghost k: Known)
    returns (r: Outcome<WriterError>)
    requires Serves(env, k) && InStep(o, height, env, k) && chain == env(round, call) && height < |chain|
    modifies o.writer, o.cache
    ensures |chain| < 0x1_0000_0000
    ensures r.Fail? || InStep(o, height + 1, env, k)
    ensures r.Fail? || StepOn(old(o.writer.Contents()), o.writer.Contents(), env, round, call, Up, k)
    ensures r.Fail? && r.error.ReorgDetected? ==>
              && InStep(o, height, env, k) && o.writer.Contents() == old(o.writer.Contents())
              && chain[height].prevHash != o.writer.blocks[height - 1].hash
    ensures r.Fail? && !r.error.ReorgDetected? ==>
              old(o.writer.log.failures) < o.writer.log.failures && o.writer.Over(old(o.writer.Contents()))
    ensures Explains(old(o.writer.log), o.writer.log, o.writer.inTransaction, o.writer.Quiet())
  {
    ghost var t0 := o.writer.Contents();
    assert ServedWell(env(round, call), k);
    r := IngestNext(o, ItemAt(chain, height), k);
    if r.Pass? {
      UpIsAStep(t0, o.writer.Contents(), env, round, call, k);
    }
  }

  datatype StepOutcome = Advanced | RolledBackTo(fork: u32) | Stopped

  /** The height to ask for after a step. */
  function HeightAfterStep(r: StepOutcome, height: int): int {
    if r.RolledBackTo? then r.fork + 1 else height + 1
  }

  ghost function MoveOf(r: StepOutcome, height: int): Move
    requires r.RolledBackTo? ==> r.fork < height
  {
    if r.RolledBackTo? then Back(height - 1 - r.fork) else Up
  }

  /**
    Fetches the block at `height` and ingests it; on a parent mismatch finds the fork
    point and rolls back to it.
    */
  method IngestOrRollBack(o: Orchestrator, env: Env, round: nat, call: nat, height: u32, ghost k: Known)
    returns (r: StepOutcome)
    requires Serves(env, k) && InStep(o, height, env, k)
    modifies o.writer, o.cache
    ensures r.RolledBackTo? ==> r.fork < height
    ensures r.Stopped? || InStep(o, HeightAfterStep(r, height), env, k)
    ensures r.Stopped? || StepOn(old(o.writer.Contents()), o.writer.Contents(), env, round, call, MoveOf(r, height), k)
    ensures r.Stopped? ==> LeftBehind(o.writer, old(o.writer.Contents()), env, round, call)
    ensures r.Stopped? && o.writer.log.failures == old(o.writer.log.failures) ==>
              o.writer.Contents() == old(o.writer.Contents()) && Stuck(old(o.writer.Contents()), env, round, call)
    ensures Explains(old(o.writer.log), o.writer.log, o.writer.inTransaction, o.writer.Quiet())
  {
    var chain := env(round, call);
    ghost var t0 := o.writer.Contents();
    if height >= |chain| {
      return Stopped;
    }
    var outcome := PutOnTop(o, env, round, call, chain, height, k);
    if outcome.Pass? {
      return Advanced;
    }
    if !outcome.error.ReorgDetected? {
      return Stopped;
    }
    assert o.writer.Contents() == t0;
    r := GoBack(o, env, round, call, height, k);
  }

  /** Rolls back because the block at `height` does not name the stored tip as its parent. */
  method GoBack(o: Orchestrator, env: Env, round: nat, call: nat, height: u32, ghost k: Known) returns (r: StepOutcome)
    requires Serves(env, k) && InStep(o, height, env, k)
    requires height < |env(round, call)| < 0x1_0000_0000
             && env(round, call)[height].prevHash != o.writer.blocks[height - 1].hash
    modifies o.writer`blocks, o.writer`transactions, o.writer`outputs, o.writer`inputs, o.writer`performs,
             o.writer`benefits,
             o.writer`checkpoint, o.writer`log
    ensures !r.Advanced?
    ensures r.RolledBackTo? ==> r.fork < height
    ensures r.Stopped? || InStep(o, HeightAfterStep(r, height), env, k)
    ensures r.Stopped? || StepOn(old(o.writer.Contents()), o.writer.Contents(), env, round, call, MoveOf(r, height), k)
    ensures r.Stopped? ==>
              if o.writer.log.failures == old(o.writer.log.failures)
              then o.writer.Contents() == old(o.writer.Contents()) && Stuck(old(o.writer.Contents()), env, round, call)
              else LostCheckpoint(old(o.writer.Contents()), o.writer.Contents(), env, round, call)
    ensures Steady(old(o.writer.log), o.writer.log) && o.writer.Settled()
  {
    r := RollBack(o.writer, env, round, call, height, k);
  }

  lemma UpIsAStep(t0: Tables, t: Tables, env: Env, round: nat, call: nat, k: Known)
    requires StoredChain(t0) && Committed(t0.blocks, env) && |t0.blocks| < |env(round, call)| < 0x1_0000_0000
    requires ChunkDone(t0, t, [ItemAt(env(round, call), |t0.blocks|)], k.caps, k.out, k.exact) && StoredChain(t)
    ensures Committed(t.blocks, env) && StepOn(t0, t, env, round, call, Up, k)
  {
    assert BlockRows([ItemAt(env(round, call), |t0.blocks|)]) == [BlockRow(ItemAt(env(round, call), |t0.blocks|))];
    CommittedStep(t0.blocks, t.blocks, env, round, call, |t0.blocks|);
  }

  lemma StepBlocks(a: Tables, b: Tables, env: Env, round: nat, call: nat, move: Move, k: Known)
    requires StepOn(a, b, env, round, call, move, k)
    ensures move.Up? ==> b.blocks == a.blocks + [BlockRow(ItemAt(env(round, call), |a.blocks|))]
  {
    if move.Up? {
      var item := ItemAt(env(round, call), |a.blocks|);
      assert BlockRows([item]) == [BlockRow(item)];
    }
  }

  /** The reorganisation branch: the block at `height` does not name the stored tip as its parent. */
  method RollBack(writer: MockWriter, env: Env, round: nat, call: nat, height: u32, ghost k: Known)
    returns (r: StepOutcome)
    requires StoredChain(writer.Contents()) && OutputsTrue(writer.outputs, k.out) && height == |writer.blocks|
    requires Serves(env, k) && Committed(writer.blocks, env)
    requires height < |env(round, call)| < 0x1_0000_0000
             && env(round, call)[height].prevHash != writer.blocks[height - 1].hash
    modifies writer`blocks, writer`transactions, writer`outputs, writer`inputs, writer`performs, writer`benefits,
             writer`checkpoint, writer`log
    ensures !r.Advanced?
    ensures r.RolledBackTo? ==> |writer.blocks| == r.fork + 1 <= height && OutputsTrue(writer.outputs, k.out)
    ensures r.Stopped? || (StoredChain(writer.Contents()) && Committed(writer.blocks, env))
    ensures r.Stopped? || StepOn(old(writer.Contents()), writer.Contents(), env, round, call, MoveOf(r, height), k)
    ensures r.RolledBackTo? || if writer.log.failures == old(writer.log.failures)
                           then writer.Contents() == old(writer.Contents())
                             && Stuck(old(writer.Contents()), env, round, call)
                           else LostCheckpoint(old(writer.Contents()), writer.Contents(), env, round, call)
    ensures Steady(old(writer.log), writer.log)
  {
    var walk := FindForkPoint(writer, env, round, call + 1, height - 1);
    match walk
    case Failure(e) => r := Stopped;
    case Success(f) =>
      r := RollBackTo(writer, env, round, call, height, f, k);
  }

  /** Rolls back to where the walk ended. */
  method RollBackTo(writer: MockWriter, env: Env, round: nat, call: nat, height: u32, f: u32, ghost k: Known)
    returns (r: StepOutcome)
    requires StoredChain(writer.Contents()) && OutputsTrue(writer.outputs, k.out) && height == |writer.blocks|
    requires Serves(env, k) && Committed(writer.blocks, env)
             && WalkEnds(writer.blocks, env, round, call + 1, height - 1, f)
    requires height < |env(round, call)| < 0x1_0000_0000
             && env(round, call)[height].prevHash != writer.blocks[height - 1].hash
    modifies writer`blocks, writer`transactions, writer`outputs, writer`inputs, writer`performs, writer`benefits,
             writer`checkpoint, writer`log
    ensures f < height && (r == RolledBackTo(f) || r == Stopped)
    ensures r.RolledBackTo? ==> |writer.blocks| == f + 1 && OutputsTrue(writer.outputs, k.out)
    ensures r.Stopped? || (StoredChain(writer.Contents()) && Committed(writer.blocks, env))
    ensures r.RolledBackTo? || LostCheckpoint(old(writer.Contents()), writer.Contents(), env, round, call)
    ensures r.Stopped? || StepOn(old(writer.Contents()), writer.Contents(), env, round, call, MoveOf(r, height), k)
    ensures Steady(old(writer.log), writer.log) && (r.Stopped? ==> old(writer.log.failures) < writer.log.failures)
  {
    ghost var t0 := writer.Contents();
    BackIsAStep(t0, env, round, call, height, f, k);
    var rolled := RollbackToHeight(writer, height - 1, f);
    if rolled.Failure? {
      assert CutOnly(t0, writer.Contents(), env, round, call, f);
    }
    r := if rolled.Success? then RolledBackTo(f) else Stopped;
  }

  lemma BackIsAStep(t0: Tables, env: Env, round: nat, call: nat, height: u32, f: u32, k: Known)
    requires StoredChain(t0) && OutputsTrue(t0.outputs, k.out) && height == |t0.blocks|
    requires Serves(env, k) && Committed(t0.blocks, env) && WalkEnds(t0.blocks, env, round, call + 1, height - 1, f)
    requires height < |env(round, call)| < 0x1_0000_0000
             && env(round, call)[height].prevHash != t0.blocks[height - 1].hash
    ensures var t := RolledBack(t0, height - 1, f);
            && StoredChain(t) && |t.blocks| == f + 1 && OutputsTrue(t.outputs, k.out) && Committed(t.blocks, env)
            && StepOn(t0, t, env, round, call, MoveOf(RolledBackTo(f), height), k)
  {
    var t := RolledBack(t0, height - 1, f);
    CutAtFork(t0, env, round, call + 1, f, k);
    CommittedStep(t0.blocks, t.blocks, env, round, call, height);
    CutIsAStep(t0, t, env, round, call, height, f, height - 1 - f, k);
  }

  lemma CutIsAStep(t0: Tables, t: Tables, env: Env, round: nat, call: nat, height: u32, f: u32, depth: nat, k: Known)
    requires height == |t0.blocks| && f < height && depth == height - 1 - f && t == RolledBack(t0, height - 1, f)
    requires WalkEnds(t0.blocks, env, round, call + 1, height - 1, f)
    requires height < |env(round, call)| < 0x1_0000_0000
             && env(round, call)[height].prevHash != t0.blocks[height - 1].hash
    requires t.blocks == t0.blocks[..f + 1] && PrefixOf(t.blocks, env(round, call + 1 + depth))
    requires f < height - 1 <==> Differs(t0.blocks, env(round, call + 1), height - 1)
    ensures StepOn(t0, t, env, round, call, Back(depth), k)
  {
    assert height - 1 - depth == f && height - depth == f + 1 && call + 1 + depth == call + 1 + (height - 1 - f);
  }

  lemma AgreedPrefix(blocks: seq<BlockData>, chain: seq<Block>, f: int)
    requires ChainRows(blocks) && Canonical(chain) && HashCommits(blocks, chain) && 0 <= f < |blocks|
             && Agree(blocks, chain, f)
    ensures PrefixOf(blocks[..f + 1], chain)
  {
    forall i | 0 <= i <= f
      ensures blocks[i].hash == chain[i].hash
    {
      AgreementGoesDown(blocks, chain, f, i);
      FindInChain(blocks, i);
    }
  }

  lemma CutStays(t0: Tables, f: int, k: Known)
    requires StoredChain(t0) && OutputsTrue(t0.outputs, k.out) && 0 <= f < |t0.blocks|
    ensures var t := RolledBack(t0, |t0.blocks| - 1, f);
            StoredChain(t) && t.blocks == t0.blocks[..f + 1] && OutputsTrue(t.outputs, k.out)
  {
    if f < |t0.blocks| - 1 {
      ChainShrinks(t0, f);
      OutputsStayTrue(t0, |t0.blocks| - 1, f, k);
    }
  }

  /** The tables after rolling back to where the walk ended. */
  lemma CutAtFork(t0: Tables, env: Env, round: nat, first: nat, f: int, k: Known)
    requires StoredChain(t0) && OutputsTrue(t0.outputs, k.out)
    requires Serves(env, k) && Committed(t0.blocks, env)
    requires WalkEnds(t0.blocks, env, round, first, |t0.blocks| - 1, f)
    ensures var t, tip := RolledBack(t0, |t0.blocks| - 1, f), |t0.blocks| - 1;
            && StoredChain(t) && t.blocks == t0.blocks[..f + 1] && PrefixOf(t.blocks, env(round, first + (tip - f)))
            && OutputsTrue(t.outputs, k.out) && (f < tip <==> Differs(t0.blocks, env(round, first), tip))
  {
    var tip := |t0.blocks| - 1;
    var chain := env(round, first + (tip - f));
    assert ServedWell(chain, k) && HashCommits(t0.blocks, chain);
    CutStays(t0, f, k);
    AgreedPrefix(t0.blocks, chain, f);
    if f < tip {
      assert Differs(t0.blocks, env(round, first), tip - (first - first));
    }
  }

  // ------------------------------------------------------------------
  // Whole runs
  // ------------------------------------------------------------------

  /** The stored chains of one round, and the steps between them. */
  datatype Run = Run(states: seq<Tables>, moves: seq<Move>)

  function Last(run: Run): Tables
    requires run.states != []
  {
    run.states[|run.states| - 1]
  }

  /** The height a round aims for: the announced tip, but no more than `maxHeight`. */
  function Target(env: Env, round: nat, maxHeight: int): int {
    Min(|env(round, 0)| - 1, maxHeight)
  }

  /** Why a round stops although no call to the store has failed: the tip query fails, or no step is possible. */
  ghost predicate Cut(run: Run, env: Env, round: nat, maxHeight: int)
    requires run.states != []
  {
    || env(round, 0) == []
    || (|Last(run).blocks| <= Target(env, round, maxHeight) && Stuck(Last(run), env, round, |run.moves| + 1))
  }

  /** Not if every call is answered. */
  lemma AnsweredIsNotCut(run: Run, env: Env, round: nat, maxHeight: int, k: Known)
    requires Legal(run, env, round, maxHeight, k)
             && Answers(env, round, run.states[0].blocks[0].hash, Target(env, round, maxHeight))
    ensures !Cut(run, env, round, maxHeight)
  {
    assert env(round, 0) != [];
    GenesisStays(run, env, round, maxHeight, |run.moves|, k);
    if |Last(run).blocks| <= Target(env, round, maxHeight) {
      AnsweredIsNotStuck(Last(run), env, round, |run.moves| + 1, Target(env, round, maxHeight));
    }
  }

  /** Step `i` makes call `i + 1` and, going back, those that follow; going back ends the round. */
  ghost predicate Legal(run: Run, env: Env, round: nat, maxHeight: int, k: Known) {
    && |run.states| == |run.moves| + 1
    && (forall i :: 0 <= i < |run.states| ==> StoredChain(run.states[i]))
    && (forall i :: 0 <= i < |run.moves| ==>
          && StepOn(run.states[i], run.states[i + 1], env, round, i + 1, run.moves[i], k)
          && |run.states[i].blocks| <= Target(env, round, maxHeight))
    && (forall i :: 0 <= i < |run.moves| - 1 ==> run.moves[i].Up?)
  }

  /** The round has reached its target, or gone back. */
  ghost predicate Complete(run: Run, env: Env, round: nat, maxHeight: int)
    requires run.states != []
  {
    (run.moves != [] && run.moves[|run.moves| - 1].Back?) || |Last(run).blocks| > Target(env, round, maxHeight)
  }

  lemma LegalOn(run: Run, t: Tables, env: Env, round: nat, maxHeight: int, move: Move, k: Known)
    requires Legal(run, env, round, maxHeight, k) && StoredChain(t)
    requires StepOn(Last(run), t, env, round, |run.moves| + 1, move, k)
             && |Last(run).blocks| <= Target(env, round, maxHeight)
    requires forall m :: m in run.moves ==> m.Up?
    ensures Legal(Extended(run, t, move), env, round, maxHeight, k) && Last(Extended(run, t, move)) == t
  {
    var more := Extended(run, t, move);
    forall i | 0 <= i < |more.moves|
      ensures StepOn(more.states[i], more.states[i + 1], env, round, i + 1, more.moves[i], k)
      ensures |more.states[i].blocks| <= Target(env, round, maxHeight)
    {
      if i == |run.moves| {
        assert more.states[i] == Last(run) && more.states[i + 1] == t && more.moves[i] == move;
      } else {
        assert more.states[i] == run.states[i] && more.states[i + 1] == run.states[i + 1]
               && more.moves[i] == run.moves[i];
      }
    }
    forall i | 0 <= i < |run.moves|
      ensures more.moves[i].Up?
    {
      assert run.moves[i] in run.moves;
    }
  }

  function Extended(run: Run, t: Tables, move: Move): Run {
    Run(run.states + [t], run.moves + [move])
  }

  /**
    One notification: asks for the tip and ingests up to it, block by block; a
    reorganisation ends the round early.
    */
  method FollowTip(o: Orchestrator, env: Env, round: nat, current: int, maxHeight: u32, ghost k: Known)
    returns (stopped: bool, next: int, ghost run: Run)
    requires Serves(env, k) && InStep(o, current, env, k)
    modifies o.writer, o.cache
    ensures Legal(run, env, round, maxHeight, k) && run.states[0] == old(o.writer.Contents())
    ensures stopped || (InStep(o, next, env, k) && Last(run) == o.writer.Contents())
    ensures stopped || Complete(run, env, round, maxHeight)
    ensures !stopped || LeftBehind(o.writer, Last(run), env, round, |run.moves| + 1)
    ensures stopped && o.writer.log.failures == old(o.writer.log.failures) ==>
              o.writer.Contents() == Last(run) && Cut(run, env, round, maxHeight)
    ensures Explains(old(o.writer.log), o.writer.log, o.writer.inTransaction, o.writer.Quiet())
  {
    var announced := env(round, 0);
    if announced == [] {
      run := Run([o.writer.Contents()], []);
      return true, current, run;
    }
    stopped, next, run := FollowUpTo(o, env, round, current, Min(|announced| - 1, maxHeight), maxHeight, k);
  }

  /** The loop over the heights up to the tip. */
  method FollowUpTo(o: Orchestrator, env: Env, round: nat, current: int, effective: u32, maxHeight: u32, ghost k: Known)
    returns (stopped: bool, next: int, ghost run: Run)
    requires Serves(env, k) && InStep(o, current, env, k) && effective == Target(env, round, maxHeight)
    modifies o.writer, o.cache
    ensures Legal(run, env, round, maxHeight, k) && run.states[0] == old(o.writer.Contents())
    ensures stopped || (InStep(o, next, env, k) && Last(run) == o.writer.Contents())
    ensures stopped || Complete(run, env, round, maxHeight)
    ensures !stopped || LeftBehind(o.writer, Last(run), env, round, |run.moves| + 1)
    ensures stopped && o.writer.log.failures == old(o.writer.log.failures) ==>
              o.writer.Contents() == Last(run) && Cut(run, env, round, maxHeight)
    ensures Explains(old(o.writer.log), o.writer.log, o.writer.inTransaction, o.writer.Quiet())
  {
    ghost var first := o.writer.Contents();
    RoundStarts(first, env, round, maxHeight, k);
    stopped, next, run := false, current, Run([first], []);
    var call: nat, back := 1, false;
    while next <= effective && !back
      invariant InStep(o, next, env, k)
      invariant OnTheWay(run, first, o.writer.Contents(), env, round, maxHeight, call, back, k)
      invariant Explains(old(o.writer.log), o.writer.log, false, true)
      decreases !back, effective - next
    {
      stopped, back, next, run := FollowOne(o, env, round, call, next, maxHeight, first, run, k);
      call := call + 1;
      if stopped {
        return;
      }
    }
    RoundEnds(run, first, o.writer.Contents(), env, round, maxHeight, call, back, k);
  }

  lemma RoundStarts(t: Tables, env: Env, round: nat, maxHeight: int, k: Known)
    requires StoredChain(t)
    ensures OnTheWay(Run([t], []), t, t, env, round, maxHeight, 1, false, k)
  {
  }

  lemma RoundEnds(run: Run, first: Tables, now: Tables, env: Env, round: nat, maxHeight: int, call: nat, back: bool,
                  k: Known)
    requires OnTheWay(run, first, now, env, round, maxHeight, call, back, k)
    requires back || |now.blocks| > Target(env, round, maxHeight)
    ensures Complete(run, env, round, maxHeight)
  {
  }

  /** A round so far, all steps upwards unless it has gone back. */
  ghost predicate OnTheWay(run: Run, first: Tables, now: Tables, env: Env, round: nat, maxHeight: int, call: nat,
                           back: bool, k: Known) {
    && Legal(run, env, round, maxHeight, k) && run.states[0] == first && Last(run) == now && call == |run.moves| + 1
    && (if back then run.moves != [] && run.moves[|run.moves| - 1].Back? else forall m :: m in run.moves ==> m.Up?)
  }

  /** Fetches the block at `current` and ingests it or rolls back. */
  method FollowOne(o: Orchestrator, env: Env, round: nat, call: nat, current: int, maxHeight: u32, ghost first: Tables,
                   ghost before: Run, ghost k: Known)
    returns (stopped: bool, back: bool, next: int, ghost run: Run)
    requires Serves(env, k) && InStep(o, current, env, k) && current <= Target(env, round, maxHeight)
    requires OnTheWay(before, first, o.writer.Contents(), env, round, maxHeight, call, false, k)
    modifies o.writer, o.cache
    ensures if stopped then run == before && LeftBehind(o.writer, old(o.writer.Contents()), env, round, call)
            else OnTheWay(run, first, o.writer.Contents(), env, round, maxHeight, call + 1, back, k)
    ensures !stopped ==> InStep(o, next, env, k)
    ensures !stopped && !back ==> next == current + 1
    ensures stopped && o.writer.log.failures == old(o.writer.log.failures) ==>
              o.writer.Contents() == old(o.writer.Contents()) && Stuck(old(o.writer.Contents()), env, round, call)
    ensures Explains(old(o.writer.log), o.writer.log, o.writer.inTransaction, o.writer.Quiet())
  {
    run := before;
    assert ServedWell(env(round, 0), k);
    var step := IngestOrRollBack(o, env, round, call, current, k);
    if step.Stopped? {
      return true, false, current, run;
    }
    ghost var move := MoveOf(step, current);
    LegalOn(before, o.writer.Contents(), env, round, maxHeight, move, k);
    run := Extended(before, o.writer.Contents(), move);
    stopped, back, next := false, step.RolledBackTo?, HeightAfterStep(step, current);
  }

  /** Round after round, each starting where the one before ended, from `first` on. */
  ghost predicate Rounds(runs: seq<Run>, first: Tables, env: Env, maxHeight: int, k: Known) {
    AllLegal(runs, env, maxHeight, k) && Linked(runs, first)
  }

  ghost predicate AllLegal(runs: seq<Run>, env: Env, maxHeight: int, k: Known) {
    forall q :: 0 <= q < |runs| ==> Legal(runs[q], env, q, maxHeight, k)
  }

  ghost predicate Linked(runs: seq<Run>, first: Tables) {
    forall q :: 0 <= q < |runs| ==> runs[q].states != [] && runs[q].states[0] == After(runs[..q], first)
  }

  /** Where the rounds have led. */
  ghost function After(runs: seq<Run>, first: Tables): Tables {
    if runs == [] || runs[|runs| - 1].states == [] then first else Last(runs[|runs| - 1])
  }

  ghost predicate AllComplete(runs: seq<Run>, env: Env, maxHeight: int) {
    forall q :: 0 <= q < |runs| ==> runs[q].states != [] && Complete(runs[q], env, q, maxHeight)
  }

  /** No step of a legal round changes the genesis block. */
  lemma {:induction false} GenesisStays(run: Run, env: Env, round: nat, maxHeight: int, i: nat, k: Known)
    requires Legal(run, env, round, maxHeight, k) && i < |run.states|
    ensures run.states[i].blocks[0] == run.states[0].blocks[0]
  {
    if i > 0 {
      GenesisStays(run, env, round, maxHeight, i - 1, k);
      StepBlocks(run.states[i - 1], run.states[i], env, round, i, run.moves[i - 1], k);
    }
  }

  /** Rounds so far, all of them complete. */
  ghost predicate Followed(runs: seq<Run>, first: Tables, now: Tables, env: Env, maxHeight: int, k: Known) {
    Rounds(runs, first, env, maxHeight, k) && AllComplete(runs, env, maxHeight) && now == After(runs, first)
  }

  lemma RoundsOn(runs: seq<Run>, run: Run, all: seq<Run>, first: Tables, env: Env, maxHeight: int, k: Known)
    requires all == runs + [run]
    requires Legal(run, env, |runs|, maxHeight, k) && Followed(runs, first, run.states[0], env, maxHeight, k)
    ensures |all| == |runs| + 1 && all[..|runs|] == runs && all[|runs|] == run && all[|all| - 1] == run
    ensures Rounds(all, first, env, maxHeight, k) && After(all, first) == Last(run)
    ensures Complete(run, env, |runs|, maxHeight) ==> Followed(all, first, Last(run), env, maxHeight, k)
  {
    LegalRounds(runs, run, env, maxHeight, k);
    LinkedRounds(runs, run, first);
  }

  lemma LegalRounds(runs: seq<Run>, run: Run, env: Env, maxHeight: int, k: Known)
    requires AllLegal(runs, env, maxHeight, k) && Legal(run, env, |runs|, maxHeight, k)
    ensures AllLegal(runs + [run], env, maxHeight, k)
  {
  }

  lemma LinkedRounds(runs: seq<Run>, run: Run, first: Tables)
    requires Linked(runs, first) && run.states != [] && run.states[0] == After(runs, first)
    ensures Linked(runs + [run], first)
  {
    var all := runs + [run];
    forall q | 0 <= q < |all|
      ensures all[q].states != [] && all[q].states[0] == After(all[..q], first)
    {
      assert all[..q] == runs[..q];
    }
  }

  /** An error has cut the last round short; those before are complete, and this is what it leaves. */
  ghost predicate StoppedAfter(writer: MockWriter, runs: seq<Run>, first: Tables, env: Env, maxHeight: int)
    reads writer
  {
    && runs != [] && AllComplete(runs[..|runs| - 1], env, maxHeight)
    && LeftBehind(writer, After(runs, first), env, |runs| - 1, |runs[|runs| - 1].moves| + 1)
  }

  /** It was not an error of the store, which is as the last step left it. */
  ghost predicate CutAfter(now: Tables, runs: seq<Run>, first: Tables, env: Env, maxHeight: int) {
    && runs != [] && runs[|runs| - 1].states != [] && now == After(runs, first)
    && Cut(runs[|runs| - 1], env, |runs| - 1, maxHeight)
  }

  /**
    The real-time loop over any number of notifications. Whatever the node's chain does
    from call to call, each round is a legal one, through stored chains, and every round
    but one that an error cuts short is complete. Without an error the loop ends only
    after all rounds or beyond `maxHeight`. An error leaves the tables of the last step but
    for what `LeftBehind` says, and it has a cause: a call to the store has failed, or the
    tip query has, or no step was possible, which takes a call to the node that fails or
    meets another genesis block.
    */
  method RealTimeLoop(o: Orchestrator, env: Env, rounds: nat, current: int, maxHeight: u32, ghost k: Known)
    returns (stopped: bool, next: int, ghost runs: seq<Run>)
    requires Serves(env, k) && InStep(o, current, env, k)
    modifies o.writer, o.cache
    ensures Rounds(runs, old(o.writer.Contents()), env, maxHeight, k) && |runs| <= rounds
    ensures stopped || (AllComplete(runs, env, maxHeight)
                        && o.writer.Contents() == After(runs, old(o.writer.Contents())))
    ensures stopped || InStep(o, next, env, k)
    ensures !stopped ==> |runs| == rounds || (maxHeight != 0xFFFF_FFFF && next > maxHeight)
    ensures !stopped || StoppedAfter(o.writer, runs, old(o.writer.Contents()), env, maxHeight)
    ensures !stopped || o.writer.log.failures > old(o.writer.log.failures)
            || CutAfter(o.writer.Contents(), runs, old(o.writer.Contents()), env, maxHeight)
    ensures Explains(old(o.writer.log), o.writer.log, o.writer.inTransaction, o.writer.Quiet())
  {
    ghost var first := o.writer.Contents();
    stopped, next, runs := false, current, [];
    for round := 0 to rounds
      invariant !stopped && InStep(o, next, env, k)
      invariant |runs| == round && Followed(runs, first, o.writer.Contents(), env, maxHeight, k)
      invariant Explains(old(o.writer.log), o.writer.log, false, true)
    {
      stopped, next, runs := OneRound(o, env, round, next, maxHeight, first, runs, k);
      if stopped || (maxHeight != 0xFFFF_FFFF && next > maxHeight) {
        return;
      }
    }
  }

  /** One more round after those of `before`. */
  method OneRound(o: Orchestrator, env: Env, round: nat, current: int, maxHeight: u32, ghost first: Tables,
                  ghost before: seq<Run>,
                  ghost k: Known)
    returns (stopped: bool, next: int, ghost runs: seq<Run>)
    requires Serves(env, k) && InStep(o, current, env, k)
    requires |before| == round && Followed(before, first, o.writer.Contents(), env, maxHeight, k)
    modifies o.writer, o.cache
    ensures |runs| == round + 1 && runs[..round] == before && Rounds(runs, first, env, maxHeight, k)
    ensures stopped || (InStep(o, next, env, k) && Followed(runs, first, o.writer.Contents(), env, maxHeight, k))
    ensures !stopped || StoppedAfter(o.writer, runs, first, env, maxHeight)
    ensures !stopped || o.writer.log.failures > old(o.writer.log.failures)
            || CutAfter(o.writer.Contents(), runs, first, env, maxHeight)
    ensures Explains(old(o.writer.log), o.writer.log, o.writer.inTransaction, o.writer.Quiet())
  {
    ghost var run;
    stopped, next, run := FollowTip(o, env, round, current, maxHeight, k);
    runs := before + [run];
    RoundsOn(before, run, runs, first, env, maxHeight, k);
  }

  // ------------------------------------------------------------------
  // Convergence
  // ------------------------------------------------------------------

  /** The node has one chain during the whole round. */
  ghost predicate Steadily(env: Env, round: nat, chain: seq<Block>) {
    && chain != [] && Canonical(chain) && ChainsCommit(chain, chain)
    && forall n {:trigger env(round, n)} :: env(round, n) == chain
  }

  /** Up to `top` the stored hashes are those of the chain. */
  ghost predicate Synced(blocks: seq<BlockData>, chain: seq<Block>, top: int) {
    top < |blocks| && top < |chain| && forall h :: 0 <= h <= top ==> blocks[h].hash == chain[h].hash
  }

  /** Against a steady chain any step ends in a prefix of it. */
  lemma StepGivesPrefix(a: Tables, b: Tables, env: Env, round: nat, call: nat, move: Move, chain: seq<Block>, k: Known)
    requires Steadily(env, round, chain) && StoredChain(a) && StoredChain(b) && HashCommits(a.blocks, chain)
    requires StepOn(a, b, env, round, call, move, k)
    ensures PrefixOf(b.blocks, chain)
  {
    if move.Up? {
      var h := |a.blocks|;
      StepBlocks(a, b, env, round, call, move, k);
      FindInChain(b.blocks, h);
      assert HashCommits(b.blocks, chain);
      forall i | 0 <= i <= h
        ensures b.blocks[i].hash == chain[i].hash
      {
        AgreementGoesDown(b.blocks, chain, h, i);
        FindInChain(b.blocks, i);
      }
    }
  }

  /** From a prefix of a steady chain there is no way but up. */
  lemma PrefixGoesUp(a: Tables, b: Tables, env: Env, round: nat, call: nat, move: Move, chain: seq<Block>, k: Known)
    requires Steadily(env, round, chain) && StoredChain(a) && PrefixOf(a.blocks, chain)
    requires StepOn(a, b, env, round, call, move, k)
    ensures move.Up? && PrefixOf(b.blocks, chain)
  {
    var h := |a.blocks|;
    StepBlocks(a, b, env, round, call, move, k);
    assert chain[h].prevHash == chain[h - 1].hash == a.blocks[h - 1].hash;
  }

  lemma {:induction false} PrefixStays(run: Run, env: Env, round: nat, maxHeight: int, chain: seq<Block>, i: nat,
                                       j: nat, k: Known)
    requires Legal(run, env, round, maxHeight, k) && Steadily(env, round, chain)
    requires i <= j < |run.states| && PrefixOf(run.states[i].blocks, chain)
    ensures PrefixOf(run.states[j].blocks, chain) && (i < j ==> run.moves[j - 1].Up?)
  {
    if i < j {
      var m: nat := j - 1;
      PrefixStays(run, env, round, maxHeight, chain, i, m, k);
      assert StepOn(run.states[m], run.states[m + 1], env, round, m + 1, run.moves[m], k);
      PrefixGoesUp(run.states[m], run.states[j], env, round, j, run.moves[m], chain, k);
    }
  }

  /** A complete round that has anything to do ends in a prefix of a steady chain. */
  lemma RoundFindsChain(run: Run, env: Env, round: nat, maxHeight: int, chain: seq<Block>, k: Known)
    requires Legal(run, env, round, maxHeight, k) && Complete(run, env, round, maxHeight) && Steadily(env, round, chain)
    requires HashCommits(run.states[0].blocks, chain) && |run.states[0].blocks| <= Target(env, round, maxHeight)
    ensures PrefixOf(Last(run).blocks, chain)
  {
    assert run.moves != [];
    StepGivesPrefix(run.states[0], run.states[1], env, round, 1, run.moves[0], chain, k);
    PrefixStays(run, env, round, maxHeight, chain, 1, |run.states| - 1, k);
  }

  /** From a prefix of a steady chain a complete round reaches its target. */
  lemma RoundReachesTarget(run: Run, env: Env, round: nat, maxHeight: int, chain: seq<Block>, k: Known)
    requires Legal(run, env, round, maxHeight, k) && Complete(run, env, round, maxHeight) && Steadily(env, round, chain)
    requires PrefixOf(run.states[0].blocks, chain)
    ensures Synced(Last(run).blocks, chain, Target(env, round, maxHeight))
  {
    PrefixStays(run, env, round, maxHeight, chain, 0, |run.states| - 1, k);
  }

  /**
    Convergence: over two complete rounds with one steady chain the store ends up with
    that chain's blocks up to the target if and only if it was no longer than the target
    at the start, or agreed with the chain there already. A stored chain that is longer
    is not looked at.
    */
  lemma TwoRoundsConverge(one: Run, two: Run, env: Env, round: nat, maxHeight: int, chain: seq<Block>, k: Known)
    requires Legal(one, env, round, maxHeight, k) && Complete(one, env, round, maxHeight)
    requires Legal(two, env, round + 1, maxHeight, k) && Complete(two, env, round + 1, maxHeight)
    requires two.states[0] == Last(one) && Steadily(env, round, chain) && Steadily(env, round + 1, chain)
             && 0 <= maxHeight
    requires HashCommits(one.states[0].blocks, chain)
    ensures var start, top := one.states[0].blocks, Target(env, round, maxHeight);
            Synced(Last(two).blocks, chain, top) <==> |start| <= top || Agree(start, chain, top)
  {
    var start, top := one.states[0].blocks, Target(env, round, maxHeight);
    assert env(round, 0) == chain == env(round + 1, 0);
    if |start| <= top {
      RoundFindsChain(one, env, round, maxHeight, chain, k);
      RoundReachesTarget(two, env, round + 1, maxHeight, chain, k);
    } else {
      assert one.moves == [] && two.moves == [];
      AgreementAtTop(start, chain, top);
    }
  }

  /**
    The case in point: the node has replaced its tip by another block at the same height. A round has
    no step to make, is complete all the same, and leaves the stale tip.
    */
  lemma StaleTipStays(t: Tables, run: Run, env: Env, round: nat, maxHeight: int, chain: seq<Block>, k: Known)
    requires StoredChain(t) && Steadily(env, round, chain) && |chain| == |t.blocks| <= maxHeight + 1
    requires chain[|chain| - 1].hash != t.blocks[|chain| - 1].hash
    ensures Legal(Run([t], []), env, round, maxHeight, k) && Complete(Run([t], []), env, round, maxHeight)
    ensures Legal(run, env, round, maxHeight, k) && run.states[0] == t ==> run == Run([t], [])
    ensures !Synced(t.blocks, chain, Target(env, round, maxHeight))
  {
    assert env(round, 0) == chain;
    if Legal(run, env, round, maxHeight, k) && run.states[0] == t {
      assert run.moves == [] && run.states == [t];
    }
  }

  lemma AgreementAtTop(blocks: seq<BlockData>, chain: seq<Block>, top: int)
    requires ChainRows(blocks) && Canonical(chain) && HashCommits(blocks, chain) && 0 <= top < |chain|
    ensures Synced(blocks, chain, top) <==> Agree(blocks, chain, top)
  {
    FindInChain(blocks, top);
    if Agree(blocks, chain, top) {
      forall h | 0 <= h <= top
        ensures blocks[h].hash == chain[h].hash
      {
        AgreementGoesDown(blocks, chain, top, h);
        FindInChain(blocks, h);
      }
    }
  }

  // ------------------------------------------------------------------
  // Where the assumptions matter
  // ------------------------------------------------------------------

  /**
    If a height were stepped over, as the loop does when it is given no block for it,
    the parent check would let the block above it through: the stored chain then has a gap.
    */
  lemma SkippedHeightGoesUnnoticed(t: Tables, item: Item)
    requires StoredChain(t) && item.height > |t.blocks|
    ensures ParentCheck(t.blocks, item).Pass?
    ensures !ChainRows(t.blocks + [BlockRow(item)])
  {
    FindInChain(t.blocks, item.height - 1);
    var more := t.blocks + [BlockRow(item)];
    assert more[|t.blocks|].height == item.height;
  }

  /**
    A rollback whose checkpoint write fails leaves a checkpoint above the chain, and
    recovery does not bring it down: ingestion would resume beyond a gap.
    */
  lemma LostCheckpointWriteLeavesGap(t: Tables, fork: int)
    requires StoredChain(t) && 0 <= fork < |t.blocks| - 1
    ensures var left := RemoveDown(t, fork, |t.blocks| - 1);
            && left.blocks == t.blocks[..fork + 1]
            && left.checkpoint == t.checkpoint
            && RecoveredHeight(left, Effective(left.checkpoint)) == |t.blocks| - 1 > |left.blocks| - 1
  {
    var tip := |t.blocks| - 1;
    RollbacksCompose(t, fork, tip);
    ChainCut(t.blocks, fork, tip);
    var left := RemoveDown(t, fork, tip);
    MaxHeightIsHighest(left.blocks);
  }
}
