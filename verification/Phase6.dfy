/**
  The parallel write of PERFORMS and BENEFITS_TO: rows are partitioned by address
  into eight buckets, one task each, and the tasks interleave as they please.
  */
module Phase6 {
  import opened Types
  import opened Chain
  import opened Aggregation
  import opened Writer

  const NUM_BUCKETS: nat := 8

  function BucketOf(hash: Address -> nat, a: Address): (b: nat)
    ensures b < NUM_BUCKETS
  {
    hash(a) % NUM_BUCKETS
  }

  function InBucket<T>(who: T -> Address, hash: Address -> nat, b: nat): T -> bool {
    (x: T) => BucketOf(hash, who(x)) == b
  }

  function Bucket<T>(rows: seq<T>, who: T -> Address, hash: Address -> nat, b: nat): seq<T> {
    Filter(InBucket(who, hash, b), rows)
  }

  function PerformsAddress(p: PerformsData): Address {
    p.fromAddress
  }

  function BenefitsAddress(r: BenefitsToData): Address {
    r.toAddress
  }

  method PartitionByAddress<T>(rows: seq<T>, who: T -> Address, hash: Address -> nat) returns (buckets: seq<seq<T>>)
    ensures |buckets| == NUM_BUCKETS
    ensures forall b :: 0 <= b < NUM_BUCKETS ==> buckets[b] == Bucket(rows, who, hash, b)
  {
    buckets := seq(NUM_BUCKETS, _ => []);
    for i := 0 to |rows|
      invariant |buckets| == NUM_BUCKETS
      invariant forall b :: 0 <= b < NUM_BUCKETS ==> buckets[b] == Bucket(rows[..i], who, hash, b)
    {
      var b := BucketOf(hash, who(rows[i]));
      assert rows[..i + 1][..i] == rows[..i];
      buckets := buckets[b := buckets[b] + [rows[i]]];
    }
    assert rows[..|rows|] == rows;
  }

  // ------------------------------------------------------------------
  // The relationship store: MERGE on (address, transaction), then SET
  // ------------------------------------------------------------------

  datatype Write = Performs(p: PerformsData) | Benefits(b: BenefitsToData)

  datatype RelKey = PerformsRel(address: Address, txid: Txid) | BenefitsRel(txid: Txid, address: Address)

  type Relations = map<RelKey, Total>

  function KeyOf(w: Write): RelKey {
    match w
    case Performs(p) => PerformsRel(p.fromAddress, p.toTxid)
    case Benefits(b) => BenefitsRel(b.fromTxid, b.toAddress)
  }

  function AddressOf(w: Write): Address {
    match w
    case Performs(p) => p.fromAddress
    case Benefits(b) => b.toAddress
  }

  function ValueOf(w: Write): Total {
    match w
    case Performs(p) => Total(p.inputCount, p.amountSpent)
    case Benefits(b) => Total(b.outputCount, b.amountReceived)
  }

  /** The rows written one after the other; a later row for the same pair overwrites. */
  function WriteAll(rel: Relations, ws: seq<Write>): Relations {
    if ws == [] then rel
    else
      var w := ws[|ws| - 1];
      WriteAll(rel, ws[..|ws| - 1])[KeyOf(w) := ValueOf(w)]
  }

  function WritesOf(performs: seq<PerformsData>, benefits: seq<BenefitsToData>): seq<Write> {
    seq(|performs|, i requires 0 <= i < |performs| => Performs(performs[i])) +
    seq(|benefits|, i requires 0 <= i < |benefits| => Benefits(benefits[i]))
  }

  /** The last write of a pair decides its value, whatever it was before. */
  lemma {:induction false} LastWriteWins(rel: Relations, ws: seq<Write>, i: nat)
    requires i < |ws| && forall j :: i < j < |ws| ==> KeyOf(ws[j]) != KeyOf(ws[i])
    ensures KeyOf(ws[i]) in WriteAll(rel, ws) && WriteAll(rel, ws)[KeyOf(ws[i])] == ValueOf(ws[i])
  {
    if i < |ws| - 1 {
      LastWriteWins(rel, ws[..|ws| - 1], i);
    }
  }

  /** A pair that is not written keeps its value, or stays absent. */
  lemma {:induction false} UnwrittenStays(rel: Relations, ws: seq<Write>, key: RelKey)
    requires forall i :: 0 <= i < |ws| ==> KeyOf(ws[i]) != key
    ensures key in WriteAll(rel, ws) <==> key in rel
    ensures key in rel ==> WriteAll(rel, ws)[key] == rel[key]
  {
    if ws != [] {
      UnwrittenStays(rel, ws[..|ws| - 1], key);
    }
  }

  /** The relationships afterwards are the old ones and those written. */
  lemma {:induction false} WrittenKeys(rel: Relations, ws: seq<Write>)
    ensures WriteAll(rel, ws).Keys == rel.Keys + set i | 0 <= i < |ws| :: KeyOf(ws[i])
  {
    if ws != [] {
      var before := ws[..|ws| - 1];
      WrittenKeys(rel, before);
      assert (set i | 0 <= i < |ws| :: KeyOf(ws[i])) ==
             (set i | 0 <= i < |before| :: KeyOf(before[i])) + {KeyOf(ws[|ws| - 1])};
    }
  }

  /**
    What merging a list of PERFORMS rows does to the pair of row `i`, the last one for it: count
    and amount become the row's own.
    */
  lemma PerformsMerged(rel: Relations, performs: seq<PerformsData>, benefits: seq<BenefitsToData>, i: nat)
    requires i < |performs|
    requires forall j :: i < j < |performs| ==>
               performs[j].fromAddress != performs[i].fromAddress || performs[j].toTxid != performs[i].toTxid
    ensures var key := PerformsRel(performs[i].fromAddress, performs[i].toTxid);
            && key in WriteAll(rel, WritesOf(performs, benefits))
            && WriteAll(rel, WritesOf(performs, benefits))[key] ==
               Total(performs[i].inputCount, performs[i].amountSpent)
  {
    LastWriteWins(rel, WritesOf(performs, benefits), i);
  }

  lemma BenefitsMerged(rel: Relations, performs: seq<PerformsData>, benefits: seq<BenefitsToData>, i: nat)
    requires i < |benefits|
    requires forall j :: i < j < |benefits| ==>
               benefits[j].fromTxid != benefits[i].fromTxid || benefits[j].toAddress != benefits[i].toAddress
    ensures var key := BenefitsRel(benefits[i].fromTxid, benefits[i].toAddress);
            && key in WriteAll(rel, WritesOf(performs, benefits))
            && WriteAll(rel, WritesOf(performs, benefits))[key] ==
               Total(benefits[i].outputCount, benefits[i].amountReceived)
  {
    LastWriteWins(rel, WritesOf(performs, benefits), |performs| + i);
  }

  /** And to a pair for which there is no row: nothing. */
  lemma OthersStay(rel: Relations, performs: seq<PerformsData>, benefits: seq<BenefitsToData>, key: RelKey)
    requires match key
             case PerformsRel(a, t) => forall p :: p in performs ==> p.fromAddress != a || p.toTxid != t
             case BenefitsRel(t, a) => forall b :: b in benefits ==> b.fromTxid != t || b.toAddress != a
    ensures key in WriteAll(rel, WritesOf(performs, benefits)) <==> key in rel
    ensures key in rel ==> WriteAll(rel, WritesOf(performs, benefits))[key] == rel[key]
  {
    var ws := WritesOf(performs, benefits);
    forall i | 0 <= i < |ws|
      ensures KeyOf(ws[i]) != key
    {
      if i < |performs| {
        assert performs[i] in performs;
      } else {
        assert benefits[i - |performs|] in benefits;
      }
    }
    UnwrittenStays(rel, ws, key);
  }

  /** Ingested again with other inputs resolved, a pair takes the new values. */
  lemma MergedAgain(rel: Relations, old0: PerformsData, new0: PerformsData)
    requires old0.fromAddress == new0.fromAddress && old0.toTxid == new0.toTxid
    ensures var key := PerformsRel(new0.fromAddress, new0.toTxid);
            var again := WriteAll(WriteAll(rel, WritesOf([old0], [])), WritesOf([new0], []));
            key in again && again[key] == Total(new0.inputCount, new0.amountSpent)
  {
    PerformsMerged(WriteAll(rel, WritesOf([old0], [])), [new0], [], 0);
  }

  /** A scheduler's choice: which task performs its next row. A finished task does nothing. */
  function Trace(queues: seq<seq<Write>>, schedule: seq<nat>): seq<Write>
    decreases |schedule|
  {
    if schedule == [] then []
    else
      var t := schedule[0];
      if t < |queues| && queues[t] != [] then
        [queues[t][0]] + Trace(queues[t := queues[t][1..]], schedule[1..])
      else
        Trace(queues, schedule[1..])
  }

  function Remaining(queues: seq<seq<Write>>, schedule: seq<nat>): seq<seq<Write>>
    decreases |schedule|
  {
    if schedule == [] then queues
    else
      var t := schedule[0];
      if t < |queues| && queues[t] != [] then
        Remaining(queues[t := queues[t][1..]], schedule[1..])
      else
        Remaining(queues, schedule[1..])
  }

  /** Every queue holds rows of its own bucket only. */
  ghost predicate Sorted(queues: seq<seq<Write>>, hash: Address -> nat) {
    && |queues| == NUM_BUCKETS
    && forall t, w :: 0 <= t < NUM_BUCKETS && w in queues[t] ==> BucketOf(hash, AddressOf(w)) == t
  }

  /** Whatever the schedule, a bucket's rows appear in the trace in the bucket's order. */
  lemma {:induction false} BucketOrderIsKept(queues: seq<seq<Write>>, schedule: seq<nat>, hash: Address -> nat, b: nat)
    requires Sorted(queues, hash) && b < NUM_BUCKETS
    ensures |Remaining(queues, schedule)| == NUM_BUCKETS
    ensures Bucket(Trace(queues, schedule), AddressOf, hash, b) + Remaining(queues, schedule)[b] == queues[b]
    decreases |schedule|
  {
    if schedule != [] {
      var t := schedule[0];
      if t < |queues| && queues[t] != [] {
        var w := queues[t][0];
        var next := queues[t := queues[t][1..]];
        SortedRest(queues, hash, t);
        BucketOrderIsKept(next, schedule[1..], hash, b);
        assert Trace(queues, schedule) == [w] + Trace(next, schedule[1..]);
        assert Remaining(queues, schedule) == Remaining(next, schedule[1..]);
        FilterConcat(InBucket(AddressOf, hash, b), [w], Trace(next, schedule[1..]));
        FilterOne(InBucket(AddressOf, hash, b), w);
        assert queues[t] == [w] + next[t];
        Assoc([w], Bucket(Trace(next, schedule[1..]), AddressOf, hash, b), Remaining(next, schedule[1..])[b]);
      } else {
        BucketOrderIsKept(queues, schedule[1..], hash, b);
      }
    }
  }

  lemma SortedRest(queues: seq<seq<Write>>, hash: Address -> nat, t: nat)
    requires Sorted(queues, hash) && t < NUM_BUCKETS && queues[t] != []
    ensures Sorted(queues[t := queues[t][1..]], hash)
    ensures BucketOf(hash, AddressOf(queues[t][0])) == t
  {
    assert queues[t][0] in queues[t];
    assert forall v :: v in queues[t][1..] ==> v in queues[t];
  }

  lemma FilterOne<T>(f: T -> bool, x: T)
    ensures Filter(f, [x]) == if f(x) then [x] else []
  {
    assert [x][..0] == [];
  }

  /** A relationship's value depends only on the rows of its address's bucket, in order. */
  lemma {:induction false} OnlyTheBucketMatters(rel: Relations, ws: seq<Write>, hash: Address -> nat, key: RelKey)
    ensures var own := Bucket(ws, AddressOf, hash, BucketOf(hash, key.address));
            && (key in WriteAll(rel, ws) <==> key in WriteAll(rel, own))
            && (key in WriteAll(rel, ws) ==> WriteAll(rel, ws)[key] == WriteAll(rel, own)[key])
  {
    if ws != [] {
      var before, w := ws[..|ws| - 1], ws[|ws| - 1];
      OnlyTheBucketMatters(rel, before, hash, key);
      var b := BucketOf(hash, key.address);
      var own := Bucket(before, AddressOf, hash, b);
      assert ws == before + [w];
      assert KeyOf(w).address == AddressOf(w);
      if BucketOf(hash, AddressOf(w)) == b {
        assert InBucket(AddressOf, hash, b)(w);
        assert Bucket(ws, AddressOf, hash, b) == own + [w];
        assert (own + [w])[..|own|] == own;
      } else {
        assert !InBucket(AddressOf, hash, b)(w);
        assert Bucket(ws, AddressOf, hash, b) == own;
        assert key != KeyOf(w);
      }
    }
  }

  lemma BucketsOfWrites(performs: seq<PerformsData>, benefits: seq<BenefitsToData>, hash: Address -> nat, b: nat)
    ensures Bucket(WritesOf(performs, benefits), AddressOf, hash, b) ==
            WritesOf(Bucket(performs, PerformsAddress, hash, b),
                     Bucket(benefits, BenefitsAddress, hash, b))
  {
    var ps := WritesOf(performs, []);
    var bs := WritesOf([], benefits);
    assert WritesOf(performs, benefits) == ps + bs;
    FilterConcat(InBucket(AddressOf, hash, b), ps, bs);
    BucketOfPerforms(performs, hash, b);
    BucketOfBenefits(benefits, hash, b);
  }

  function Mapped<T, U>(wrap: U -> T, xs: seq<U>): seq<T> {
    seq(|xs|, i requires 0 <= i < |xs| => wrap(xs[i]))
  }

  lemma {:induction false} FilterMapped<T, U>(f: T -> bool, g: U -> bool, wrap: U -> T, xs: seq<U>)
    requires forall i :: 0 <= i < |xs| ==> (f(wrap(xs[i])) <==> g(xs[i]))
    ensures Filter(f, Mapped(wrap, xs)) == Mapped(wrap, Filter(g, xs))
  {
    if xs != [] {
      var before, x := xs[..|xs| - 1], xs[|xs| - 1];
      FilterMapped(f, g, wrap, before);
      assert Mapped(wrap, xs) == Mapped(wrap, before) + [wrap(x)];
      FilterSnoc(f, Mapped(wrap, before), wrap(x));
      assert xs == before + [x];
      FilterSnoc(g, before, x);
      if g(x) {
        assert Mapped(wrap, Filter(g, before) + [x]) == Mapped(wrap, Filter(g, before)) + [wrap(x)];
      }
    }
  }

  function PerformsWrite(p: PerformsData): Write {
    Performs(p)
  }

  function BenefitsWrite(b: BenefitsToData): Write {
    Benefits(b)
  }

  lemma WritesAreMapped(performs: seq<PerformsData>, benefits: seq<BenefitsToData>)
    ensures WritesOf(performs, []) == Mapped(PerformsWrite, performs)
    ensures WritesOf([], benefits) == Mapped(BenefitsWrite, benefits)
  {
    var ps, bs := Mapped(PerformsWrite, performs), Mapped(BenefitsWrite, benefits);
    assert forall i :: 0 <= i < |performs| ==> ps[i] == PerformsWrite(performs[i]) == Performs(performs[i]);
    assert forall i :: 0 <= i < |benefits| ==> bs[i] == BenefitsWrite(benefits[i]) == Benefits(benefits[i]);
  }

  lemma BucketOfPerforms(performs: seq<PerformsData>, hash: Address -> nat, b: nat)
    ensures Bucket(WritesOf(performs, []), AddressOf, hash, b) ==
              WritesOf(Bucket(performs, PerformsAddress, hash, b), [])
  {
    forall i | 0 <= i < |performs|
      ensures InBucket(AddressOf, hash, b)(PerformsWrite(performs[i])) <==>
                InBucket(PerformsAddress, hash, b)(performs[i])
    {
      assert AddressOf(PerformsWrite(performs[i])) == PerformsAddress(performs[i]);
    }
    FilterMapped(InBucket(AddressOf, hash, b), InBucket(PerformsAddress, hash, b), PerformsWrite, performs);
    WritesAreMapped(performs, []);
    WritesAreMapped(Bucket(performs, PerformsAddress, hash, b), []);
  }

  lemma BucketOfBenefits(benefits: seq<BenefitsToData>, hash: Address -> nat, b: nat)
    ensures Bucket(WritesOf([], benefits), AddressOf, hash, b) ==
              WritesOf([], Bucket(benefits, BenefitsAddress, hash, b))
  {
    forall i | 0 <= i < |benefits|
      ensures InBucket(AddressOf, hash, b)(BenefitsWrite(benefits[i])) <==>
                InBucket(BenefitsAddress, hash, b)(benefits[i])
    {
      assert AddressOf(BenefitsWrite(benefits[i])) == BenefitsAddress(benefits[i]);
    }
    FilterMapped(InBucket(AddressOf, hash, b), InBucket(BenefitsAddress, hash, b), BenefitsWrite, benefits);
    WritesAreMapped([], benefits);
    WritesAreMapped([], Bucket(benefits, BenefitsAddress, hash, b));
  }

  /**
    Schedule independence: when every task has finished, the relationships are
    those of writing the unpartitioned lists in order, repeated pairs included.
    */
  lemma ScheduleIndependence(rel: Relations, performs: seq<PerformsData>, benefits: seq<BenefitsToData>,
                             hash: Address -> nat, queues: seq<seq<Write>>, schedule: seq<nat>)
    requires |queues| == NUM_BUCKETS
    requires forall b :: 0 <= b < NUM_BUCKETS ==>
                           queues[b] == WritesOf(Bucket(performs, PerformsAddress, hash, b),
                                                 Bucket(benefits, BenefitsAddress, hash, b))
    requires forall q :: q in Remaining(queues, schedule) ==> q == []
    ensures WriteAll(rel, Trace(queues, schedule)) == WriteAll(rel, WritesOf(performs, benefits))
  {
    var all, trace := WritesOf(performs, benefits), Trace(queues, schedule);
    forall t, w | 0 <= t < NUM_BUCKETS && w in queues[t]
      ensures BucketOf(hash, AddressOf(w)) == t
    {
      BucketsOfWrites(performs, benefits, hash, t);
      FilterMember(InBucket(AddressOf, hash, t), all, w);
    }
    assert Sorted(queues, hash);
    forall b | 0 <= b < NUM_BUCKETS
      ensures Bucket(trace, AddressOf, hash, b) == Bucket(all, AddressOf, hash, b)
    {
      BucketOrderIsKept(queues, schedule, hash, b);
      assert Remaining(queues, schedule)[b] in Remaining(queues, schedule);
      BucketsOfWrites(performs, benefits, hash, b);
    }
    SameBucketsSameRelations(rel, trace, all, hash);
  }

  /** Every bucket holds the same rows in the same order. */
  ghost predicate SameBuckets<T(!new)>(xs: seq<T>, ys: seq<T>, who: T -> Address, hash: Address -> nat) {
    forall b :: 0 <= b < NUM_BUCKETS ==> Bucket(xs, who, hash, b) == Bucket(ys, who, hash, b)
  }

  lemma SameBucketsSameRelations(rel: Relations, xs: seq<Write>, ys: seq<Write>, hash: Address -> nat)
    requires SameBuckets(xs, ys, AddressOf, hash)
    ensures WriteAll(rel, xs) == WriteAll(rel, ys)
  {
    forall key
      ensures key in WriteAll(rel, xs) <==> key in WriteAll(rel, ys)
      ensures key in WriteAll(rel, xs) ==> WriteAll(rel, xs)[key] == WriteAll(rel, ys)[key]
    {
      OnlyTheBucketMatters(rel, xs, hash, key);
      OnlyTheBucketMatters(rel, ys, hash, key);
    }
  }

  /**
    Rows as the tables store them after any interleaving: if every bucket's rows are
    there in the bucket's order, the relationships are those of the unpartitioned lists.
    */
  lemma StoredRowsDecide(rel: Relations, storedPerforms: seq<PerformsData>, storedBenefits: seq<BenefitsToData>,
                         performs: seq<PerformsData>, benefits: seq<BenefitsToData>, hash: Address -> nat)
    requires SameBuckets(storedPerforms, performs, PerformsAddress, hash)
    requires SameBuckets(storedBenefits, benefits, BenefitsAddress, hash)
    ensures WriteAll(rel, WritesOf(storedPerforms, storedBenefits)) == WriteAll(rel, WritesOf(performs, benefits))
  {
    var stored, all := WritesOf(storedPerforms, storedBenefits), WritesOf(performs, benefits);
    forall b | 0 <= b < NUM_BUCKETS
      ensures Bucket(stored, AddressOf, hash, b) == Bucket(all, AddressOf, hash, b)
    {
      BucketsOfWrites(storedPerforms, storedBenefits, hash, b);
      BucketsOfWrites(performs, benefits, hash, b);
    }
    SameBucketsSameRelations(rel, stored, all, hash);
  }

  lemma SameBucketsSameRows<T(!new)>(xs: seq<T>, ys: seq<T>, who: T -> Address, hash: Address -> nat)
    requires SameBuckets(xs, ys, who, hash)
    ensures multiset(xs) == multiset(ys)
  {
    forall x
      ensures multiset(xs)[x] == multiset(ys)[x]
    {
      var b := BucketOf(hash, who(x));
      BucketCounts(xs, who, hash, b, x);
      BucketCounts(ys, who, hash, b, x);
    }
  }

  // ------------------------------------------------------------------
  // A failing bucket
  // ------------------------------------------------------------------

  function PerformsIn(ws: seq<Write>): seq<PerformsData> {
    if ws == [] then []
    else PerformsIn(ws[..|ws| - 1]) + if ws[|ws| - 1].Performs? then [ws[|ws| - 1].p] else []
  }

  function BenefitsIn(ws: seq<Write>): seq<BenefitsToData> {
    if ws == [] then []
    else BenefitsIn(ws[..|ws| - 1]) + if ws[|ws| - 1].Benefits? then [ws[|ws| - 1].b] else []
  }

  /** The tables after some writes. */
  function Written(t: Tables, ws: seq<Write>): Tables {
    t.(performs := t.performs + PerformsIn(ws), benefits := t.benefits + BenefitsIn(ws))
  }

  /**
    The tables when bucket `failed` fails after the steps `before`: the rollback
    restores the snapshot taken at `t`, but the other tasks run on and take the
    steps `after`.
    */
  function AfterFailure(t: Tables, queues: seq<seq<Write>>, before: seq<nat>, failed: nat, after: seq<nat>): Tables {
    var left := Remaining(queues, before);
    var back := Restore(Written(t, Trace(queues, before)), SnapshotOf(t));
    if failed < |left| then Written(back, Trace(left[failed := []], after)) else back
  }

  lemma RollbackUndoesTrace(t: Tables, ws: seq<Write>)
    ensures Restore(Written(t, ws), SnapshotOf(t)) == t
  {
    RestoreUndoesAppends(t, Written(t, ws));
  }

  lemma {:induction false} WrittenIsUnchangedIff(t: Tables, ws: seq<Write>)
    ensures Written(t, ws) == t <==> ws == []
  {
    if ws != [] {
      if ws[|ws| - 1].Performs? {
        assert |PerformsIn(ws)| > 0;
      } else {
        assert |BenefitsIn(ws)| > 0;
      }
      assert |Written(t, ws).performs| + |Written(t, ws).benefits| > |t.performs| + |t.benefits|;
    }
  }

  lemma {:induction false} NothingTracedIff(queues: seq<seq<Write>>, schedule: seq<nat>)
    ensures Trace(queues, schedule) == [] <==> forall t :: t in schedule && t < |queues| ==> queues[t] == []
  {
    if schedule != [] {
      assert schedule == [schedule[0]] + schedule[1..];
      NothingTracedIff(queues, schedule[1..]);
    }
  }

  /** For one run: the rollback holds if and only if every other task that still runs had nothing left to write. */
  lemma RollbackHoldsIff(t: Tables, queues: seq<seq<Write>>, before: seq<nat>, failed: nat, after: seq<nat>)
    requires failed < |queues|
    ensures |Remaining(queues, before)| == |queues|
    ensures AfterFailure(t, queues, before, failed, after) == t <==>
            forall i :: i in after && i < |queues| && i != failed ==> Remaining(queues, before)[i] == []
  {
    var left := Remaining(queues, before);
    RemainingCount(queues, before);
    RollbackUndoesTrace(t, Trace(queues, before));
    NothingTracedIff(left[failed := []], after);
    WrittenIsUnchangedIff(t, Trace(left[failed := []], after));
  }

  /**
    The failure of bucket `failed` can be noticed after the steps `before`: the tasks are awaited in
    order, so those below have ended, and a task fails only in a write, so it still had something to write.
    */
  ghost predicate Noticed(queues: seq<seq<Write>>, before: seq<nat>, failed: nat) {
    var left := Remaining(queues, before);
    failed < |left| && left[failed] != [] && forall i :: 0 <= i < failed ==> left[i] == []
  }

  /**
    Before any task starts: whenever the failure of this bucket is noticed, and whatever runs on,
    the rollback holds, if and only if the bucket cannot fail or no later one has anything to write.
    */
  lemma RollbackAlwaysHoldsIff(t: Tables, queues: seq<seq<Write>>, failed: nat)
    requires failed < |queues|
    ensures (forall before, after :: Noticed(queues, before, failed) ==>
             AfterFailure(t, queues, before, failed, after) == t) <==>
            queues[failed] == [] || forall i :: failed < i < |queues| ==> queues[i] == []
  {
    if queues[failed] == [] || forall i :: failed < i < |queues| ==> queues[i] == [] {
      forall before, after | Noticed(queues, before, failed)
        ensures AfterFailure(t, queues, before, failed, after) == t
      {
        NothingRunsOn(t, queues, before, failed, after);
      }
    } else {
      var i :| failed < i < |queues| && queues[i] != [];
      var before := DrainBelow(queues, failed);
      RollbackHoldsIff(t, queues, before, failed, [i]);
      assert i in [i] && Noticed(queues, before, failed);
      assert AfterFailure(t, queues, before, failed, [i]) != t;
    }
  }

  lemma NothingRunsOn(t: Tables, queues: seq<seq<Write>>, before: seq<nat>, failed: nat, after: seq<nat>)
    requires failed < |queues| && Noticed(queues, before, failed)
    requires queues[failed] == [] || forall i :: failed < i < |queues| ==> queues[i] == []
    ensures AfterFailure(t, queues, before, failed, after) == t
  {
    RollbackHoldsIff(t, queues, before, failed, after);
    forall i | 0 <= i < |queues| && queues[i] == []
      ensures Remaining(queues, before)[i] == []
    {
      EmptyStaysEmpty(queues, before, i);
    }
  }

  /** A schedule in which the first `n` tasks end and the others do nothing. */
  lemma {:induction false} DrainBelow(queues: seq<seq<Write>>, n: nat) returns (schedule: seq<nat>)
    requires n <= |queues|
    ensures |Remaining(queues, schedule)| == |queues|
    ensures forall i :: 0 <= i < |queues| ==> Remaining(queues, schedule)[i] == if i < n then [] else queues[i]
    decreases n, if n == 0 then 0 else |queues[n - 1]|
  {
    if n == 0 {
      schedule := [];
    } else if queues[n - 1] == [] {
      schedule := DrainBelow(queues, n - 1);
    } else {
      var rest := DrainBelow(queues[n - 1 := queues[n - 1][1..]], n);
      schedule := [n - 1] + rest;
      assert schedule[1..] == rest;
    }
  }

  lemma {:induction false} EmptyStaysEmpty(queues: seq<seq<Write>>, schedule: seq<nat>, i: nat)
    requires i < |queues| && queues[i] == []
    ensures |Remaining(queues, schedule)| == |queues| && Remaining(queues, schedule)[i] == []
    decreases |schedule|
  {
    if schedule != [] {
      var t := schedule[0];
      EmptyStaysEmpty(if t < |queues| && queues[t] != [] then queues[t := queues[t][1..]] else queues, schedule[1..],
                      i);
    }
  }

  lemma {:induction false} RemainingCount(queues: seq<seq<Write>>, schedule: seq<nat>)
    ensures |Remaining(queues, schedule)| == |queues|
    decreases |schedule|
  {
    if schedule != [] {
      var t := schedule[0];
      RemainingCount(if t < |queues| && queues[t] != [] then queues[t := queues[t][1..]] else queues, schedule[1..]);
    }
  }

  /** The queues of the eight tasks. */
  function Queues(performs: seq<PerformsData>, benefits: seq<BenefitsToData>, hash: Address -> nat): seq<seq<Write>> {
    seq(NUM_BUCKETS, b requires 0 <= b < NUM_BUCKETS => WritesOf(Bucket(performs, PerformsAddress, hash, b),
                                                                 Bucket(benefits, BenefitsAddress, hash, b)))
  }

  lemma TwoRows(p: PerformsData, q: PerformsData, hash: Address -> nat, b: nat)
    requires BucketOf(hash, p.fromAddress) != BucketOf(hash, q.fromAddress)
    ensures WritesOf(Bucket([p, q], PerformsAddress, hash, b), Bucket([], BenefitsAddress, hash, b)) ==
            if BucketOf(hash, p.fromAddress) == b then [Performs(p)]
            else if BucketOf(hash, q.fromAddress) == b then [Performs(q)] else []
  {
    assert [p, q] == [p] + [q];
    FilterConcat(InBucket(PerformsAddress, hash, b), [p], [q]);
    FilterOne(InBucket(PerformsAddress, hash, b), p);
    FilterOne(InBucket(PerformsAddress, hash, b), q);
    assert PerformsAddress(p) == p.fromAddress && PerformsAddress(q) == q.fromAddress;
    assert InBucket(PerformsAddress, hash, b)(p) <==> BucketOf(hash, p.fromAddress) == b;
    assert InBucket(PerformsAddress, hash, b)(q) <==> BucketOf(hash, q.fromAddress) == b;
    assert Bucket([], BenefitsAddress, hash, b) == [];
    assert [] + [p] == [p] && [] + [q] == [q] && [p] + [] == [p];
  }

  /**
    So the row of a later bucket, written late, outlives the rollback that an earlier bucket's
    failure brought about.
    */
  lemma LateRowOutlivesRollback(t: Tables, failing: PerformsData, late: PerformsData, hash: Address -> nat)
    requires BucketOf(hash, failing.fromAddress) < BucketOf(hash, late.fromAddress)
    ensures Noticed(Queues([failing, late], [], hash), [], BucketOf(hash, failing.fromAddress))
    ensures AfterFailure(t, Queues([failing, late], [], hash), [], BucketOf(hash, failing.fromAddress),
                         [BucketOf(hash, late.fromAddress)]) == t.(performs := t.performs + [late])
  {
    var queues := Queues([failing, late], [], hash);
    var a, b := BucketOf(hash, failing.fromAddress), BucketOf(hash, late.fromAddress);
    forall i | 0 <= i < NUM_BUCKETS
      ensures queues[i] == if i == a then [Performs(failing)] else if i == b then [Performs(late)] else []
    {
      TwoRows(failing, late, hash, i);
    }
    RollbackUndoesTrace(t, []);
    var left := queues[a := []];
    assert left[b] == [Performs(late)];
    assert Trace(left[b := left[b][1..]], []) == [];
    assert Trace(left, [b]) == [Performs(late)];
    assert [Performs(late)][..0] == [];
    assert PerformsIn([Performs(late)]) == [late] && BenefitsIn([Performs(late)]) == [];
  }

  // ------------------------------------------------------------------
  // The tasks on the transactional store
  // ------------------------------------------------------------------

  /** Everything the first `n` tasks hold. */
  function AllRows<T>(buckets: seq<seq<T>>, n: nat): multiset<T>
    requires n <= |buckets|
  {
    if n == 0 then multiset{} else AllRows(buckets, n - 1) + multiset(buckets[n - 1])
  }

  lemma {:induction false} BucketCounts<T>(rows: seq<T>, who: T -> Address, hash: Address -> nat, b: nat, x: T)
    ensures multiset(Bucket(rows, who, hash, b))[x] == if BucketOf(hash, who(x)) == b then multiset(rows)[x] else 0
  {
    if rows != [] {
      var before, y := rows[..|rows| - 1], rows[|rows| - 1];
      assert rows == before + [y];
      BucketCounts(before, who, hash, b, x);
    }
  }

  lemma {:induction false} AllRowsCount<T>(rows: seq<T>, who: T -> Address, hash: Address -> nat, buckets: seq<seq<T>>,
                                           n: nat, x: T)
    requires n <= |buckets|
    requires forall b :: 0 <= b < n ==> buckets[b] == Bucket(rows, who, hash, b)
    ensures AllRows(buckets, n)[x] == if BucketOf(hash, who(x)) < n then multiset(rows)[x] else 0
  {
    if n > 0 {
      AllRowsCount(rows, who, hash, buckets, n - 1, x);
      BucketCounts(rows, who, hash, n - 1, x);
    }
  }

  /** Partitioning neither loses nor repeats a row. */
  lemma BucketsHoldAll<T(!new)>(rows: seq<T>, who: T -> Address, hash: Address -> nat, buckets: seq<seq<T>>)
    requires |buckets| == NUM_BUCKETS
    requires forall b :: 0 <= b < NUM_BUCKETS ==> buckets[b] == Bucket(rows, who, hash, b)
    ensures AllRows(buckets, NUM_BUCKETS) == multiset(rows)
  {
    forall x
      ensures AllRows(buckets, NUM_BUCKETS)[x] == multiset(rows)[x]
    {
      AllRowsCount(rows, who, hash, buckets, NUM_BUCKETS, x);
    }
  }
}
