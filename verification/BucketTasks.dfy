/**
  Phase 6 as it runs: eight tasks, each writing its PERFORMS rows and then its
  BENEFITS_TO rows, awaited in order. A failure is reported when its task is
  awaited; tasks that have not ended by then are neither cancelled nor awaited.
  */
module BucketTasks {
  import opened Types
  import opened Chain
  import opened Aggregation
  import opened Writer
  import opened Phase6

  /** Every row is in the bucket of its address. */
  ghost predicate AllSorted<T>(rows: seq<seq<T>>, who: T -> Address, hash: Address -> nat) {
    |rows| == NUM_BUCKETS && forall b :: 0 <= b < NUM_BUCKETS ==> OfBucket(rows[b], who, hash, b)
  }

  ghost predicate OfBucket<T>(rows: seq<T>, who: T -> Address, hash: Address -> nat, b: nat) {
    forall x :: x in rows ==> BucketOf(hash, who(x)) == b
  }

  /**
    What task `b` has appended and what it still holds make up its rows; a task that failed may have
    dropped all of them.
    */
  ghost predicate Accounted<T>(appended: seq<T>, left: seq<seq<T>>, all: seq<seq<T>>, dropped: set<nat>,
                               who: T -> Address, hash: Address -> nat, b: nat)
    requires b < |left| == |all|
  {
    if b in dropped then Bucket(appended, who, hash, b) == [] && left[b] == []
    else Bucket(appended, who, hash, b) + left[b] == all[b]
  }

  ghost predicate Progress<T>(appended: seq<T>, left: seq<seq<T>>, all: seq<seq<T>>, dropped: set<nat>,
                              who: T -> Address, hash: Address -> nat) {
    && |left| == NUM_BUCKETS == |all|
    && forall b :: 0 <= b < NUM_BUCKETS ==> Accounted(appended, left, all, dropped, who, hash, b)
  }

  lemma ProgressStart<T>(all: seq<seq<T>>, who: T -> Address, hash: Address -> nat)
    requires |all| == NUM_BUCKETS
    ensures Progress([], all, all, {}, who, hash)
  {
    forall b | 0 <= b < NUM_BUCKETS
      ensures Accounted([], all, all, {}, who, hash, b)
    {
      assert Bucket([], who, hash, b) == [];
    }
  }

  lemma BucketOfAppended<T>(appended: seq<T>, rows: seq<T>, who: T -> Address, hash: Address -> nat, t: nat, b: nat)
    requires OfBucket(rows, who, hash, t)
    ensures Bucket(appended + rows, who, hash, b) == Bucket(appended, who, hash, b) + if b == t then rows else []
  {
    FilterConcat(InBucket(who, hash, b), appended, rows);
    if b == t {
      FilterAll(InBucket(who, hash, b), rows);
    } else {
      FilterNone(InBucket(who, hash, b), rows);
    }
  }

  /** Task `t` appends what it holds. */
  lemma ProgressStep<T>(appended: seq<T>, left: seq<seq<T>>, all: seq<seq<T>>, dropped: set<nat>, who: T -> Address,
                        hash: Address -> nat, t: nat)
    requires Progress(appended, left, all, dropped, who, hash) && t < NUM_BUCKETS && OfBucket(left[t], who, hash, t)
    ensures Progress(appended + left[t], left[t := []], all, dropped, who, hash)
  {
    var now, rest := appended + left[t], left[t := []];
    forall b | 0 <= b < NUM_BUCKETS
      ensures Accounted(now, rest, all, dropped, who, hash, b)
    {
      BucketOfAppended(appended, left[t], who, hash, t, b);
      assert Accounted(appended, left, all, dropped, who, hash, b);
    }
  }

  /** Task `t`, which has appended nothing yet, drops what it holds. */
  lemma ProgressDrop<T>(appended: seq<T>, left: seq<seq<T>>, all: seq<seq<T>>, dropped: set<nat>, who: T -> Address,
                        hash: Address -> nat, t: nat)
    requires Progress(appended, left, all, dropped, who, hash) && t < NUM_BUCKETS && left[t] == all[t]
    ensures Progress(appended, left[t := []], all, dropped + {t}, who, hash)
  {
    var rest, more := left[t := []], dropped + {t};
    forall b | 0 <= b < NUM_BUCKETS
      ensures Accounted(appended, rest, all, more, who, hash, b)
    {
      assert Accounted(appended, left, all, dropped, who, hash, b);
      if b == t && b !in dropped {
        assert |Bucket(appended, who, hash, b)| + |left[b]| == |all[b]|;
      }
    }
  }

  function Flat<T>(rows: seq<seq<T>>): seq<T> {
    if rows == [] then [] else Flat(rows[..|rows| - 1]) + rows[|rows| - 1]
  }

  lemma {:induction false} BucketOfFlat<T>(rows: seq<seq<T>>, n: nat, who: T -> Address, hash: Address -> nat, b: nat)
    requires n <= |rows| && forall t :: 0 <= t < |rows| ==> OfBucket(rows[t], who, hash, t)
    ensures Bucket(Flat(rows[..n]), who, hash, b) == if b < n then rows[b] else []
  {
    if n > 0 {
      assert rows[..n][..n - 1] == rows[..n - 1];
      BucketOfFlat(rows, n - 1, who, hash, b);
      BucketOfAppended(Flat(rows[..n - 1]), rows[n - 1], who, hash, n - 1, b);
    }
  }

  /** For one kind of row: of each bucket either all rows are stored or late, or its task failed before it wrote any. */
  ghost predicate StoredOrLate<T(!new)>(stored: seq<T>, late: seq<T>, all: seq<seq<T>>, who: T -> Address,
                                        hash: Address -> nat)
    requires |all| == NUM_BUCKETS
  {
    forall b :: 0 <= b < NUM_BUCKETS ==>
                  || Bucket(stored, who, hash, b) + Bucket(late, who, hash, b) == all[b]
                  || Bucket(stored, who, hash, b) == Bucket(late, who, hash, b) == []
  }

  lemma ProgressIsStoredOrLate<T(!new)>(stored: seq<T>, left: seq<seq<T>>, all: seq<seq<T>>, dropped: set<nat>,
                                        who: T -> Address, hash: Address -> nat)
    requires Progress(stored, left, all, dropped, who, hash) && AllSorted(left, who, hash)
    ensures StoredOrLate(stored, Flat(left), all, who, hash)
  {
    assert left[..NUM_BUCKETS] == left;
    forall b | 0 <= b < NUM_BUCKETS
      ensures Bucket(Flat(left), who, hash, b) == left[b]
    {
      BucketOfFlat(left, NUM_BUCKETS, who, hash, b);
    }
    forall b | 0 <= b < NUM_BUCKETS
      ensures || Bucket(stored, who, hash, b) + Bucket(Flat(left), who, hash, b) == all[b]
              || Bucket(stored, who, hash, b) == Bucket(Flat(left), who, hash, b) == []
    {
      assert Accounted(stored, left, all, dropped, who, hash, b);
    }
  }

  /**
    The state of the eight tasks: rows not yet written, tasks that still write PERFORMS rows, tasks
    that run, tasks that failed.
    */
  datatype Tasks = Tasks(performs: seq<seq<PerformsData>>, benefits: seq<seq<BenefitsToData>>,
                         performing: set<nat>, running: set<nat>, failed: set<nat>)

  ghost predicate Consistent(s: Tasks, performs: seq<seq<PerformsData>>, benefits: seq<seq<BenefitsToData>>) {
    && |s.performs| == |s.benefits| == |performs| == |benefits| == NUM_BUCKETS
    && s.performing <= s.running && s.failed !! s.running
    && (forall b :: b in s.running ==> b < NUM_BUCKETS && s.benefits[b] == benefits[b])
    && (forall b :: b in s.performing ==> s.performs[b] == performs[b])
    && (forall b :: 0 <= b < NUM_BUCKETS && b !in s.performing ==> s.performs[b] == [])
    && (forall b :: 0 <= b < NUM_BUCKETS && b !in s.running ==> s.benefits[b] == [])
  }

  /** What has been stored since `p0` and `b0`, against what the tasks still hold. */
  ghost predicate Running(s: Tasks, stored: (seq<PerformsData>, seq<BenefitsToData>), droppedPerforms: set<nat>,
                          droppedBenefits: set<nat>,
                          performs: seq<seq<PerformsData>>, benefits: seq<seq<BenefitsToData>>, hash: Address -> nat) {
    && Consistent(s, performs, benefits)
    && droppedPerforms <= s.failed && droppedBenefits <= s.failed
    && Progress(stored.0, s.performs, performs, droppedPerforms, PerformsAddress, hash)
    && Progress(stored.1, s.benefits, benefits, droppedBenefits, BenefitsAddress, hash)
  }

  lemma PerformsStored(s: Tasks, stored: (seq<PerformsData>, seq<BenefitsToData>), dp: set<nat>, db: set<nat>,
                       performs: seq<seq<PerformsData>>, benefits: seq<seq<BenefitsToData>>, hash: Address -> nat,
                       b: nat)
    requires Running(s, stored, dp, db, performs, benefits, hash) && b in s.performing
    requires AllSorted(performs, PerformsAddress, hash)
    ensures Running(s.(performs := s.performs[b := []], performing := s.performing - {b}),
                    (stored.0 + s.performs[b], stored.1), dp, db, performs, benefits, hash)
  {
    ProgressStep(stored.0, s.performs, performs, dp, PerformsAddress, hash, b);
  }

  lemma BenefitsStored(s: Tasks, stored: (seq<PerformsData>, seq<BenefitsToData>), dp: set<nat>, db: set<nat>,
                       performs: seq<seq<PerformsData>>, benefits: seq<seq<BenefitsToData>>, hash: Address -> nat,
                       b: nat)
    requires Running(s, stored, dp, db, performs, benefits, hash) && b in s.running && b !in s.performing
    requires AllSorted(benefits, BenefitsAddress, hash)
    ensures Running(s.(benefits := s.benefits[b := []], running := s.running - {b}),
                    (stored.0, stored.1 + s.benefits[b]), dp, db, performs, benefits, hash)
  {
    ProgressStep(stored.1, s.benefits, benefits, db, BenefitsAddress, hash, b);
  }

  /** Task `b` after a failed write: it holds nothing any more. */
  function Failed(s: Tasks, b: nat): Tasks
    requires b < |s.performs| && b < |s.benefits|
  {
    Tasks(s.performs[b := []], s.benefits[b := []], s.performing - {b}, s.running - {b}, s.failed + {b})
  }

  lemma TaskFailed(s: Tasks, stored: (seq<PerformsData>, seq<BenefitsToData>), dp: set<nat>, db: set<nat>,
                   performs: seq<seq<PerformsData>>, benefits: seq<seq<BenefitsToData>>, hash: Address -> nat, b: nat)
    requires Running(s, stored, dp, db, performs, benefits, hash) && b in s.running
    ensures Running(Failed(s, b), stored, if b in s.performing then dp + {b}
                    else dp, db + {b}, performs, benefits, hash)
  {
    ProgressDrop(stored.1, s.benefits, benefits, db, BenefitsAddress, hash, b);
    if b in s.performing {
      ProgressDrop(stored.0, s.performs, performs, dp, PerformsAddress, hash, b);
    } else {
      assert s.performs[b := []] == s.performs;
    }
  }

  /** What the tables gained since they were `p0` and `b0`. */
  ghost function Gained(writer: MockWriter, p0: seq<PerformsData>, b0: seq<BenefitsToData>)
    : (seq<PerformsData>, seq<BenefitsToData>)
    requires p0 <= writer.performs && b0 <= writer.benefits
    reads writer`performs, writer`benefits
  {
    (writer.performs[|p0|..], writer.benefits[|b0|..])
  }

  lemma GainedMore<T>(before: seq<T>, now: seq<T>, rows: seq<T>)
    requires before <= now
    ensures before <= now + rows && (now + rows)[|before|..] == now[|before|..] + rows
  {
  }

  /** One write of a running task. */
  method TaskTurn(writer: MockWriter, s: Tasks, b: nat, ghost p0: seq<PerformsData>, ghost b0: seq<BenefitsToData>,
                  ghost dp: set<nat>, ghost db: set<nat>,
                  ghost performs: seq<seq<PerformsData>>, ghost benefits: seq<seq<BenefitsToData>>,
                  ghost hash: Address -> nat)
    returns (r: Tasks, ghost dp': set<nat>, ghost db': set<nat>)
    requires p0 <= writer.performs && b0 <= writer.benefits
    requires Running(s, Gained(writer, p0, b0), dp, db, performs, benefits, hash) && b in s.running
    requires AllSorted(performs, PerformsAddress, hash) && AllSorted(benefits, BenefitsAddress, hash)
    modifies writer`performs, writer`benefits, writer`log
    ensures p0 <= writer.performs && b0 <= writer.benefits
    ensures Running(r, Gained(writer, p0, b0), dp', db', performs, benefits, hash)
    ensures r.running <= s.running && r.performing <= s.performing
            && (r.running < s.running || r.performing < s.performing)
    ensures s.failed <= r.failed <= s.failed + {b}
    ensures r.failed != s.failed ==> performs[b] != [] || benefits[b] != []
    ensures Steady(old(writer.log), writer.log)
    ensures r.failed != s.failed ==>
              writer.log.failures > old(writer.log.failures) && writer.log.relations > old(writer.log.relations)
  {
    dp', db' := dp, db;
    ghost var stored := Gained(writer, p0, b0);
    var w := Pass;
    if b in s.performing {
      GainedMore(p0, writer.performs, s.performs[b]);
      if s.performs[b] != [] {
        w := writer.WritePerforms(s.performs[b]);
      }
      r := s.(performs := s.performs[b := []], performing := s.performing - {b});
      PerformsStored(s, stored, dp, db, performs, benefits, hash, b);
      assert w.Pass? ==> Gained(writer, p0, b0).0 == stored.0 + s.performs[b];
    } else {
      GainedMore(b0, writer.benefits, s.benefits[b]);
      if s.benefits[b] != [] {
        w := writer.WriteBenefitsTo(s.benefits[b]);
      }
      r := s.(benefits := s.benefits[b := []], running := s.running - {b});
      BenefitsStored(s, stored, dp, db, performs, benefits, hash, b);
      assert w.Pass? ==> Gained(writer, p0, b0).1 == stored.1 + s.benefits[b];
    }
    if w.Fail? {
      TaskFailed(s, stored, dp, db, performs, benefits, hash, b);
      dp', db' := if b in s.performing then dp + {b} else dp, db + {b};
      r := Failed(s, b);
    }
  }

  lemma TasksStart(performs: seq<seq<PerformsData>>, benefits: seq<seq<BenefitsToData>>, hash: Address -> nat)
    requires |performs| == |benefits| == NUM_BUCKETS
    ensures var all: set<nat> := {0, 1, 2, 3, 4, 5, 6, 7};
            Running(Tasks(performs, benefits, all, all, {}), ([], []), {}, {}, performs, benefits, hash)
  {
    ProgressStart(performs, PerformsAddress, hash);
    ProgressStart(benefits, BenefitsAddress, hash);
  }

  /** How the phase leaves the tables: what is stored, and what tasks that still run may yet write. */
  ghost predicate PhaseLeft(stored: (seq<PerformsData>, seq<BenefitsToData>),
                            late: (seq<PerformsData>, seq<BenefitsToData>),
                            performs: seq<seq<PerformsData>>, benefits: seq<seq<BenefitsToData>>, hash: Address -> nat)
    requires |performs| == |benefits| == NUM_BUCKETS
  {
    && StoredOrLate(stored.0, late.0, performs, PerformsAddress, hash)
    && StoredOrLate(stored.1, late.1, benefits, BenefitsAddress, hash)
  }

  /** The rows of the first `n` buckets are stored. */
  ghost predicate StoredBelow(stored: (seq<PerformsData>, seq<BenefitsToData>), performs: seq<seq<PerformsData>>,
                              benefits: seq<seq<BenefitsToData>>, hash: Address -> nat, n: nat)
    requires n <= |performs| == |benefits|
  {
    forall b :: 0 <= b < n ==>
                  && Bucket(stored.0, PerformsAddress, hash, b) == performs[b]
                  && Bucket(stored.1, BenefitsAddress, hash, b) == benefits[b]
  }

  /** What tasks that have ended without a failure had to write is stored. */
  lemma AllEnded(s: Tasks, stored: (seq<PerformsData>, seq<BenefitsToData>), dp: set<nat>, db: set<nat>,
                 performs: seq<seq<PerformsData>>, benefits: seq<seq<BenefitsToData>>, hash: Address -> nat, n: nat)
    requires n <= NUM_BUCKETS && Running(s, stored, dp, db, performs, benefits, hash) && EndedBelow(s, n)
    ensures StoredBelow(stored, performs, benefits, hash, n)
  {
    forall b | 0 <= b < n
      ensures Bucket(stored.0, PerformsAddress, hash, b) == performs[b]
      ensures Bucket(stored.1, BenefitsAddress, hash, b) == benefits[b]
    {
      assert Accounted(stored.0, s.performs, performs, dp, PerformsAddress, hash, b);
      assert Accounted(stored.1, s.benefits, benefits, db, BenefitsAddress, hash, b);
    }
  }

  lemma SomeEnded(s: Tasks, stored: (seq<PerformsData>, seq<BenefitsToData>), dp: set<nat>, db: set<nat>,
                  performs: seq<seq<PerformsData>>, benefits: seq<seq<BenefitsToData>>, hash: Address -> nat)
    requires Running(s, stored, dp, db, performs, benefits, hash)
    requires AllSorted(performs, PerformsAddress, hash) && AllSorted(benefits, BenefitsAddress, hash)
    ensures PhaseLeft(stored, (Flat(s.performs), Flat(s.benefits)), performs, benefits, hash)
  {
    assert AllSorted(s.performs, PerformsAddress, hash) by {
      forall b | 0 <= b < NUM_BUCKETS
        ensures OfBucket(s.performs[b], PerformsAddress, hash, b)
      {
        assert OfBucket(performs[b], PerformsAddress, hash, b);
      }
    }
    assert AllSorted(s.benefits, BenefitsAddress, hash) by {
      forall b | 0 <= b < NUM_BUCKETS
        ensures OfBucket(s.benefits[b], BenefitsAddress, hash, b)
      {
        assert OfBucket(benefits[b], BenefitsAddress, hash, b);
      }
    }
    ProgressIsStoredOrLate(stored.0, s.performs, performs, dp, PerformsAddress, hash);
    ProgressIsStoredOrLate(stored.1, s.benefits, benefits, db, BenefitsAddress, hash);
  }

  ghost predicate EndedBelow(s: Tasks, n: nat) {
    forall b :: 0 <= b < n ==> b !in s.running && b !in s.failed
  }

  /** Every row belongs to a bucket above `f`. */
  ghost predicate OnlyAbove<T>(rows: seq<T>, who: T -> Address, hash: Address -> nat, f: nat) {
    forall x :: x in rows ==> BucketOf(hash, who(x)) > f
  }

  lemma {:induction false} FlatAbove<T>(rows: seq<seq<T>>, all: seq<seq<T>>, who: T -> Address, hash: Address -> nat,
                                        f: nat)
    requires |rows| <= |all| && AllSorted(all, who, hash)
    requires forall b :: 0 <= b < |rows| ==> rows[b] == [] || (b > f && rows[b] == all[b])
    ensures OnlyAbove(Flat(rows), who, hash, f)
  {
    if rows != [] {
      var last := |rows| - 1;
      FlatAbove(rows[..last], all, who, hash, f);
      assert OfBucket(all[last], who, hash, last);
    }
  }

  /** A task that failed had something to write. */
  ghost predicate FailedWriting(s: Tasks, performs: seq<seq<PerformsData>>, benefits: seq<seq<BenefitsToData>>)
    requires |performs| == |benefits|
  {
    forall b :: b in s.failed ==> b < |performs| && (performs[b] != [] || benefits[b] != [])
  }

  /** On success everything is stored and nobody is left. */
  lemma PhaseDone(s: Tasks, stored: (seq<PerformsData>, seq<BenefitsToData>), dp: set<nat>, db: set<nat>,
                  performs: seq<seq<PerformsData>>, benefits: seq<seq<BenefitsToData>>, hash: Address -> nat)
    requires Running(s, stored, dp, db, performs, benefits, hash) && EndedBelow(s, NUM_BUCKETS)
    ensures Flat(s.performs) == [] && Flat(s.benefits) == []
            && StoredBelow(stored, performs, benefits, hash, NUM_BUCKETS)
  {
    AllEnded(s, stored, dp, db, performs, benefits, hash, NUM_BUCKETS);
    NothingFlat(s.performs, NUM_BUCKETS);
    NothingFlat(s.benefits, NUM_BUCKETS);
  }

  /** On failure of bucket `f` those below are stored, and those who are left are above. */
  lemma PhaseBroken(s: Tasks, stored: (seq<PerformsData>, seq<BenefitsToData>), dp: set<nat>, db: set<nat>,
                    performs: seq<seq<PerformsData>>, benefits: seq<seq<BenefitsToData>>, hash: Address -> nat, f: nat)
    requires Running(s, stored, dp, db, performs, benefits, hash) && f < NUM_BUCKETS && EndedBelow(s, f)
             && f in s.failed
    requires AllSorted(performs, PerformsAddress, hash) && AllSorted(benefits, BenefitsAddress, hash)
    ensures StoredBelow(stored, performs, benefits, hash, f)
    ensures OnlyAbove(Flat(s.performs), PerformsAddress, hash, f)
            && OnlyAbove(Flat(s.benefits), BenefitsAddress, hash, f)
  {
    AllEnded(s, stored, dp, db, performs, benefits, hash, f);
    FlatAbove(s.performs, performs, PerformsAddress, hash, f);
    FlatAbove(s.benefits, benefits, BenefitsAddress, hash, f);
  }

  /**
    Spawns the tasks and awaits them in order, while which task acts next, and how far
    the others get before an ended one is noticed, is arbitrary. On success all have
    ended and stored their rows in order. On failure, which is noticed when bucket `f` is
    awaited, the buckets below have stored theirs, and the rows of tasks that still run,
    all of them above, become the writer's late rows.
    */
  method RunBucketTasks(writer: MockWriter, performs: seq<seq<PerformsData>>, benefits: seq<seq<BenefitsToData>>,
                        ghost hash: Address -> nat)
    returns (r: Outcome<WriterError>, f: nat)
    requires AllSorted(performs, PerformsAddress, hash) && AllSorted(benefits, BenefitsAddress, hash) && writer.Quiet()
    modifies writer`performs, writer`benefits, writer`log,
             writer`latePerforms, writer`lateBenefits
    ensures old(writer.performs) <= writer.performs && old(writer.benefits) <= writer.benefits
    ensures if r.Pass? then f == NUM_BUCKETS else f < NUM_BUCKETS && (performs[f] != [] || benefits[f] != [])
    ensures StoredBelow(Gained(writer, old(writer.performs), old(writer.benefits)), performs, benefits, hash, f)
    ensures r.Pass? ==> writer.Quiet()
    ensures OnlyAbove(writer.latePerforms, PerformsAddress, hash, f)
            && OnlyAbove(writer.lateBenefits, BenefitsAddress, hash, f)
    ensures PhaseLeft(Gained(writer, old(writer.performs), old(writer.benefits)),
                      (writer.latePerforms, writer.lateBenefits), performs, benefits, hash)
    ensures Steady(old(writer.log), writer.log)
    ensures r.Fail? ==>
              writer.log.failures > old(writer.log.failures) && writer.log.relations > old(writer.log.relations)
  {
    ghost var p0, b0 := writer.performs, writer.benefits;
    var s := Tasks(performs, benefits, {0, 1, 2, 3, 4, 5, 6, 7}, {0, 1, 2, 3, 4, 5, 6, 7}, {});
    TasksStart(performs, benefits, hash);
    ghost var dp, db;
    r, f, s, dp, db := AwaitAll(writer, s, p0, b0, performs, benefits, hash);
    SomeEnded(s, Gained(writer, p0, b0), dp, db, performs, benefits, hash);
    if r.Pass? {
      PhaseDone(s, Gained(writer, p0, b0), dp, db, performs, benefits, hash);
    } else {
      PhaseBroken(s, Gained(writer, p0, b0), dp, db, performs, benefits, hash, f);
    }
    writer.latePerforms, writer.lateBenefits := Flat(s.performs), Flat(s.benefits);
  }

  /** The loop over the task handles; `f` is the handle at which it ends. */
  method AwaitAll(writer: MockWriter, s0: Tasks, ghost p0: seq<PerformsData>, ghost b0: seq<BenefitsToData>,
                  ghost performs: seq<seq<PerformsData>>, ghost benefits: seq<seq<BenefitsToData>>,
                  ghost hash: Address -> nat)
    returns (r: Outcome<WriterError>, f: nat, s: Tasks, ghost dp: set<nat>, ghost db: set<nat>)
    requires p0 <= writer.performs && b0 <= writer.benefits && s0.failed == {}
    requires Running(s0, Gained(writer, p0, b0), {}, {}, performs, benefits, hash)
    requires AllSorted(performs, PerformsAddress, hash) && AllSorted(benefits, BenefitsAddress, hash)
    modifies writer`performs, writer`benefits, writer`log
    ensures p0 <= writer.performs && b0 <= writer.benefits
    ensures Running(s, Gained(writer, p0, b0), dp, db, performs, benefits, hash)
    ensures EndedBelow(s, f)
    ensures r.Pass? ==> f == NUM_BUCKETS
    ensures r.Fail? ==> f < NUM_BUCKETS && f in s.failed && (performs[f] != [] || benefits[f] != [])
    ensures Steady(old(writer.log), writer.log)
    ensures r.Fail? ==>
              writer.log.failures > old(writer.log.failures) && writer.log.relations > old(writer.log.relations)
  {
    s, dp, db, r, f := s0, {}, {}, Pass, 0;
    while f < NUM_BUCKETS
      invariant f <= NUM_BUCKETS && EndedBelow(s, f) && r.Pass?
      invariant p0 <= writer.performs && b0 <= writer.benefits
      invariant Running(s, Gained(writer, p0, b0), dp, db, performs, benefits, hash)
                && FailedWriting(s, performs, benefits)
      invariant Steady(old(writer.log), writer.log)
      invariant s.failed != {} ==>
                  writer.log.failures > old(writer.log.failures) && writer.log.relations > old(writer.log.relations)
      decreases s.running, s.performing, NUM_BUCKETS - f
    {
      var notices: bool := *;
      if f !in s.running && (notices || s.running == {}) {
        if f in s.failed {
          return Fail(QueryFailed), f, s, dp, db;
        }
        f := f + 1;
      } else {
        var b :| b in s.running;
        s, dp, db := TaskTurn(writer, s, b, p0, b0, dp, db, performs, benefits, hash);
      }
    }
  }

  lemma {:induction false} NothingFlat<T>(rows: seq<seq<T>>, n: nat)
    requires n == |rows| && forall b :: 0 <= b < n ==> rows[b] == []
    ensures Flat(rows) == []
  {
    if n > 0 {
      NothingFlat(rows[..n - 1], n - 1);
    }
  }

  /** Merged into any relationships, the stored rows give what the unpartitioned lists give. */
  ghost predicate SameRelations(storedPerforms: seq<PerformsData>, storedBenefits: seq<BenefitsToData>,
                                performs: seq<PerformsData>, benefits: seq<BenefitsToData>) {
    forall rel :: WriteAll(rel, WritesOf(storedPerforms, storedBenefits)) == WriteAll(rel, WritesOf(performs, benefits))
  }

  /** Partitions the rows and runs the tasks; in any case nothing else is stored, and on success everything in order. */
  method WriteSimplifiedLayer(writer: MockWriter, hash: Address -> nat, performs: seq<PerformsData>,
                              benefits: seq<BenefitsToData>)
    returns (r: Outcome<WriterError>)
    requires writer.Quiet()
    modifies writer`performs, writer`benefits, writer`log,
             writer`latePerforms, writer`lateBenefits
    ensures old(writer.performs) <= writer.performs && old(writer.benefits) <= writer.benefits
    ensures r.Pass? ==> writer.Quiet()
    ensures r.Pass? ==> var stored := Gained(writer, old(writer.performs), old(writer.benefits));
                        && SameBuckets(stored.0, performs, PerformsAddress, hash)
                        && SameBuckets(stored.1, benefits, BenefitsAddress, hash)
                        && SameRelations(stored.0, stored.1, performs, benefits)
    ensures r.Pass? ==> && multiset(writer.performs) == multiset(old(writer.performs)) + multiset(performs)
                        && multiset(writer.benefits) == multiset(old(writer.benefits)) + multiset(benefits)
    ensures Steady(old(writer.log), writer.log)
    ensures r.Fail? ==>
              writer.log.failures > old(writer.log.failures) && writer.log.relations > old(writer.log.relations)
  {
    ghost var p0, b0 := writer.performs, writer.benefits;
    var performsBuckets := PartitionByAddress(performs, PerformsAddress, hash);
    var benefitsBuckets := PartitionByAddress(benefits, BenefitsAddress, hash);
    BucketsAreSorted(performs, performsBuckets, PerformsAddress, hash);
    BucketsAreSorted(benefits, benefitsBuckets, BenefitsAddress, hash);
    var f;
    r, f := RunBucketTasks(writer, performsBuckets, benefitsBuckets, hash);
    if r.Pass? {
      ghost var stored := Gained(writer, p0, b0);
      SameBucketsSameRows(stored.0, performs, PerformsAddress, hash);
      SameBucketsSameRows(stored.1, benefits, BenefitsAddress, hash);
      assert writer.performs == p0 + stored.0 && writer.benefits == b0 + stored.1;
      forall rel
        ensures WriteAll(rel, WritesOf(stored.0, stored.1)) == WriteAll(rel, WritesOf(performs, benefits))
      {
        StoredRowsDecide(rel, stored.0, stored.1, performs, benefits, hash);
      }
    }
  }

  lemma BucketsAreSorted<T>(rows: seq<T>, buckets: seq<seq<T>>, who: T -> Address, hash: Address -> nat)
    requires |buckets| == NUM_BUCKETS && forall b :: 0 <= b < NUM_BUCKETS ==> buckets[b] == Bucket(rows, who, hash, b)
    ensures AllSorted(buckets, who, hash)
  {
    forall b, x | 0 <= b < NUM_BUCKETS && x in buckets[b]
      ensures BucketOf(hash, who(x)) == b
    {
      FilterMember(InBucket(who, hash, b), rows, x);
    }
  }
}
