/**
 * What one processing pass guarantees: every `created` job whose earlier stages have
 * settled is decided by the `when` table against the status of all earlier stages,
 * the others stay `created`; hence gating, the skip cascade within one pass, and
 * idempotence.
 */
module CiProcessProofs {
  import opened Basics
  import opened CiStatus
  import opened CiProcess

  /**
   * How a row that was `created` before a pass relates to the row after it: decided
   * by the table when `prior` (the status of its earlier stages) is final, unchanged
   * otherwise.
   */
  predicate Settles(before: Job, after: Job, prior: Status) {
    if Completed(prior) then after == Decide(before, prior) else after == before
  }

  /** The state after processing the stages in `done`, seen from the state `j0` before them. */
  predicate SweepInv(j0: seq<Job>, done: seq<int>, j: seq<Job>) {
    && SameRows(j0, j)
    && (forall i :: 0 <= i < |j0| && (j0[i].status != Created || j0[i].stageIdx !in done) ==>
          j[i] == j0[i])
    && (forall i :: 0 <= i < |j0| && j0[i].status == Created && j0[i].stageIdx in done ==>
          Settles(j0[i], j[i], PriorStatus(j, j0[i].stageIdx)))
  }

  /**
   * Declaratively, `r` is what a pass makes of the rows `m`: rows keep everything
   * but their status; a row that was not `created` is untouched; a `created` row is
   * decided by the `when` table against the status of ALL earlier stages when those
   * have settled, and stays `created` while one of them is still pending or running.
   */
  predicate Decided(m: seq<Job>, r: seq<Job>) {
    && SameRows(m, r)
    && (forall i :: 0 <= i < |m| && m[i].status != Created ==> r[i] == m[i])
    && (forall i :: 0 <= i < |m| && m[i].status == Created ==>
          Settles(m[i], r[i], PriorStatus(r, m[i].stageIdx)))
  }

  lemma ProcessStageRows(jobs: seq<Job>, k: int)
    ensures forall i :: 0 <= i < |jobs| ==>
      ProcessStage(jobs, k)[i] ==
        if jobs[i].stageIdx == k && jobs[i].status == Created && Completed(PriorStatus(jobs, k))
        then Decide(jobs[i], PriorStatus(jobs, k)) else jobs[i]
  {
  }

  /** Processing one more stage `k`, above every stage processed so far, keeps the sweep invariant. */
  lemma SweepStep(j0: seq<Job>, done: seq<int>, k: int, prev: seq<Job>)
    requires SweepInv(j0, done, prev)
    requires forall x :: x in done ==> x < k
    ensures SweepInv(j0, done + [k], ProcessStage(prev, k))
  {
    var cur := ProcessStage(prev, k);
    ProcessStageRows(prev, k);
    PriorFrame(prev, cur, k);
    forall i | 0 <= i < |j0| && (j0[i].status != Created || j0[i].stageIdx !in done + [k])
      ensures cur[i] == j0[i]
    {
      assert prev[i] == j0[i];
    }
    forall i | 0 <= i < |j0| && j0[i].status == Created && j0[i].stageIdx in done + [k]
      ensures Settles(j0[i], cur[i], PriorStatus(cur, j0[i].stageIdx))
    {
      var st := j0[i].stageIdx;
      if st in done {
        assert AgreeBelow(prev, cur, st);
        PriorFrame(prev, cur, st);
      } else {
        assert prev[i] == j0[i];
      }
    }
  }

  lemma {:induction false} SweepInvariant(j0: seq<Job>, s: seq<int>, n: nat)
    requires Increasing(s) && n <= |s|
    ensures SweepInv(j0, s[..n], Sweep(j0, s[..n]))
  {
    if n == 0 {
      assert s[..0] == [];
    } else {
      SweepInvariant(j0, s, n - 1);
      assert s[..n][..n - 1] == s[..n - 1];
      assert s[..n] == s[..n - 1] + [s[n - 1]];
      SweepStep(j0, s[..n - 1], s[n - 1], Sweep(j0, s[..n - 1]));
    }
  }

  /** The decision rule of a pass: `Execute` produces a state `Decided` from the materialised rows. */
  lemma ExecuteDecides(jobs: seq<Job>, config: seq<BuildSpec>)
    ensures Decided(Materialise(jobs, config), Execute(jobs, config).0)
  {
    var m := Materialise(jobs, config);
    var s := CreatedStages(m);
    SweepInvariant(m, s, |s|);
    assert s[..|s|] == s;
    forall i | 0 <= i < |m| && m[i].status == Created ensures m[i].stageIdx in s {
    }
  }

  function MinStage(m: seq<Job>): (lo: int)
    requires m != []
    ensures forall i :: 0 <= i < |m| ==> lo <= m[i].stageIdx
  {
    if |m| == 1 then m[0].stageIdx
    else
      var rest := MinStage(m[1..]);
      assert forall i :: 1 <= i < |m| ==> m[i] == m[1..][i - 1];
      if m[0].stageIdx < rest then m[0].stageIdx else rest
  }

  function MaxStage(m: seq<Job>): (hi: int)
    requires m != []
    ensures forall i :: 0 <= i < |m| ==> m[i].stageIdx <= hi
  {
    if |m| == 1 then m[0].stageIdx
    else
      var rest := MaxStage(m[1..]);
      assert forall i :: 1 <= i < |m| ==> m[i] == m[1..][i - 1];
      if m[0].stageIdx > rest then m[0].stageIdx else rest
  }

  /** If two outcomes agree below stage `k`, they agree on stage `k` as well. */
  lemma DecidedStep(m: seq<Job>, r1: seq<Job>, r2: seq<Job>, k: int)
    requires Decided(m, r1) && Decided(m, r2)
    requires AgreeBelow(r1, r2, k)
    ensures AgreeBelow(r1, r2, k + 1)
  {
    PriorFrame(r1, r2, k);
    forall i | 0 <= i < |r1| && r1[i].stageIdx == k && m[i].status == Created
      ensures r1[i].status == r2[i].status
    {
      assert Settles(m[i], r1[i], PriorStatus(r1, k));
      assert Settles(m[i], r2[i], PriorStatus(r2, k));
    }
  }

  lemma {:induction false} DecidedAgreeBelow(m: seq<Job>, r1: seq<Job>, r2: seq<Job>, lo: int, k: int)
    requires Decided(m, r1) && Decided(m, r2)
    requires forall i :: 0 <= i < |m| ==> lo <= m[i].stageIdx
    requires lo <= k
    ensures AgreeBelow(r1, r2, k)
    decreases k - lo
  {
    if k > lo {
      DecidedAgreeBelow(m, r1, r2, lo, k - 1);
      DecidedStep(m, r1, r2, k - 1);
    }
  }

  /** A pass has only one possible outcome: the decision rule determines every row. */
  lemma DecidedUnique(m: seq<Job>, r1: seq<Job>, r2: seq<Job>)
    requires Decided(m, r1) && Decided(m, r2)
    ensures r1 == r2
  {
    if m != [] {
      DecidedAgreeBelow(m, r1, r2, MinStage(m), MaxStage(m) + 1);
      assert forall i :: 0 <= i < |r1| ==> r1[i] == r2[i];
    }
  }

  /** The rows after a pass are exactly the rows the decision rule allows. */
  lemma ExecuteIsTheDecision(jobs: seq<Job>, config: seq<BuildSpec>, r: seq<Job>)
    ensures Decided(Materialise(jobs, config), r) <==> r == Execute(jobs, config).0
  {
    ExecuteDecides(jobs, config);
    if Decided(Materialise(jobs, config), r) {
      DecidedUnique(Materialise(jobs, config), r, Execute(jobs, config).0);
    }
  }

  /**
   * The skip cascade: after a pass, a row still `created` has a pending or running
   * latest row in an earlier stage. Stages made only of skipped jobs never stop the
   * pass.
   */
  lemma PassCascades(m: seq<Job>, r: seq<Job>, i: nat)
    requires Decided(m, r)
    requires i < |r| && r[i].status == Created
    ensures AnyActive(r, Below(r[i].stageIdx))
  {
    PriorCompletedIff(r, r[i].stageIdx);
  }

  /**
   * Gating: when a pass enqueues a job, every latest row of every earlier stage has
   * finished (succeeded, failed, been canceled or skipped).
   */
  lemma PassGating(m: seq<Job>, r: seq<Job>, i: nat)
    requires Decided(m, r)
    requires i < |m| && m[i].status == Created && r[i].status == Pending
    ensures forall j :: (0 <= j < |r| && IsLatest(r, j) && r[j].stageIdx < r[i].stageIdx) ==>
              Completed(r[j].status)
  {
    var k := r[i].stageIdx;
    PriorCompletedIff(r, k);
    forall j | 0 <= j < |r| && IsLatest(r, j) && r[j].stageIdx < k ensures Completed(r[j].status) {
      if r[j].status == Created {
        PassCascades(m, r, j);
        assert false;
      } else {
        assert InScope(r, Below(k), j);
      }
    }
  }

  /** A pass enqueues an `on_success` job only if no earlier latest row failed (other than allowed to) or was canceled. */
  lemma OnSuccessNeedsCleanHistory(m: seq<Job>, r: seq<Job>, i: nat)
    requires Decided(m, r)
    requires i < |m| && m[i].status == Created && m[i].when == OnSuccess && r[i].status == Pending
    ensures forall j :: (0 <= j < |r| && IsLatest(r, j) && r[j].stageIdx < r[i].stageIdx) ==>
              r[j].status == Success || r[j].status == Skipped || IgnoredFailure(r[j])
  {
    var k := r[i].stageIdx;
    PassGating(m, r, i);
    forall j | 0 <= j < |r| && IsLatest(r, j) && r[j].stageIdx < k
      ensures r[j].status == Success || r[j].status == Skipped || IgnoredFailure(r[j])
    {
      assert InScope(r, Below(k), j);
    }
  }

  /** A pass enqueues an `on_failure` job only after a latest row of an earlier stage failed without being allowed to. */
  lemma OnFailureNeedsFailure(m: seq<Job>, r: seq<Job>, i: nat)
    requires Decided(m, r)
    requires i < |m| && m[i].status == Created && m[i].when == OnFailure && r[i].status == Pending
    ensures exists j :: 0 <= j < |r| && IsLatest(r, j) && r[j].stageIdx < r[i].stageIdx &&
              r[j].status == Failed && !r[j].allowFailure
  {
    var k := r[i].stageIdx;
    assert PriorStatus(r, k) == Failed;
    assert !AllIn(r, Below(k), {Canceled, Success, Skipped}, true);
    var j :| 0 <= j < |r| && InScope(r, Below(k), j) &&
             !(r[j].status in {Canceled, Success, Skipped} || IgnoredFailure(r[j]));
    assert !Active(r[j].status);
  }

  /** Once its stage is reached, an `always` job is enqueued unless the earlier stages add up to canceled. */
  lemma AlwaysRunsUnlessCanceled(m: seq<Job>, r: seq<Job>, i: nat)
    requires Decided(m, r)
    requires i < |m| && m[i].status == Created && m[i].when == Always && r[i].status != Created
    ensures r[i].status == Pending <==> PriorStatus(r, r[i].stageIdx) != Canceled
  {
  }

  /** A pass never enqueues a manual job: once reached it is skipped and waits for an operator. */
  lemma ManualNeverEnqueued(m: seq<Job>, r: seq<Job>, i: nat)
    requires Decided(m, r)
    requires i < |m| && m[i].status == Created && m[i].when == Manual
    ensures r[i].status == Created || r[i].status == Skipped
  {
  }

  /**
   * After a cancellation nothing later is scheduled: with a canceled latest row in an
   * earlier stage and no failure that is not allowed, a pass enqueues no job.
   */
  lemma CanceledBlocksLaterStages(m: seq<Job>, r: seq<Job>, i: nat, c: nat)
    requires Decided(m, r)
    requires i < |m| && m[i].status == Created
    requires c < |r| && IsLatest(r, c) && r[c].status == Canceled && r[c].stageIdx < r[i].stageIdx
    requires forall j :: (0 <= j < |r| && IsLatest(r, j) && r[j].stageIdx < r[i].stageIdx) ==>
               !(r[j].status == Failed && !r[j].allowFailure)
    ensures r[i].status != Pending
  {
    var k := r[i].stageIdx;
    assert InScope(r, Below(k), c);
  }

  lemma {:induction false} SweepBlocked(jobs: seq<Job>, s: seq<int>, n: nat)
    requires n <= |s|
    requires forall x :: x in s ==> !Completed(PriorStatus(jobs, x))
    ensures Sweep(jobs, s[..n]) == jobs
  {
    if n > 0 {
      assert s[..n][..n - 1] == s[..n - 1];
      SweepBlocked(jobs, s, n - 1);
      assert s[n - 1] in s;
    } else {
      assert s[..0] == [];
    }
  }

  /**
   * A state where nothing is to be added and every `created` row waits for a pending
   * or running earlier row is a fixpoint: a pass changes nothing and returns false.
   */
  lemma QuiescentFixpoint(jobs: seq<Job>, config: seq<BuildSpec>)
    requires Materialise(jobs, config) == jobs
    requires forall i :: 0 <= i < |jobs| && jobs[i].status == Created ==>
               !Completed(PriorStatus(jobs, jobs[i].stageIdx))
    ensures Execute(jobs, config) == (jobs, false)
  {
    var s := CreatedStages(jobs);
    forall x | x in s ensures !Completed(PriorStatus(jobs, x)) {
      var i :| 0 <= i < |jobs| && jobs[i].status == Created && jobs[i].stageIdx == x;
    }
    SweepBlocked(jobs, s, |s|);
    assert s[..|s|] == s;
  }

  /**
   * Idempotence: unless the configuration has rows to add afterwards, a second pass
   * right after a first one changes nothing and returns false.
   */
  lemma PassIdempotent(jobs: seq<Job>, config: seq<BuildSpec>)
    requires Materialise(Execute(jobs, config).0, config) == Execute(jobs, config).0
    ensures Execute(Execute(jobs, config).0, config) == (Execute(jobs, config).0, false)
  {
    var r := Execute(jobs, config).0;
    ExecuteDecides(jobs, config);
    forall i | 0 <= i < |r| && r[i].status == Created ensures !Completed(PriorStatus(r, r[i].stageIdx)) {
      PassCascades(Materialise(jobs, config), r, i);
      PriorCompletedIff(r, r[i].stageIdx);
    }
    QuiescentFixpoint(r, config);
  }

  lemma {:induction false} MissingRowsNone(config: seq<BuildSpec>, jobs: seq<Job>)
    requires forall c :: 0 <= c < |config| ==> HasName(jobs, config[c].name)
    ensures MissingRows(config, jobs) == []
  {
    if config != [] {
      assert forall c :: 0 <= c < |config[1..]| ==> config[1..][c] == config[c + 1];
      MissingRowsNone(config[1..], jobs);
      assert HasName(jobs, config[0].name);
    }
  }

  /** Every declared job has a row, so nothing is added. */
  lemma MaterialiseNothingMissing(jobs: seq<Job>, config: seq<BuildSpec>)
    requires forall c :: 0 <= c < |config| ==> HasName(jobs, config[c].name)
    ensures Materialise(jobs, config) == jobs
  {
    MissingRowsNone(config, jobs);
  }

  /**
   * Once every stage has finished and every declared job has a row, a pass changes
   * nothing and returns false.
   */
  lemma FinishedPipelineStaysPut(jobs: seq<Job>, config: seq<BuildSpec>)
    requires !HasCreated(jobs)
    requires forall c :: 0 <= c < |config| ==> HasName(jobs, config[c].name)
    ensures Execute(jobs, config) == (jobs, false)
  {
    MaterialiseNothingMissing(jobs, config);
    QuiescentFixpoint(jobs, config);
  }

  /**
   * Rows are added at most once: after materialising, a second materialisation adds
   * nothing, and rows are added only when no row was `created`.
   */
  lemma MaterialiseOnce(jobs: seq<Job>, config: seq<BuildSpec>)
    ensures Materialise(Materialise(jobs, config), config) == Materialise(jobs, config)
    ensures HasCreated(jobs) ==> Materialise(jobs, config) == jobs
  {
    var m := Materialise(jobs, config);
    var add := MissingRows(config, jobs);
    if !HasCreated(jobs) {
      if add == [] {
        assert m == jobs;
      } else {
        assert m[|jobs|] == add[0];
      }
    }
  }

  predicate DistinctNames(jobs: seq<Job>) {
    forall i, j :: 0 <= i < j < |jobs| ==> jobs[i].name != jobs[j].name
  }

  /**
   * On a fresh pipeline (every row `created`, names distinct), when some job of the
   * lowest stage `k0` runs on success, the first pass decides exactly the jobs of
   * stage `k0` against `success`, leaves every other row `created`, and returns true.
   */
  lemma FirstPassStartsLowestStage(jobs: seq<Job>, config: seq<BuildSpec>, k0: int)
    requires forall i :: 0 <= i < |jobs| ==> jobs[i].status == Created && k0 <= jobs[i].stageIdx
    requires DistinctNames(jobs)
    requires exists i :: 0 <= i < |jobs| && jobs[i].stageIdx == k0 && Runs(jobs[i].when, Success)
    ensures Execute(jobs, config).1
    ensures |Execute(jobs, config).0| == |jobs|
    ensures forall i :: 0 <= i < |jobs| ==>
              Execute(jobs, config).0[i] == if jobs[i].stageIdx == k0 then Decide(jobs[i], Success) else jobs[i]
  {
    var p :| 0 <= p < |jobs| && jobs[p].stageIdx == k0 && Runs(jobs[p].when, Success);
    assert HasCreated(jobs);
    var r := Execute(jobs, config).0;
    ExecuteDecides(jobs, config);
    assert !AnyInScope(r, Below(k0));
    assert r[p].status == Pending;
    assert IsLatest(r, p);
    forall i | 0 <= i < |jobs|
      ensures r[i] == if jobs[i].stageIdx == k0 then Decide(jobs[i], Success) else jobs[i]
    {
      if jobs[i].stageIdx != k0 {
        assert InScope(r, Below(jobs[i].stageIdx), p);
        PriorCompletedIff(r, jobs[i].stageIdx);
      }
    }
  }

  /**
   * Retrying keeps the history: the retried row stays as it was but is no longer the
   * latest of its name, a new latest row with the same name, stage, `when` and
   * `allow_failure` is appended as `pending`, and only skipped rows of later stages
   * change (back to `created`). A job that is neither failed nor canceled is not retried.
   */
  lemma RetryKeepsHistory(jobs: seq<Job>, i: nat)
    requires i < |jobs|
    ensures !Retryable(jobs[i]) ==> Retried(jobs, i) == jobs
    ensures Retryable(jobs[i]) ==>
              && |Retried(jobs, i)| == |jobs| + 1
              && Retried(jobs, i)[|jobs|] == jobs[i].(status := Pending)
              && IsLatest(Retried(jobs, i), |jobs|)
              && Retried(jobs, i)[i] == jobs[i]
              && !IsLatest(Retried(jobs, i), i)
              && forall j :: 0 <= j < |jobs| ==>
                   Retried(jobs, i)[j] == jobs[j] ||
                   (jobs[j].stageIdx > jobs[i].stageIdx && jobs[j].status == Skipped &&
                    Retried(jobs, i)[j] == jobs[j].(status := Created))
  {
  }
}
