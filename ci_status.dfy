/**
 * Build rows of a CI pipeline, the status a set of rows adds up to, and the table that
 * decides from the status of the earlier stages whether a job of a later stage runs.
 */
module CiStatus {
  import opened Basics

  datatype Status = Created | Pending | Running | Success | Failed | Canceled | Skipped

  /** The `when:` keyword of a job; a job without one is `OnSuccess`. */
  datatype When = OnSuccess | OnFailure | Always | Manual

  /**
   * One build row of a pipeline. Rows are never removed: a retry appends a new row
   * with the same name, and the older row stays as history.
   */
  datatype Job = Job(name: string, stageIdx: int, when: When, allowFailure: bool, status: Status)

  /** The statuses after which a job no longer holds up the stages behind it. */
  predicate Completed(s: Status) {
    s == Success || s == Failed || s == Canceled || s == Skipped
  }

  /** `running_or_pending`. */
  predicate Active(s: Status) {
    s == Pending || s == Running
  }

  /** Which rows an aggregate looks at: those of the stages below a stage index, or all. */
  datatype Scope = Below(stage: int) | Whole

  /** Row `i` is the most recent row with its name (a row added by a retry supersedes older ones). */
  predicate IsLatest(jobs: seq<Job>, i: int)
    requires 0 <= i < |jobs|
  {
    forall j :: i < j < |jobs| ==> jobs[j].name != jobs[i].name
  }

  /** Rows that count in an aggregate: latest of their name, no longer `created`, inside the scope. */
  predicate InScope(jobs: seq<Job>, sc: Scope, i: int) {
    && 0 <= i < |jobs|
    && IsLatest(jobs, i)
    && jobs[i].status != Created
    && (sc.Below? ==> jobs[i].stageIdx < sc.stage)
  }

  /** A failure that the job's `allow_failure` makes harmless. */
  predicate IgnoredFailure(j: Job) {
    j.allowFailure && j.status == Failed
  }

  /**
   * Every counted row has a status in `allowed`, or, when `ignoring` holds, is an
   * ignored failure.
   */
  predicate AllIn(jobs: seq<Job>, sc: Scope, allowed: set<Status>, ignoring: bool) {
    forall i :: 0 <= i < |jobs| && InScope(jobs, sc, i) ==>
      jobs[i].status in allowed || (ignoring && IgnoredFailure(jobs[i]))
  }

  predicate AnyInScope(jobs: seq<Job>, sc: Scope) {
    exists i :: 0 <= i < |jobs| && InScope(jobs, sc, i)
  }

  predicate AnyActive(jobs: seq<Job>, sc: Scope) {
    exists i :: 0 <= i < |jobs| && InScope(jobs, sc, i) && Active(jobs[i].status)
  }

  /**
   * The status a set of rows adds up to, `None` when no row counts. The cases are
   * tried in this order: all skipped; all succeeded, skipped or ignored failures;
   * all pending or skipped; all canceled, succeeded, skipped or ignored failures;
   * something pending or running; otherwise failed.
   */
  function Aggregate(jobs: seq<Job>, sc: Scope): Option<Status> {
    if !AnyInScope(jobs, sc) then None
    else if AllIn(jobs, sc, {Skipped}, false) then Some(Skipped)
    else if AllIn(jobs, sc, {Success, Skipped}, true) then Some(Success)
    else if AllIn(jobs, sc, {Pending, Skipped}, false) then Some(Pending)
    else if AllIn(jobs, sc, {Canceled, Success, Skipped}, true) then Some(Canceled)
    else if AnyActive(jobs, sc) then Some(Running)
    else Some(Failed)
  }

  /** The status of all stages below `k`; with nothing to look at, `success`. */
  function PriorStatus(jobs: seq<Job>, k: int): Status {
    Aggregate(jobs, Below(k)).GetOr(Success)
  }

  /** The status of the pipeline: the aggregate over all its latest rows. */
  function PipelineStatus(jobs: seq<Job>): Status {
    Aggregate(jobs, Whole).GetOr(Created)
  }

  /** The `when` table: whether a job runs given the status of the stages before it. */
  function Runs(w: When, prior: Status): bool {
    match w
    case OnSuccess => prior == Success || prior == Skipped
    case OnFailure => prior == Failed
    case Always => prior == Success || prior == Failed || prior == Skipped
    case Manual => false
  }

  /** The decision for a `created` job once its stage is reached: enqueue or skip. */
  function Decide(j: Job, prior: Status): (r: Job)
    ensures r == j.(status := r.status)
    ensures r.status == Pending <==> Runs(j.when, prior)
    ensures r.status == Skipped <==> !Runs(j.when, prior)
  {
    j.(status := if Runs(j.when, prior) then Pending else Skipped)
  }

  /** Two row lists that differ at most in the rows' statuses. */
  predicate SameRows(a: seq<Job>, b: seq<Job>) {
    && |a| == |b|
    && forall i :: 0 <= i < |a| ==>
         && a[i].name == b[i].name && a[i].stageIdx == b[i].stageIdx
         && a[i].when == b[i].when && a[i].allowFailure == b[i].allowFailure
  }

  /** `a` and `b` differ at most in the statuses of rows of stage `k` and above. */
  predicate AgreeBelow(a: seq<Job>, b: seq<Job>, k: int) {
    && SameRows(a, b)
    && forall i :: 0 <= i < |a| && a[i].stageIdx < k ==> a[i].status == b[i].status
  }

  /** A stage may be reached exactly when no latest row of an earlier stage is pending or running. */
  lemma PriorCompletedIff(jobs: seq<Job>, k: int)
    ensures Completed(PriorStatus(jobs, k)) <==> !AnyActive(jobs, Below(k))
  {
    AggregateActiveIff(jobs, Below(k));
  }

  /** The aggregate is `pending` or `running` exactly when a counted row is pending or running. */
  lemma AggregateActiveIff(jobs: seq<Job>, sc: Scope)
    ensures Aggregate(jobs, sc) == Some(Pending) || Aggregate(jobs, sc) == Some(Running)
            <==> AnyActive(jobs, sc)
  {
    if AnyActive(jobs, sc) {
      var i :| 0 <= i < |jobs| && InScope(jobs, sc, i) && Active(jobs[i].status);
      assert !AllIn(jobs, sc, {Skipped}, false);
      assert !AllIn(jobs, sc, {Success, Skipped}, true);
      assert !AllIn(jobs, sc, {Canceled, Success, Skipped}, true);
    }
  }

  /** Rows of stage `k` and above do not influence the status of the stages below `k`. */
  lemma PriorFrame(a: seq<Job>, b: seq<Job>, k: int)
    requires AgreeBelow(a, b, k)
    ensures PriorStatus(a, k) == PriorStatus(b, k)
  {
    var sc := Below(k);
    forall i | 0 <= i < |a|
      ensures InScope(a, sc, i) <==> InScope(b, sc, i)
      ensures InScope(a, sc, i) ==> a[i] == b[i]
    {
      assert IsLatest(a, i) <==> IsLatest(b, i);
    }
    assert AnyInScope(a, sc) <==> AnyInScope(b, sc);
    assert AnyActive(a, sc) <==> AnyActive(b, sc);
    assert AllIn(a, sc, {Skipped}, false) <==> AllIn(b, sc, {Skipped}, false);
    assert AllIn(a, sc, {Success, Skipped}, true) <==> AllIn(b, sc, {Success, Skipped}, true);
    assert AllIn(a, sc, {Pending, Skipped}, false) <==> AllIn(b, sc, {Pending, Skipped}, false);
    assert AllIn(a, sc, {Canceled, Success, Skipped}, true)
       <==> AllIn(b, sc, {Canceled, Success, Skipped}, true);
  }

  /**
   * A pipeline whose non-manual jobs all succeeded is `success`, even when manual
   * jobs were never triggered and sit skipped (or were never reached).
   */
  lemma SuccessDespiteManual(jobs: seq<Job>)
    requires forall i :: 0 <= i < |jobs| && IsLatest(jobs, i) && jobs[i].when != Manual ==>
               jobs[i].status == Success
    requires forall i :: 0 <= i < |jobs| && IsLatest(jobs, i) && jobs[i].when == Manual ==>
               jobs[i].status == Skipped || jobs[i].status == Created
    requires exists i :: 0 <= i < |jobs| && IsLatest(jobs, i) && jobs[i].when != Manual
    ensures PipelineStatus(jobs) == Success
  {
    var i :| 0 <= i < |jobs| && IsLatest(jobs, i) && jobs[i].when != Manual;
    assert InScope(jobs, Whole, i);
    assert !AllIn(jobs, Whole, {Skipped}, false);
  }

  /**
   * A failure that is not allowed makes the pipeline `failed` once nothing is pending
   * or running, whatever later `on_failure` or `always` jobs did.
   */
  lemma FailedDespiteLaterSuccess(jobs: seq<Job>, f: nat)
    requires f < |jobs| && IsLatest(jobs, f)
    requires jobs[f].status == Failed && !jobs[f].allowFailure
    requires !AnyActive(jobs, Whole)
    ensures PipelineStatus(jobs) == Failed
  {
    assert InScope(jobs, Whole, f);
    assert !AllIn(jobs, Whole, {Skipped}, false);
    assert !AllIn(jobs, Whole, {Success, Skipped}, true);
    assert !AllIn(jobs, Whole, {Pending, Skipped}, false);
    assert !AllIn(jobs, Whole, {Canceled, Success, Skipped}, true);
  }

  /**
   * A canceled job makes the pipeline `canceled` when every other counted row
   * succeeded, was skipped, or is an ignored failure.
   */
  lemma CanceledWhenRestSettled(jobs: seq<Job>, c: nat)
    requires c < |jobs| && IsLatest(jobs, c) && jobs[c].status == Canceled
    requires AllIn(jobs, Whole, {Canceled, Success, Skipped}, true)
    ensures PipelineStatus(jobs) == Canceled
  {
    assert InScope(jobs, Whole, c);
    assert !AllIn(jobs, Whole, {Skipped}, false);
    assert !AllIn(jobs, Whole, {Success, Skipped}, true);
    assert !AllIn(jobs, Whole, {Pending, Skipped}, false);
  }

  /** With nothing pending or running, a pipeline that has started is in a final status. */
  lemma SettledPipelineIsFinal(jobs: seq<Job>)
    requires AnyInScope(jobs, Whole) && !AnyActive(jobs, Whole)
    ensures Completed(PipelineStatus(jobs))
  {
    AggregateActiveIff(jobs, Whole);
  }
}
