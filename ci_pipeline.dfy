/**
 * A pipeline as a stored collection of build rows, changed in place by the
 * processing pass and by the job events. Every method is proved to leave exactly
 * the rows that the functions of `CiProcess` describe.
 */
module CiPipeline {
  import opened Basics
  import opened CiStatus
  import opened CiProcess

  class Pipeline {
    /** The build rows, in creation order. */
    var jobs: seq<Job>
    /** The jobs declared in the pipeline's configuration; rows for them are added when first needed. */
    const config: seq<BuildSpec>

    constructor (initial: seq<Job>, declared: seq<BuildSpec>)
      ensures jobs == initial && config == declared
    {
      jobs := initial;
      config := declared;
    }

    /** The aggregate status of the pipeline. */
    function Status(): Status
      reads this
    {
      PipelineStatus(jobs)
    }

    /** `pipeline.manual_actions`. */
    function ManualActions(): seq<Job>
      reads this
    {
      CiProcess.ManualActions(jobs)
    }

    /** The rows that are neither `created` nor `skipped`. */
    function Builds(): seq<Job>
      reads this
    {
      Visible(jobs)
    }

    /**
     * `Ci::ProcessPipelineService#execute`: add the declared rows if none is
     * `created`, then for every stage holding `created` rows, lowest first, decide
     * them if the earlier stages have settled. Returns whether a job was enqueued.
     */
    method Process() returns (enqueued: bool)
      modifies this
      ensures jobs == Execute(old(jobs), config).0
      ensures enqueued == Execute(old(jobs), config).1
    {
      jobs := Materialise(jobs, config);
      ghost var m := jobs;
      var stages := CreatedStages(jobs);
      enqueued := false;
      var n := 0;
      while n < |stages|
        invariant 0 <= n <= |stages|
        invariant jobs == Sweep(m, stages[..n])
        invariant forall j :: 0 <= j < |m| && m[j].status != Created ==> jobs[j] == m[j]
        invariant enqueued == AnyEnqueued(m, jobs)
      {
        ghost var prev := jobs;
        var here := DecideStage(stages[n]);
        EnqueuedAccumulates(m, prev, jobs);
        enqueued := enqueued || here;
        assert stages[..n + 1][..n] == stages[..n];
        n := n + 1;
      }
      assert stages[..|stages|] == stages;
    }

    /**
     * `process_stage`: when the stages below `k` have settled, every `created` row
     * of stage `k` is enqueued or skipped. Returns whether one was enqueued.
     */
    method DecideStage(k: int) returns (enqueued: bool)
      modifies this
      ensures jobs == ProcessStage(old(jobs), k)
      ensures enqueued == AnyEnqueued(old(jobs), jobs)
    {
      var prior := PriorStatus(jobs, k);
      enqueued := false;
      if Completed(prior) {
        var i := 0;
        while i < |jobs|
          invariant 0 <= i <= |jobs| == |old(jobs)|
          invariant forall j :: 0 <= j < |jobs| ==>
                      jobs[j] == if j < i then ProcessStage(old(jobs), k)[j] else old(jobs)[j]
          invariant enqueued == AnyEnqueued(old(jobs), jobs)
        {
          if jobs[i].stageIdx == k && jobs[i].status == Created {
            var d := Decide(jobs[i], prior);
            ghost var prev := jobs;
            jobs := jobs[i := d];
            if d.status == Pending {
              enqueued := true;
            } else {
              assert forall j :: 0 <= j < |jobs| && j != i ==> jobs[j] == prev[j];
            }
          }
          i := i + 1;
        }
      }
    }

    /** A job finishing with status `st` (when it may) and the pass that triggers. */
    method Finish(i: nat, st: Status)
      requires i < |jobs|
      modifies this
      ensures jobs == Complete(old(jobs), config, i, st)
    {
      if CanFinish(jobs[i].status) {
        jobs := jobs[i := jobs[i].(status := st)];
        var _ := Process();
      }
    }

    /** `build.success`. */
    method Succeed(i: nat)
      requires i < |jobs|
      modifies this
      ensures jobs == Complete(old(jobs), config, i, Success)
    {
      Finish(i, Success);
    }

    /** `build.drop`. */
    method Drop(i: nat)
      requires i < |jobs|
      modifies this
      ensures jobs == Complete(old(jobs), config, i, Failed)
    {
      Finish(i, Failed);
    }

    /** `build.cancel`. */
    method Cancel(i: nat)
      requires i < |jobs|
      modifies this
      ensures jobs == Complete(old(jobs), config, i, Canceled)
    {
      Finish(i, Canceled);
    }

    /** A runner picks up a pending job. */
    method Run(i: nat)
      requires i < |jobs|
      modifies this
      ensures jobs == Start(old(jobs), i)
    {
      if jobs[i].status == Pending {
        jobs := jobs[i := jobs[i].(status := Running)];
      }
    }

    /** `builds.pending.update_all(status: 'success')`: no pass is triggered. */
    method SucceedPending()
      modifies this
      ensures jobs == SucceedAllPending(old(jobs))
    {
      var i := 0;
      while i < |jobs|
        invariant 0 <= i <= |jobs| == |old(jobs)|
        invariant forall j :: 0 <= j < |jobs| ==>
                    jobs[j] == if j < i then SucceedAllPending(old(jobs))[j] else old(jobs)[j]
      {
        if jobs[i].status == Pending {
          jobs := jobs[i := jobs[i].(status := Success)];
        }
        i := i + 1;
      }
    }

    /**
     * `Ci::Build.retry`: a failed or canceled job gets a new `pending` row, and the
     * skipped rows of later stages become `created` again. `ok` tells whether the
     * job could be retried.
     */
    method Retry(i: nat) returns (ok: bool)
      requires i < |jobs|
      modifies this
      ensures ok == Retryable(old(jobs)[i])
      ensures jobs == Retried(old(jobs), i)
    {
      var job := jobs[i];
      ok := Retryable(job);
      if ok {
        var j := 0;
        while j < |jobs|
          invariant 0 <= j <= |jobs| == |old(jobs)|
          invariant forall x :: 0 <= x < |jobs| ==>
                      jobs[x] == if x < j then Retried(old(jobs), i)[x] else old(jobs)[x]
        {
          if jobs[j].stageIdx > job.stageIdx && jobs[j].status == Skipped {
            jobs := jobs[j := jobs[j].(status := Created)];
          }
          j := j + 1;
        }
        jobs := jobs + [job.(status := Pending)];
      }
    }
  }

  /**
   * Rows that were not `created` stay as they are, so the jobs enqueued since `m`
   * are those enqueued up to `prev` and those enqueued from `prev` to `next`.
   */
  lemma EnqueuedAccumulates(m: seq<Job>, prev: seq<Job>, next: seq<Job>)
    requires |m| == |prev| == |next|
    requires forall j :: 0 <= j < |m| && m[j].status != Created ==> prev[j] == m[j]
    requires forall j :: 0 <= j < |prev| && prev[j].status != Created ==> next[j] == prev[j]
    ensures AnyEnqueued(m, next) <==> AnyEnqueued(m, prev) || AnyEnqueued(prev, next)
  {
    if AnyEnqueued(m, next) {
      var j :| 0 <= j < |m| && m[j].status == Created && next[j].status == Pending;
      if prev[j].status != Created {
        assert prev[j].status == Pending;
      }
    }
  }
}
