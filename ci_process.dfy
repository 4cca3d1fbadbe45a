/**
 * One processing pass over a pipeline's rows, and the job events that change rows
 * (finish, run, retry), written as functions of the rows. The class in `CiPipeline`
 * carries them out step by step and is proved equal to them.
 */
module CiProcess {
  import opened Basics
  import opened CiStatus

  /** A job declared in the pipeline's configuration. */
  datatype BuildSpec = BuildSpec(name: string, stageIdx: int, when: When, allowFailure: bool)

  function RowOf(b: BuildSpec): (j: Job)
    ensures j.status == Created && j.name == b.name && j.stageIdx == b.stageIdx
    ensures j.when == b.when && j.allowFailure == b.allowFailure
  {
    Job(b.name, b.stageIdx, b.when, b.allowFailure, Created)
  }

  predicate HasCreated(jobs: seq<Job>) {
    exists i :: 0 <= i < |jobs| && jobs[i].status == Created
  }

  predicate HasName(jobs: seq<Job>, name: string) {
    exists i :: 0 <= i < |jobs| && jobs[i].name == name
  }

  /** Rows for the declared jobs whose names have no row yet, in declaration order. */
  function MissingRows(config: seq<BuildSpec>, jobs: seq<Job>): (r: seq<Job>)
    ensures |r| <= |config|
    ensures forall j :: 0 <= j < |r| ==> r[j].status == Created && !HasName(jobs, r[j].name)
    ensures forall c :: 0 <= c < |config| && !HasName(jobs, config[c].name) ==> RowOf(config[c]) in r
    ensures forall j :: 0 <= j < |r| ==> exists c :: 0 <= c < |config| && r[j] == RowOf(config[c])
  {
    if config == [] then []
    else
      var rest := MissingRows(config[1..], jobs);
      assert forall c :: 1 <= c < |config| ==> config[c] == config[1..][c - 1];
      if HasName(jobs, config[0].name) then rest else [RowOf(config[0])] + rest
  }

  /**
   * Before a pass, when no row is `created`, rows are added for the jobs of the
   * configuration that have none yet; otherwise nothing is added.
   */
  function Materialise(jobs: seq<Job>, config: seq<BuildSpec>): (m: seq<Job>)
    ensures |m| >= |jobs| && m[..|jobs|] == jobs
  {
    if HasCreated(jobs) then jobs else jobs + MissingRows(config, jobs)
  }

  /** Decides the `created` rows of stage `k` if the stages below `k` have settled. */
  function ProcessStage(jobs: seq<Job>, k: int): (r: seq<Job>)
    ensures AgreeBelow(jobs, r, k)
  {
    var prior := PriorStatus(jobs, k);
    if !Completed(prior) then jobs
    else seq(|jobs|, i requires 0 <= i < |jobs| =>
               if jobs[i].stageIdx == k && jobs[i].status == Created then Decide(jobs[i], prior)
               else jobs[i])
  }

  predicate Increasing(s: seq<int>) {
    forall i, j :: 0 <= i < j < |s| ==> s[i] < s[j]
  }

  function InsertSorted(s: seq<int>, x: int): (r: seq<int>)
    requires Increasing(s)
    ensures Increasing(r)
    ensures forall y :: y in r <==> y in s || y == x
  {
    if s == [] then [x]
    else if x < s[0] then [x] + s
    else if x == s[0] then s
    else
      var t := InsertSorted(s[1..], x);
      assert forall y :: y in s[1..] ==> s[0] < y;
      assert forall j :: 0 <= j < |t| ==> t[j] in t && s[0] < t[j];
      [s[0]] + t
  }

  /** The distinct stage indices of the `created` rows, in ascending order. */
  function CreatedStages(jobs: seq<Job>): (r: seq<int>)
    ensures Increasing(r)
    ensures forall k :: k in r <==>
              exists i :: 0 <= i < |jobs| && jobs[i].status == Created && jobs[i].stageIdx == k
  {
    if jobs == [] then []
    else
      var init := jobs[..|jobs| - 1];
      var last := jobs[|jobs| - 1];
      var r := CreatedStages(init);
      assert forall i :: 0 <= i < |init| ==> init[i] == jobs[i];
      if last.status == Created then InsertSorted(r, last.stageIdx) else r
  }

  /** Processes the given stages one after another, lowest first. */
  function Sweep(jobs: seq<Job>, stages: seq<int>): (r: seq<Job>)
    ensures SameRows(jobs, r)
  {
    if stages == [] then jobs
    else ProcessStage(Sweep(jobs, stages[..|stages| - 1]), stages[|stages| - 1])
  }

  /** Some row that was `created` in `before` is `pending` in `after`. */
  predicate AnyEnqueued(before: seq<Job>, after: seq<Job>) {
    exists i :: 0 <= i < |before| && i < |after| && before[i].status == Created && after[i].status == Pending
  }

  /**
   * One processing pass: add the declared rows if nothing is `created`, process
   * every stage that has `created` rows in ascending order, and tell whether any
   * job was enqueued.
   */
  function Execute(jobs: seq<Job>, config: seq<BuildSpec>): (r: (seq<Job>, bool))
    ensures SameRows(Materialise(jobs, config), r.0)
  {
    var m := Materialise(jobs, config);
    var r := Sweep(m, CreatedStages(m));
    (r, AnyEnqueued(m, r))
  }

  /** `success`, `drop` and `cancel` fire from these statuses and are no-ops elsewhere. */
  predicate CanFinish(s: Status) {
    s == Created || s == Pending || s == Running
  }

  /** The row change of `success`, `drop` or `cancel` on row `i`, before the pass it triggers. */
  function Finish(jobs: seq<Job>, i: nat, st: Status): seq<Job>
    requires i < |jobs|
  {
    if CanFinish(jobs[i].status) then jobs[i := jobs[i].(status := st)] else jobs
  }

  /** A job finishing with `st` and the pass that its completion triggers. */
  function Complete(jobs: seq<Job>, config: seq<BuildSpec>, i: nat, st: Status): seq<Job>
    requires i < |jobs|
  {
    if CanFinish(jobs[i].status) then Execute(Finish(jobs, i, st), config).0 else jobs
  }

  /** A runner picks up a pending job. */
  function Start(jobs: seq<Job>, i: nat): seq<Job>
    requires i < |jobs|
  {
    if jobs[i].status == Pending then jobs[i := jobs[i].(status := Running)] else jobs
  }

  /** Every pending row set to `success` directly, without triggering a pass. */
  function SucceedAllPending(jobs: seq<Job>): (r: seq<Job>)
    ensures SameRows(jobs, r)
    ensures forall i :: 0 <= i < |jobs| ==>
              r[i].status == (if jobs[i].status == Pending then Success else jobs[i].status)
  {
    seq(|jobs|, i requires 0 <= i < |jobs| =>
          if jobs[i].status == Pending then jobs[i].(status := Success) else jobs[i])
  }

  /** Only a failed or canceled job can be retried. */
  predicate Retryable(j: Job) {
    j.status == Failed || j.status == Canceled
  }

  /**
   * Retrying row `i`: skipped rows of later stages become `created` again, and a new
   * row with the same name, stage, `when` and `allow_failure` is appended, `pending`.
   */
  function Retried(jobs: seq<Job>, i: nat): seq<Job>
    requires i < |jobs|
  {
    if !Retryable(jobs[i]) then jobs
    else
      var k := jobs[i].stageIdx;
      seq(|jobs|, j requires 0 <= j < |jobs| =>
            if jobs[j].stageIdx > k && jobs[j].status == Skipped then jobs[j].(status := Created)
            else jobs[j])
      + [jobs[i].(status := Pending)]
  }

  /** A manual action: the latest row of a manual job once its stage was reached. */
  predicate IsManualAction(jobs: seq<Job>, i: int)
    requires 0 <= i < |jobs|
  {
    IsLatest(jobs, i) && jobs[i].when == Manual && jobs[i].status != Created
  }

  /** The pipeline's manual actions, in row order. */
  function ManualActions(jobs: seq<Job>): (r: seq<Job>)
    ensures forall x :: x in r <==> exists i :: 0 <= i < |jobs| && IsManualAction(jobs, i) && jobs[i] == x
  {
    ManualActionsFrom(jobs, 0)
  }

  /** The manual actions among the rows from index `i` on. */
  function ManualActionsFrom(jobs: seq<Job>, i: nat): (r: seq<Job>)
    requires i <= |jobs|
    ensures forall x :: x in r <==> exists j :: i <= j < |jobs| && IsManualAction(jobs, j) && jobs[j] == x
    decreases |jobs| - i
  {
    if i == |jobs| then []
    else (if IsManualAction(jobs, i) then [jobs[i]] else []) + ManualActionsFrom(jobs, i + 1)
  }

  /** The rows the test file calls `builds`: those neither `created` nor `skipped`. */
  function Visible(jobs: seq<Job>): (r: seq<Job>)
    ensures forall x :: x in r <==> x in jobs && x.status != Created && x.status != Skipped
  {
    if jobs == [] then []
    else if jobs[0].status != Created && jobs[0].status != Skipped then [jobs[0]] + Visible(jobs[1..])
    else Visible(jobs[1..])
  }

  /** `pluck(:name)`, compared as `contain_exactly` does: the names, with repetitions. */
  function Names(jobs: seq<Job>): multiset<string> {
    if jobs == [] then multiset{} else multiset{jobs[0].name} + Names(jobs[1..])
  }

  /** `pluck(:status)`, with repetitions. */
  function Statuses(jobs: seq<Job>): multiset<Status> {
    if jobs == [] then multiset{} else multiset{jobs[0].status} + Statuses(jobs[1..])
  }

  /** A status scope's `count`, such as `success.count`. */
  function CountStatus(jobs: seq<Job>, st: Status): nat {
    if jobs == [] then 0 else (if jobs[0].status == st then 1 else 0) + CountStatus(jobs[1..], st)
  }
}
