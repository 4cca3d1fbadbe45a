/**
 * A second, recursive definition of the pipeline predicates, written the way the
 * status is counted: walk the rows, keep the ones that count, and classify the
 * kept rows. Each is proved equal to the quantified definition in `CiStatus` and
 * `CiProcess`; on a pipeline written out row by row the verifier evaluates them.
 */
module CiEval {
  import opened Basics
  import opened CiStatus
  import opened CiProcess
  import opened CiProcessProofs

  /** Some row of `s` has this name. */
  predicate NameIn(s: seq<Job>, name: string) {
    s != [] && (s[0].name == name || NameIn(s[1..], name))
  }

  lemma {:induction false} NameInIff(s: seq<Job>, name: string)
    ensures NameIn(s, name) <==> exists j :: 0 <= j < |s| && s[j].name == name
  {
    if s != [] {
      NameInIff(s[1..], name);
      if NameIn(s[1..], name) {
        var j :| 0 <= j < |s[1..]| && s[1..][j].name == name;
        assert s[j + 1].name == name;
      }
      if s[0].name != name && exists j :: 0 <= j < |s| && s[j].name == name {
        var j :| 0 <= j < |s| && s[j].name == name;
        assert s[1..][j - 1].name == name;
      }
    }
  }

  /** Some row from index `i` on has this name. */
  predicate NameAfter(jobs: seq<Job>, name: string, i: nat)
    decreases |jobs| - i
  {
    i < |jobs| && (jobs[i].name == name || NameAfter(jobs, name, i + 1))
  }

  lemma {:induction false} NameAfterIff(jobs: seq<Job>, name: string, i: nat)
    ensures NameAfter(jobs, name, i) <==> exists j :: i <= j < |jobs| && jobs[j].name == name
    decreases |jobs| - i
  {
    if i < |jobs| {
      NameAfterIff(jobs, name, i + 1);
    }
  }

  /**
   * What the aggregate needs to know about a set of rows, gathered in one walk:
   * whether any row counts, whether all counted rows fall in each of the four
   * classes of `CiStatus.Aggregate`, and whether one is pending or running.
   */
  datatype Tally = Tally(any: bool, allSkipped: bool, allSuccess: bool, allPending: bool,
                         allCanceled: bool, anyActive: bool)

  const NoRows := Tally(false, true, true, true, true, false)

  /** The tally with row `j` counted as well. */
  function Count(t: Tally, j: Job): Tally {
    var s := j.status;
    var ignored := IgnoredFailure(j);
    Tally(true, t.allSkipped && s == Skipped,
          t.allSuccess && (s == Success || s == Skipped || ignored),
          t.allPending && (s == Pending || s == Skipped),
          t.allCanceled && (s == Canceled || s == Success || s == Skipped || ignored),
          t.anyActive || Active(s))
  }

  /** Row `i` counts in scope `sc`: no later row has its name, it is not `created`, and it is in scope. */
  predicate CountsAt(jobs: seq<Job>, sc: Scope, i: nat)
    requires i < |jobs|
  {
    jobs[i].status != Created && (sc.Below? ==> jobs[i].stageIdx < sc.stage) &&
    !NameAfter(jobs, jobs[i].name, i + 1)
  }

  /** The tally of the rows from index `i` on that count in scope `sc`. */
  function TallyFrom(jobs: seq<Job>, sc: Scope, i: nat): Tally
    decreases |jobs| - i
  {
    if i >= |jobs| then NoRows
    else if CountsAt(jobs, sc, i) then Count(TallyFrom(jobs, sc, i + 1), jobs[i])
    else TallyFrom(jobs, sc, i + 1)
  }

  lemma CountsAtIff(jobs: seq<Job>, sc: Scope, i: nat)
    requires i < |jobs|
    ensures CountsAt(jobs, sc, i) <==> InScope(jobs, sc, i)
  {
    NameAfterIff(jobs, jobs[i].name, i + 1);
  }

  /** Each field of the tally says what its name says about the counted rows from `i` on. */
  lemma {:induction false} TallyFacts(jobs: seq<Job>, sc: Scope, i: nat)
    ensures var t := TallyFrom(jobs, sc, i);
      && (t.any <==> exists j :: i <= j < |jobs| && InScope(jobs, sc, j))
      && (t.allSkipped <==> forall j :: i <= j < |jobs| && InScope(jobs, sc, j) ==> jobs[j].status == Skipped)
      && (t.allSuccess <==> forall j :: i <= j < |jobs| && InScope(jobs, sc, j) ==>
                              jobs[j].status == Success || jobs[j].status == Skipped || IgnoredFailure(jobs[j]))
      && (t.allPending <==> forall j :: i <= j < |jobs| && InScope(jobs, sc, j) ==>
                              jobs[j].status == Pending || jobs[j].status == Skipped)
      && (t.allCanceled <==> forall j :: i <= j < |jobs| && InScope(jobs, sc, j) ==>
                               jobs[j].status == Canceled || jobs[j].status == Success ||
                               jobs[j].status == Skipped || IgnoredFailure(jobs[j]))
      && (t.anyActive <==> exists j :: i <= j < |jobs| && InScope(jobs, sc, j) && Active(jobs[j].status))
    decreases |jobs| - i
  {
    if i < |jobs| {
      TallyFacts(jobs, sc, i + 1);
      CountsAtIff(jobs, sc, i);
    }
  }

  /** The aggregate read off a tally, case by case as in `CiStatus.Aggregate`. */
  function AggregateOf(t: Tally): Option<Status> {
    if !t.any then None
    else if t.allSkipped then Some(Skipped)
    else if t.allSuccess then Some(Success)
    else if t.allPending then Some(Pending)
    else if t.allCanceled then Some(Canceled)
    else if t.anyActive then Some(Running)
    else Some(Failed)
  }

  lemma TallyAllIn(jobs: seq<Job>, sc: Scope)
    ensures var t := TallyFrom(jobs, sc, 0);
      && (t.any <==> AnyInScope(jobs, sc))
      && (t.anyActive <==> AnyActive(jobs, sc))
      && (t.allSkipped <==> AllIn(jobs, sc, {Skipped}, false))
      && (t.allPending <==> AllIn(jobs, sc, {Pending, Skipped}, false))
  {
    TallyFacts(jobs, sc, 0);
  }

  lemma TallyAllInIgnoring(jobs: seq<Job>, sc: Scope)
    ensures var t := TallyFrom(jobs, sc, 0);
      && (t.allSuccess <==> AllIn(jobs, sc, {Success, Skipped}, true))
      && (t.allCanceled <==> AllIn(jobs, sc, {Canceled, Success, Skipped}, true))
  {
    TallyFacts(jobs, sc, 0);
  }

  /** The quantified aggregate equals the aggregate of the tally. */
  lemma AggregateByTally(jobs: seq<Job>, sc: Scope)
    ensures Aggregate(jobs, sc) == AggregateOf(TallyFrom(jobs, sc, 0))
  {
    TallyAllIn(jobs, sc);
    TallyAllInIgnoring(jobs, sc);
  }

  function PriorOf(jobs: seq<Job>, k: int): Status {
    AggregateOf(TallyFrom(jobs, Below(k), 0)).GetOr(Success)
  }

  lemma PriorByTally(jobs: seq<Job>, k: int)
    ensures PriorStatus(jobs, k) == PriorOf(jobs, k)
  {
    AggregateByTally(jobs, Below(k));
  }

  lemma PipelineStatusByTally(jobs: seq<Job>)
    ensures PipelineStatus(jobs) == AggregateOf(TallyFrom(jobs, Whole, 0)).GetOr(Created)
  {
    AggregateByTally(jobs, Whole);
  }

  /** `Decided`, row by row from index `i`. */
  predicate DecidedFrom(m: seq<Job>, r: seq<Job>, i: nat)
    requires |m| == |r|
    decreases |m| - i
  {
    i >= |m| ||
    (&& m[i].name == r[i].name && m[i].stageIdx == r[i].stageIdx
     && m[i].when == r[i].when && m[i].allowFailure == r[i].allowFailure
     && (if m[i].status != Created then r[i] == m[i] else Settles(m[i], r[i], PriorOf(r, m[i].stageIdx)))
     && DecidedFrom(m, r, i + 1))
  }

  lemma {:induction false} DecidedFromRows(m: seq<Job>, r: seq<Job>, i: nat)
    requires |m| == |r| && DecidedFrom(m, r, i)
    ensures forall j :: i <= j < |m| ==>
              && m[j].name == r[j].name && m[j].stageIdx == r[j].stageIdx
              && m[j].when == r[j].when && m[j].allowFailure == r[j].allowFailure
              && (if m[j].status != Created then r[j] == m[j] else Settles(m[j], r[j], PriorOf(r, m[j].stageIdx)))
    decreases |m| - i
  {
    if i < |m| {
      DecidedFromRows(m, r, i + 1);
    }
  }

  lemma DecidedByRows(m: seq<Job>, r: seq<Job>)
    requires |m| == |r| && DecidedFrom(m, r, 0)
    ensures Decided(m, r)
  {
    DecidedFromRows(m, r, 0);
    forall i | 0 <= i < |m| && m[i].status == Created
      ensures Settles(m[i], r[i], PriorStatus(r, m[i].stageIdx))
    {
      PriorByTally(r, m[i].stageIdx);
    }
  }

  predicate CreatedIn(s: seq<Job>) {
    s != [] && (s[0].status == Created || CreatedIn(s[1..]))
  }

  lemma {:induction false} CreatedInIff(s: seq<Job>)
    ensures CreatedIn(s) <==> HasCreated(s)
  {
    if s != [] {
      CreatedInIff(s[1..]);
      if HasCreated(s[1..]) {
        var j :| 0 <= j < |s[1..]| && s[1..][j].status == Created;
        assert s[j + 1].status == Created;
      }
      if s[0].status != Created && HasCreated(s) {
        var j :| 0 <= j < |s| && s[j].status == Created;
        assert s[1..][j - 1].status == Created;
      }
    }
  }

  function MissingFrom(config: seq<BuildSpec>, jobs: seq<Job>): seq<Job> {
    if config == [] then []
    else if NameIn(jobs, config[0].name) then MissingFrom(config[1..], jobs)
    else [RowOf(config[0])] + MissingFrom(config[1..], jobs)
  }

  lemma {:induction false} MissingFromEq(config: seq<BuildSpec>, jobs: seq<Job>)
    ensures MissingFrom(config, jobs) == MissingRows(config, jobs)
  {
    if config != [] {
      MissingFromEq(config[1..], jobs);
      NameInIff(jobs, config[0].name);
    }
  }

  /** `Materialise`, evaluated. */
  function MaterialiseOf(jobs: seq<Job>, config: seq<BuildSpec>): seq<Job> {
    if CreatedIn(jobs) then jobs else jobs + MissingFrom(config, jobs)
  }

  lemma MaterialiseByList(jobs: seq<Job>, config: seq<BuildSpec>)
    ensures Materialise(jobs, config) == MaterialiseOf(jobs, config)
  {
    CreatedInIff(jobs);
    MissingFromEq(config, jobs);
  }

  predicate EnqueuedFrom(m: seq<Job>, r: seq<Job>, i: nat)
    requires |m| == |r|
    decreases |m| - i
  {
    i < |m| && ((m[i].status == Created && r[i].status == Pending) || EnqueuedFrom(m, r, i + 1))
  }

  lemma {:induction false} EnqueuedFromIff(m: seq<Job>, r: seq<Job>, i: nat)
    requires |m| == |r|
    ensures EnqueuedFrom(m, r, i) <==> exists j :: i <= j < |m| && m[j].status == Created && r[j].status == Pending
    decreases |m| - i
  {
    if i < |m| {
      EnqueuedFromIff(m, r, i + 1);
    }
  }

  /**
   * The outcome of a pass, checked row by row: if `m` is the rows once the declared
   * jobs are added, and the rows `r` are what the decision rule allows from `m`, they
   * are the pass's result.
   */
  lemma PassIs(jobs: seq<Job>, config: seq<BuildSpec>, m: seq<Job>, r: seq<Job>)
    requires MaterialiseOf(jobs, config) == m
    requires |m| == |r| && DecidedFrom(m, r, 0)
    ensures Execute(jobs, config) == (r, EnqueuedFrom(m, r, 0))
  {
    MaterialiseByList(jobs, config);
    DecidedByRows(m, r);
    ExecuteIsTheDecision(jobs, config, r);
    EnqueuedFromIff(m, r, 0);
  }

  /**
   * A job event checked the same way: if the finished row gives `mid`, `m` is `mid`
   * with the declared rows added, and `r` is what the decision rule allows from `m`,
   * then `r` is the rows after the event.
   */
  lemma CompleteIs(jobs: seq<Job>, config: seq<BuildSpec>, i: nat, st: Status,
                   mid: seq<Job>, m: seq<Job>, r: seq<Job>)
    requires i < |jobs| && CanFinish(jobs[i].status)
    requires |mid| == |jobs| && mid[i] == jobs[i].(status := st)
    requires forall j :: 0 <= j < |jobs| && j != i ==> mid[j] == jobs[j]
    requires MaterialiseOf(mid, config) == m
    requires |m| == |r| && DecidedFrom(m, r, 0)
    ensures Complete(jobs, config, i, st) == r
  {
    assert Finish(jobs, i, st) == mid;
    PassIs(mid, config, m, r);
  }

  /** Row `i` is a manual action: a manual job, no longer `created`, with no later row of its name. */
  predicate ManualAt(jobs: seq<Job>, i: nat)
    requires i < |jobs|
  {
    jobs[i].when == Manual && jobs[i].status != Created && !NameAfter(jobs, jobs[i].name, i + 1)
  }

  function ManualFrom(jobs: seq<Job>, i: nat): seq<Job>
    decreases |jobs| - i
  {
    if i >= |jobs| then []
    else (if ManualAt(jobs, i) then [jobs[i]] else []) + ManualFrom(jobs, i + 1)
  }

  lemma {:induction false} ManualFromEq(jobs: seq<Job>, i: nat)
    requires i <= |jobs|
    ensures ManualFrom(jobs, i) == ManualActionsFrom(jobs, i)
    decreases |jobs| - i
  {
    if i < |jobs| {
      ManualFromEq(jobs, i + 1);
      NameAfterIff(jobs, jobs[i].name, i + 1);
    }
  }

  lemma ManualActionsByList(jobs: seq<Job>)
    ensures ManualActions(jobs) == ManualFrom(jobs, 0)
  {
    ManualFromEq(jobs, 0);
  }

  /** The rows of a retry, checked one by one from index `j`: `r[j]` is `jobs[j]`, reopened when skipped after stage `k`. */
  predicate ReopenedFrom(jobs: seq<Job>, r: seq<Job>, k: int, j: nat)
    decreases |jobs| - j
  {
    j >= |jobs| ||
    (&& j < |r|
     && r[j] == (if jobs[j].stageIdx > k && jobs[j].status == Skipped then jobs[j].(status := Created) else jobs[j])
     && ReopenedFrom(jobs, r, k, j + 1))
  }

  lemma {:induction false} ReopenedRows(jobs: seq<Job>, r: seq<Job>, k: int, j: nat)
    requires |jobs| <= |r| && ReopenedFrom(jobs, r, k, j)
    ensures forall x :: j <= x < |jobs| ==>
              r[x] == (if jobs[x].stageIdx > k && jobs[x].status == Skipped then jobs[x].(status := Created) else jobs[x])
    decreases |jobs| - j
  {
    if j < |jobs| {
      ReopenedRows(jobs, r, k, j + 1);
    }
  }

  /** A retry checked row by row. */
  lemma RetriedIs(jobs: seq<Job>, i: nat, r: seq<Job>)
    requires i < |jobs| && Retryable(jobs[i])
    requires |r| == |jobs| + 1 && r[|jobs|] == jobs[i].(status := Pending)
    requires ReopenedFrom(jobs, r, jobs[i].stageIdx, 0)
    ensures Retried(jobs, i) == r
  {
    ReopenedRows(jobs, r, jobs[i].stageIdx, 0);
  }


  /** A row is among the builds. */
  predicate Shown(j: Job) {
    j.status != Created && j.status != Skipped
  }

  /** `Names(Visible(jobs[i..]))`, walked by index. */
  function ShownNamesFrom(jobs: seq<Job>, i: nat): multiset<string>
    decreases |jobs| - i
  {
    if i >= |jobs| then multiset{}
    else (if Shown(jobs[i]) then multiset{jobs[i].name} else multiset{}) + ShownNamesFrom(jobs, i + 1)
  }

  /** `Statuses(Visible(jobs[i..]))`, walked by index. */
  function ShownStatusesFrom(jobs: seq<Job>, i: nat): multiset<Status>
    decreases |jobs| - i
  {
    if i >= |jobs| then multiset{}
    else (if Shown(jobs[i]) then multiset{jobs[i].status} else multiset{}) + ShownStatusesFrom(jobs, i + 1)
  }

  /** `CountStatus(Visible(jobs[i..]), st)`, walked by index. */
  function ShownCountFrom(jobs: seq<Job>, st: Status, i: nat): nat
    decreases |jobs| - i
  {
    if i >= |jobs| then 0
    else (if Shown(jobs[i]) && jobs[i].status == st then 1 else 0) + ShownCountFrom(jobs, st, i + 1)
  }

  lemma {:induction false} VisibleStep(jobs: seq<Job>, i: nat)
    requires i < |jobs|
    ensures Visible(jobs[i..]) == (if Shown(jobs[i]) then [jobs[i]] else []) + Visible(jobs[i + 1..])
  {
    assert jobs[i..][0] == jobs[i];
    assert jobs[i..][1..] == jobs[i + 1..];
  }

  lemma {:induction false} ShownNamesEq(jobs: seq<Job>, i: nat)
    requires i <= |jobs|
    ensures Names(Visible(jobs[i..])) == ShownNamesFrom(jobs, i)
    decreases |jobs| - i
  {
    if i < |jobs| {
      ShownNamesEq(jobs, i + 1);
      VisibleStep(jobs, i);
      var rest := Visible(jobs[i + 1..]);
      if Shown(jobs[i]) {
        assert ([jobs[i]] + rest)[1..] == rest;
      }
    }
  }

  lemma {:induction false} ShownStatusesEq(jobs: seq<Job>, i: nat)
    requires i <= |jobs|
    ensures Statuses(Visible(jobs[i..])) == ShownStatusesFrom(jobs, i)
    decreases |jobs| - i
  {
    if i < |jobs| {
      ShownStatusesEq(jobs, i + 1);
      VisibleStep(jobs, i);
      var rest := Visible(jobs[i + 1..]);
      if Shown(jobs[i]) {
        assert ([jobs[i]] + rest)[1..] == rest;
      }
    }
  }

  lemma {:induction false} ShownCountEq(jobs: seq<Job>, st: Status, i: nat)
    requires i <= |jobs|
    ensures CountStatus(Visible(jobs[i..]), st) == ShownCountFrom(jobs, st, i)
    decreases |jobs| - i
  {
    if i < |jobs| {
      ShownCountEq(jobs, st, i + 1);
      VisibleStep(jobs, i);
      var rest := Visible(jobs[i + 1..]);
      if Shown(jobs[i]) {
        assert ([jobs[i]] + rest)[1..] == rest;
      }
    }
  }

  lemma NamesByList(jobs: seq<Job>)
    ensures Names(Visible(jobs)) == ShownNamesFrom(jobs, 0)
  {
    ShownNamesEq(jobs, 0);
    assert jobs[0..] == jobs;
  }

  lemma StatusesByList(jobs: seq<Job>)
    ensures Statuses(Visible(jobs)) == ShownStatusesFrom(jobs, 0)
  {
    ShownStatusesEq(jobs, 0);
    assert jobs[0..] == jobs;
  }

  lemma CountByList(jobs: seq<Job>, st: Status)
    ensures CountStatus(Visible(jobs), st) == ShownCountFrom(jobs, st, 0)
  {
    ShownCountEq(jobs, st, 0);
    assert jobs[0..] == jobs;
  }
}
