/**
 * The pipelines of the scheduler's test file replayed on the model, one event at a
 * time: each lemma states the rows after one processing pass, one job event or a
 * retry, or what the test observes at that point (the builds counted by status or
 * plucked by name, the pipeline's status, its manual actions). The lemmas
 * named `...Rows<i>` are proof steps: each checks, from row `i` on, that the rows
 * after the event are what the decision rule allows, so that no single proof has to
 * work out more than one stage's prior status.
 */
module CiScenarios {
  import opened Basics
  import opened CiStatus
  import opened CiProcess
  import opened CiEval

  lemma QueuingStartsRows0()
    ensures DecidedFrom([Job("linux", 0, OnSuccess, false, Created),
                         Job("mac", 0, OnSuccess, false, Created),
                         Job("rspec", 1, OnSuccess, false, Created),
                         Job("rubocop", 1, OnSuccess, false, Created),
                         Job("deploy", 2, OnSuccess, false, Created)],
                        [Job("linux", 0, OnSuccess, false, Pending),
                         Job("mac", 0, OnSuccess, false, Pending),
                         Job("rspec", 1, OnSuccess, false, Created),
                         Job("rubocop", 1, OnSuccess, false, Created),
                         Job("deploy", 2, OnSuccess, false, Created)], 0)
  {
    QueuingStartsRows1();
  }

  lemma QueuingStartsRows1()
    ensures DecidedFrom([Job("linux", 0, OnSuccess, false, Created),
                         Job("mac", 0, OnSuccess, false, Created),
                         Job("rspec", 1, OnSuccess, false, Created),
                         Job("rubocop", 1, OnSuccess, false, Created),
                         Job("deploy", 2, OnSuccess, false, Created)],
                        [Job("linux", 0, OnSuccess, false, Pending),
                         Job("mac", 0, OnSuccess, false, Pending),
                         Job("rspec", 1, OnSuccess, false, Created),
                         Job("rubocop", 1, OnSuccess, false, Created),
                         Job("deploy", 2, OnSuccess, false, Created)], 1)
  {
    QueuingStartsRows2();
  }

  lemma QueuingStartsRows2()
    ensures DecidedFrom([Job("linux", 0, OnSuccess, false, Created),
                         Job("mac", 0, OnSuccess, false, Created),
                         Job("rspec", 1, OnSuccess, false, Created),
                         Job("rubocop", 1, OnSuccess, false, Created),
                         Job("deploy", 2, OnSuccess, false, Created)],
                        [Job("linux", 0, OnSuccess, false, Pending),
                         Job("mac", 0, OnSuccess, false, Pending),
                         Job("rspec", 1, OnSuccess, false, Created),
                         Job("rubocop", 1, OnSuccess, false, Created),
                         Job("deploy", 2, OnSuccess, false, Created)], 2)
  {
    QueuingStartsRows3();
  }

  lemma QueuingStartsRows3()
    ensures DecidedFrom([Job("linux", 0, OnSuccess, false, Created),
                         Job("mac", 0, OnSuccess, false, Created),
                         Job("rspec", 1, OnSuccess, false, Created),
                         Job("rubocop", 1, OnSuccess, false, Created),
                         Job("deploy", 2, OnSuccess, false, Created)],
                        [Job("linux", 0, OnSuccess, false, Pending),
                         Job("mac", 0, OnSuccess, false, Pending),
                         Job("rspec", 1, OnSuccess, false, Created),
                         Job("rubocop", 1, OnSuccess, false, Created),
                         Job("deploy", 2, OnSuccess, false, Created)], 3)
  {
    QueuingStartsRows4();
  }

  lemma QueuingStartsRows4()
    ensures DecidedFrom([Job("linux", 0, OnSuccess, false, Created),
                         Job("mac", 0, OnSuccess, false, Created),
                         Job("rspec", 1, OnSuccess, false, Created),
                         Job("rubocop", 1, OnSuccess, false, Created),
                         Job("deploy", 2, OnSuccess, false, Created)],
                        [Job("linux", 0, OnSuccess, false, Pending),
                         Job("mac", 0, OnSuccess, false, Pending),
                         Job("rspec", 1, OnSuccess, false, Created),
                         Job("rubocop", 1, OnSuccess, false, Created),
                         Job("deploy", 2, OnSuccess, false, Created)], 4)
  {
  }

  /** A fresh pipeline enqueues exactly its first stage. */
  lemma QueuingStarts(jobs: seq<Job>)
    requires jobs == [Job("linux", 0, OnSuccess, false, Created),
                 Job("mac", 0, OnSuccess, false, Created),
                 Job("rspec", 1, OnSuccess, false, Created),
                 Job("rubocop", 1, OnSuccess, false, Created),
                 Job("deploy", 2, OnSuccess, false, Created)]
    ensures Execute(jobs, [])
         == ([Job("linux", 0, OnSuccess, false, Pending),
              Job("mac", 0, OnSuccess, false, Pending),
              Job("rspec", 1, OnSuccess, false, Created),
              Job("rubocop", 1, OnSuccess, false, Created),
              Job("deploy", 2, OnSuccess, false, Created)], true)
  {
    QueuingStartsRows0();
    assert MaterialiseOf([Job("linux", 0, OnSuccess, false, Created),
                          Job("mac", 0, OnSuccess, false, Created),
                          Job("rspec", 1, OnSuccess, false, Created),
                          Job("rubocop", 1, OnSuccess, false, Created),
                          Job("deploy", 2, OnSuccess, false, Created)], [])
        == [Job("linux", 0, OnSuccess, false, Created),
            Job("mac", 0, OnSuccess, false, Created),
            Job("rspec", 1, OnSuccess, false, Created),
            Job("rubocop", 1, OnSuccess, false, Created),
            Job("deploy", 2, OnSuccess, false, Created)];
    PassIs(jobs, [], [Job("linux", 0, OnSuccess, false, Created),
                  Job("mac", 0, OnSuccess, false, Created),
                  Job("rspec", 1, OnSuccess, false, Created),
                  Job("rubocop", 1, OnSuccess, false, Created),
                  Job("deploy", 2, OnSuccess, false, Created)],
           [Job("linux", 0, OnSuccess, false, Pending),
             Job("mac", 0, OnSuccess, false, Pending),
             Job("rspec", 1, OnSuccess, false, Created),
             Job("rubocop", 1, OnSuccess, false, Created),
             Job("deploy", 2, OnSuccess, false, Created)]);
  }

  lemma QueuingWaitsForRunningStageRows0()
    ensures DecidedFrom([Job("linux", 0, OnSuccess, false, Pending),
                         Job("mac", 0, OnSuccess, false, Pending),
                         Job("rspec", 1, OnSuccess, false, Created),
                         Job("rubocop", 1, OnSuccess, false, Created),
                         Job("deploy", 2, OnSuccess, false, Created)],
                        [Job("linux", 0, OnSuccess, false, Pending),
                         Job("mac", 0, OnSuccess, false, Pending),
                         Job("rspec", 1, OnSuccess, false, Created),
                         Job("rubocop", 1, OnSuccess, false, Created),
                         Job("deploy", 2, OnSuccess, false, Created)], 0)
  {
    QueuingWaitsForRunningStageRows3();
  }

  lemma QueuingWaitsForRunningStageRows3()
    ensures DecidedFrom([Job("linux", 0, OnSuccess, false, Pending),
                         Job("mac", 0, OnSuccess, false, Pending),
                         Job("rspec", 1, OnSuccess, false, Created),
                         Job("rubocop", 1, OnSuccess, false, Created),
                         Job("deploy", 2, OnSuccess, false, Created)],
                        [Job("linux", 0, OnSuccess, false, Pending),
                         Job("mac", 0, OnSuccess, false, Pending),
                         Job("rspec", 1, OnSuccess, false, Created),
                         Job("rubocop", 1, OnSuccess, false, Created),
                         Job("deploy", 2, OnSuccess, false, Created)], 3)
  {
    QueuingWaitsForRunningStageRows4();
  }

  lemma QueuingWaitsForRunningStageRows4()
    ensures DecidedFrom([Job("linux", 0, OnSuccess, false, Pending),
                         Job("mac", 0, OnSuccess, false, Pending),
                         Job("rspec", 1, OnSuccess, false, Created),
                         Job("rubocop", 1, OnSuccess, false, Created),
                         Job("deploy", 2, OnSuccess, false, Created)],
                        [Job("linux", 0, OnSuccess, false, Pending),
                         Job("mac", 0, OnSuccess, false, Pending),
                         Job("rspec", 1, OnSuccess, false, Created),
                         Job("rubocop", 1, OnSuccess, false, Created),
                         Job("deploy", 2, OnSuccess, false, Created)], 4)
  {
  }

  /** While the first stage is pending, a pass changes nothing and enqueues nothing. */
  lemma QueuingWaitsForRunningStage(jobs: seq<Job>)
    requires jobs == [Job("linux", 0, OnSuccess, false, Pending),
                 Job("mac", 0, OnSuccess, false, Pending),
                 Job("rspec", 1, OnSuccess, false, Created),
                 Job("rubocop", 1, OnSuccess, false, Created),
                 Job("deploy", 2, OnSuccess, false, Created)]
    ensures Execute(jobs, [])
         == ([Job("linux", 0, OnSuccess, false, Pending),
              Job("mac", 0, OnSuccess, false, Pending),
              Job("rspec", 1, OnSuccess, false, Created),
              Job("rubocop", 1, OnSuccess, false, Created),
              Job("deploy", 2, OnSuccess, false, Created)], false)
  {
    QueuingWaitsForRunningStageRows0();
    assert MaterialiseOf([Job("linux", 0, OnSuccess, false, Pending),
                          Job("mac", 0, OnSuccess, false, Pending),
                          Job("rspec", 1, OnSuccess, false, Created),
                          Job("rubocop", 1, OnSuccess, false, Created),
                          Job("deploy", 2, OnSuccess, false, Created)], [])
        == [Job("linux", 0, OnSuccess, false, Pending),
            Job("mac", 0, OnSuccess, false, Pending),
            Job("rspec", 1, OnSuccess, false, Created),
            Job("rubocop", 1, OnSuccess, false, Created),
            Job("deploy", 2, OnSuccess, false, Created)];
    PassIs(jobs, [], [Job("linux", 0, OnSuccess, false, Pending),
                  Job("mac", 0, OnSuccess, false, Pending),
                  Job("rspec", 1, OnSuccess, false, Created),
                  Job("rubocop", 1, OnSuccess, false, Created),
                  Job("deploy", 2, OnSuccess, false, Created)],
           [Job("linux", 0, OnSuccess, false, Pending),
             Job("mac", 0, OnSuccess, false, Pending),
             Job("rspec", 1, OnSuccess, false, Created),
             Job("rubocop", 1, OnSuccess, false, Created),
             Job("deploy", 2, OnSuccess, false, Created)]);
  }

  lemma QueuingSecondStageRows0()
    ensures DecidedFrom([Job("linux", 0, OnSuccess, false, Success),
                         Job("mac", 0, OnSuccess, false, Success),
                         Job("rspec", 1, OnSuccess, false, Created),
                         Job("rubocop", 1, OnSuccess, false, Created),
                         Job("deploy", 2, OnSuccess, false, Created)],
                        [Job("linux", 0, OnSuccess, false, Success),
                         Job("mac", 0, OnSuccess, false, Success),
                         Job("rspec", 1, OnSuccess, false, Pending),
                         Job("rubocop", 1, OnSuccess, false, Pending),
                         Job("deploy", 2, OnSuccess, false, Created)], 0)
  {
    QueuingSecondStageRows3();
  }

  lemma QueuingSecondStageRows3()
    ensures DecidedFrom([Job("linux", 0, OnSuccess, false, Success),
                         Job("mac", 0, OnSuccess, false, Success),
                         Job("rspec", 1, OnSuccess, false, Created),
                         Job("rubocop", 1, OnSuccess, false, Created),
                         Job("deploy", 2, OnSuccess, false, Created)],
                        [Job("linux", 0, OnSuccess, false, Success),
                         Job("mac", 0, OnSuccess, false, Success),
                         Job("rspec", 1, OnSuccess, false, Pending),
                         Job("rubocop", 1, OnSuccess, false, Pending),
                         Job("deploy", 2, OnSuccess, false, Created)], 3)
  {
    QueuingSecondStageRows4();
  }

  lemma QueuingSecondStageRows4()
    ensures DecidedFrom([Job("linux", 0, OnSuccess, false, Success),
                         Job("mac", 0, OnSuccess, false, Success),
                         Job("rspec", 1, OnSuccess, false, Created),
                         Job("rubocop", 1, OnSuccess, false, Created),
                         Job("deploy", 2, OnSuccess, false, Created)],
                        [Job("linux", 0, OnSuccess, false, Success),
                         Job("mac", 0, OnSuccess, false, Success),
                         Job("rspec", 1, OnSuccess, false, Pending),
                         Job("rubocop", 1, OnSuccess, false, Pending),
                         Job("deploy", 2, OnSuccess, false, Created)], 4)
  {
  }

  /** Once the first stage succeeded, the second is enqueued. */
  lemma QueuingSecondStage(jobs: seq<Job>)
    requires jobs == [Job("linux", 0, OnSuccess, false, Success),
                 Job("mac", 0, OnSuccess, false, Success),
                 Job("rspec", 1, OnSuccess, false, Created),
                 Job("rubocop", 1, OnSuccess, false, Created),
                 Job("deploy", 2, OnSuccess, false, Created)]
    ensures Execute(jobs, [])
         == ([Job("linux", 0, OnSuccess, false, Success),
              Job("mac", 0, OnSuccess, false, Success),
              Job("rspec", 1, OnSuccess, false, Pending),
              Job("rubocop", 1, OnSuccess, false, Pending),
              Job("deploy", 2, OnSuccess, false, Created)], true)
  {
    QueuingSecondStageRows0();
    assert MaterialiseOf([Job("linux", 0, OnSuccess, false, Success),
                          Job("mac", 0, OnSuccess, false, Success),
                          Job("rspec", 1, OnSuccess, false, Created),
                          Job("rubocop", 1, OnSuccess, false, Created),
                          Job("deploy", 2, OnSuccess, false, Created)], [])
        == [Job("linux", 0, OnSuccess, false, Success),
            Job("mac", 0, OnSuccess, false, Success),
            Job("rspec", 1, OnSuccess, false, Created),
            Job("rubocop", 1, OnSuccess, false, Created),
            Job("deploy", 2, OnSuccess, false, Created)];
    PassIs(jobs, [], [Job("linux", 0, OnSuccess, false, Success),
                  Job("mac", 0, OnSuccess, false, Success),
                  Job("rspec", 1, OnSuccess, false, Created),
                  Job("rubocop", 1, OnSuccess, false, Created),
                  Job("deploy", 2, OnSuccess, false, Created)],
           [Job("linux", 0, OnSuccess, false, Success),
             Job("mac", 0, OnSuccess, false, Success),
             Job("rspec", 1, OnSuccess, false, Pending),
             Job("rubocop", 1, OnSuccess, false, Pending),
             Job("deploy", 2, OnSuccess, false, Created)]);
  }

  lemma QueuingLastStageRows0()
    ensures DecidedFrom([Job("linux", 0, OnSuccess, false, Success),
                         Job("mac", 0, OnSuccess, false, Success),
                         Job("rspec", 1, OnSuccess, false, Success),
                         Job("rubocop", 1, OnSuccess, false, Success),
                         Job("deploy", 2, OnSuccess, false, Created)],
                        [Job("linux", 0, OnSuccess, false, Success),
                         Job("mac", 0, OnSuccess, false, Success),
                         Job("rspec", 1, OnSuccess, false, Success),
                         Job("rubocop", 1, OnSuccess, false, Success),
                         Job("deploy", 2, OnSuccess, false, Pending)], 0)
  {
  }

  /** Once the second stage succeeded, the last is enqueued. */
  lemma QueuingLastStage(jobs: seq<Job>)
    requires jobs == [Job("linux", 0, OnSuccess, false, Success),
                 Job("mac", 0, OnSuccess, false, Success),
                 Job("rspec", 1, OnSuccess, false, Success),
                 Job("rubocop", 1, OnSuccess, false, Success),
                 Job("deploy", 2, OnSuccess, false, Created)]
    ensures Execute(jobs, [])
         == ([Job("linux", 0, OnSuccess, false, Success),
              Job("mac", 0, OnSuccess, false, Success),
              Job("rspec", 1, OnSuccess, false, Success),
              Job("rubocop", 1, OnSuccess, false, Success),
              Job("deploy", 2, OnSuccess, false, Pending)], true)
  {
    QueuingLastStageRows0();
    assert MaterialiseOf([Job("linux", 0, OnSuccess, false, Success),
                          Job("mac", 0, OnSuccess, false, Success),
                          Job("rspec", 1, OnSuccess, false, Success),
                          Job("rubocop", 1, OnSuccess, false, Success),
                          Job("deploy", 2, OnSuccess, false, Created)], [])
        == [Job("linux", 0, OnSuccess, false, Success),
            Job("mac", 0, OnSuccess, false, Success),
            Job("rspec", 1, OnSuccess, false, Success),
            Job("rubocop", 1, OnSuccess, false, Success),
            Job("deploy", 2, OnSuccess, false, Created)];
    PassIs(jobs, [], [Job("linux", 0, OnSuccess, false, Success),
                  Job("mac", 0, OnSuccess, false, Success),
                  Job("rspec", 1, OnSuccess, false, Success),
                  Job("rubocop", 1, OnSuccess, false, Success),
                  Job("deploy", 2, OnSuccess, false, Created)],
           [Job("linux", 0, OnSuccess, false, Success),
             Job("mac", 0, OnSuccess, false, Success),
             Job("rspec", 1, OnSuccess, false, Success),
             Job("rubocop", 1, OnSuccess, false, Success),
             Job("deploy", 2, OnSuccess, false, Pending)]);
  }

  lemma QueuingDoneRows0()
    ensures DecidedFrom([Job("linux", 0, OnSuccess, false, Success),
                         Job("mac", 0, OnSuccess, false, Success),
                         Job("rspec", 1, OnSuccess, false, Success),
                         Job("rubocop", 1, OnSuccess, false, Success),
                         Job("deploy", 2, OnSuccess, false, Success)],
                        [Job("linux", 0, OnSuccess, false, Success),
                         Job("mac", 0, OnSuccess, false, Success),
                         Job("rspec", 1, OnSuccess, false, Success),
                         Job("rubocop", 1, OnSuccess, false, Success),
                         Job("deploy", 2, OnSuccess, false, Success)], 0)
  {
  }

  /** With every job succeeded, a pass enqueues nothing. */
  lemma QueuingDone(jobs: seq<Job>)
    requires jobs == [Job("linux", 0, OnSuccess, false, Success),
                 Job("mac", 0, OnSuccess, false, Success),
                 Job("rspec", 1, OnSuccess, false, Success),
                 Job("rubocop", 1, OnSuccess, false, Success),
                 Job("deploy", 2, OnSuccess, false, Success)]
    ensures Execute(jobs, [])
         == ([Job("linux", 0, OnSuccess, false, Success),
              Job("mac", 0, OnSuccess, false, Success),
              Job("rspec", 1, OnSuccess, false, Success),
              Job("rubocop", 1, OnSuccess, false, Success),
              Job("deploy", 2, OnSuccess, false, Success)], false)
  {
    QueuingDoneRows0();
    assert MaterialiseOf([Job("linux", 0, OnSuccess, false, Success),
                          Job("mac", 0, OnSuccess, false, Success),
                          Job("rspec", 1, OnSuccess, false, Success),
                          Job("rubocop", 1, OnSuccess, false, Success),
                          Job("deploy", 2, OnSuccess, false, Success)], [])
        == [Job("linux", 0, OnSuccess, false, Success),
            Job("mac", 0, OnSuccess, false, Success),
            Job("rspec", 1, OnSuccess, false, Success),
            Job("rubocop", 1, OnSuccess, false, Success),
            Job("deploy", 2, OnSuccess, false, Success)];
    PassIs(jobs, [], [Job("linux", 0, OnSuccess, false, Success),
                  Job("mac", 0, OnSuccess, false, Success),
                  Job("rspec", 1, OnSuccess, false, Success),
                  Job("rubocop", 1, OnSuccess, false, Success),
                  Job("deploy", 2, OnSuccess, false, Success)],
           [Job("linux", 0, OnSuccess, false, Success),
             Job("mac", 0, OnSuccess, false, Success),
             Job("rspec", 1, OnSuccess, false, Success),
             Job("rubocop", 1, OnSuccess, false, Success),
             Job("deploy", 2, OnSuccess, false, Success)]);
  }

  lemma AllowedFailureStartRows0()
    ensures DecidedFrom([Job("clean_job", 0, OnSuccess, true, Created), Job("test_job", 1, OnSuccess, true, Created)],
                        [Job("clean_job", 0, OnSuccess, true, Pending), Job("test_job", 1, OnSuccess, true, Created)], 0)
  {
    AllowedFailureStartRows1();
  }

  lemma AllowedFailureStartRows1()
    ensures DecidedFrom([Job("clean_job", 0, OnSuccess, true, Created), Job("test_job", 1, OnSuccess, true, Created)],
                        [Job("clean_job", 0, OnSuccess, true, Pending), Job("test_job", 1, OnSuccess, true, Created)], 1)
  {
  }

  /** Of two jobs that may fail, the first stage is enqueued. */
  lemma AllowedFailureStart(jobs: seq<Job>)
    requires jobs == [Job("clean_job", 0, OnSuccess, true, Created), Job("test_job", 1, OnSuccess, true, Created)]
    ensures Execute(jobs, [])
         == ([Job("clean_job", 0, OnSuccess, true, Pending), Job("test_job", 1, OnSuccess, true, Created)], true)
  {
    AllowedFailureStartRows0();
    assert MaterialiseOf([Job("clean_job", 0, OnSuccess, true, Created), Job("test_job", 1, OnSuccess, true, Created)], [])
        == [Job("clean_job", 0, OnSuccess, true, Created), Job("test_job", 1, OnSuccess, true, Created)];
    PassIs(jobs, [], [Job("clean_job", 0, OnSuccess, true, Created), Job("test_job", 1, OnSuccess, true, Created)],
           [Job("clean_job", 0, OnSuccess, true, Pending), Job("test_job", 1, OnSuccess, true, Created)]);
  }

  lemma AllowedFailureDroppedRows0()
    ensures DecidedFrom([Job("clean_job", 0, OnSuccess, true, Failed), Job("test_job", 1, OnSuccess, true, Created)],
                        [Job("clean_job", 0, OnSuccess, true, Failed), Job("test_job", 1, OnSuccess, true, Pending)], 0)
  {
  }

  /** Dropping a job that may fail still enqueues the next stage. */
  lemma AllowedFailureDropped(jobs: seq<Job>)
    requires jobs == [Job("clean_job", 0, OnSuccess, true, Pending), Job("test_job", 1, OnSuccess, true, Created)]
    ensures Complete(jobs, [], 0, Failed)
         == [Job("clean_job", 0, OnSuccess, true, Failed), Job("test_job", 1, OnSuccess, true, Pending)]
  {
    AllowedFailureDroppedRows0();
    assert MaterialiseOf([Job("clean_job", 0, OnSuccess, true, Failed), Job("test_job", 1, OnSuccess, true, Created)], [])
        == [Job("clean_job", 0, OnSuccess, true, Failed), Job("test_job", 1, OnSuccess, true, Created)];
    CompleteIs(jobs, [], 0, Failed,
               [Job("clean_job", 0, OnSuccess, true, Failed), Job("test_job", 1, OnSuccess, true, Created)],
               [Job("clean_job", 0, OnSuccess, true, Failed), Job("test_job", 1, OnSuccess, true, Created)],
               [Job("clean_job", 0, OnSuccess, true, Failed), Job("test_job", 1, OnSuccess, true, Pending)]);
  }

  lemma FirstStageManualRows0()
    ensures DecidedFrom([Job("build", 0, Manual, false, Created),
                         Job("check", 1, OnSuccess, false, Created),
                         Job("test", 2, OnSuccess, false, Created)],
                        [Job("build", 0, Manual, false, Skipped),
                         Job("check", 1, OnSuccess, false, Pending),
                         Job("test", 2, OnSuccess, false, Created)], 0)
  {
    FirstStageManualRows1();
  }

  lemma FirstStageManualRows1()
    ensures DecidedFrom([Job("build", 0, Manual, false, Created),
                         Job("check", 1, OnSuccess, false, Created),
                         Job("test", 2, OnSuccess, false, Created)],
                        [Job("build", 0, Manual, false, Skipped),
                         Job("check", 1, OnSuccess, false, Pending),
                         Job("test", 2, OnSuccess, false, Created)], 1)
  {
    FirstStageManualRows2();
  }

  lemma FirstStageManualRows2()
    ensures DecidedFrom([Job("build", 0, Manual, false, Created),
                         Job("check", 1, OnSuccess, false, Created),
                         Job("test", 2, OnSuccess, false, Created)],
                        [Job("build", 0, Manual, false, Skipped),
                         Job("check", 1, OnSuccess, false, Pending),
                         Job("test", 2, OnSuccess, false, Created)], 2)
  {
  }

  /** Only a manual job in the first stage: it is skipped and the second stage is enqueued. */
  lemma FirstStageManual(jobs: seq<Job>)
    requires jobs == [Job("build", 0, Manual, false, Created),
                 Job("check", 1, OnSuccess, false, Created),
                 Job("test", 2, OnSuccess, false, Created)]
    ensures Execute(jobs, [])
         == ([Job("build", 0, Manual, false, Skipped),
              Job("check", 1, OnSuccess, false, Pending),
              Job("test", 2, OnSuccess, false, Created)], true)
  {
    FirstStageManualRows0();
    assert MaterialiseOf([Job("build", 0, Manual, false, Created),
                          Job("check", 1, OnSuccess, false, Created),
                          Job("test", 2, OnSuccess, false, Created)], [])
        == [Job("build", 0, Manual, false, Created),
            Job("check", 1, OnSuccess, false, Created),
            Job("test", 2, OnSuccess, false, Created)];
    PassIs(jobs, [], [Job("build", 0, Manual, false, Created),
                  Job("check", 1, OnSuccess, false, Created),
                  Job("test", 2, OnSuccess, false, Created)],
           [Job("build", 0, Manual, false, Skipped),
             Job("check", 1, OnSuccess, false, Pending),
             Job("test", 2, OnSuccess, false, Created)]);
  }

  lemma SecondStageManualWaitsRows0()
    ensures DecidedFrom([Job("check", 0, OnSuccess, false, Created),
                         Job("build", 1, Manual, false, Created),
                         Job("test", 2, OnSuccess, false, Created)],
                        [Job("check", 0, OnSuccess, false, Pending),
                         Job("build", 1, Manual, false, Created),
                         Job("test", 2, OnSuccess, false, Created)], 0)
  {
    SecondStageManualWaitsRows1();
  }

  lemma SecondStageManualWaitsRows1()
    ensures DecidedFrom([Job("check", 0, OnSuccess, false, Created),
                         Job("build", 1, Manual, false, Created),
                         Job("test", 2, OnSuccess, false, Created)],
                        [Job("check", 0, OnSuccess, false, Pending),
                         Job("build", 1, Manual, false, Created),
                         Job("test", 2, OnSuccess, false, Created)], 1)
  {
    SecondStageManualWaitsRows2();
  }

  lemma SecondStageManualWaitsRows2()
    ensures DecidedFrom([Job("check", 0, OnSuccess, false, Created),
                         Job("build", 1, Manual, false, Created),
                         Job("test", 2, OnSuccess, false, Created)],
                        [Job("check", 0, OnSuccess, false, Pending),
                         Job("build", 1, Manual, false, Created),
                         Job("test", 2, OnSuccess, false, Created)], 2)
  {
  }

  /** A second stage holding only a `Manual` job waits for the first stage. */
  lemma SecondStageManualWaits(jobs: seq<Job>)
    requires jobs == [Job("check", 0, OnSuccess, false, Created),
                 Job("build", 1, Manual, false, Created),
                 Job("test", 2, OnSuccess, false, Created)]
    ensures Execute(jobs, [])
         == ([Job("check", 0, OnSuccess, false, Pending),
              Job("build", 1, Manual, false, Created),
              Job("test", 2, OnSuccess, false, Created)], true)
  {
    SecondStageManualWaitsRows0();
    assert MaterialiseOf([Job("check", 0, OnSuccess, false, Created),
                          Job("build", 1, Manual, false, Created),
                          Job("test", 2, OnSuccess, false, Created)], [])
        == [Job("check", 0, OnSuccess, false, Created),
            Job("build", 1, Manual, false, Created),
            Job("test", 2, OnSuccess, false, Created)];
    PassIs(jobs, [], [Job("check", 0, OnSuccess, false, Created),
                  Job("build", 1, Manual, false, Created),
                  Job("test", 2, OnSuccess, false, Created)],
           [Job("check", 0, OnSuccess, false, Pending),
             Job("build", 1, Manual, false, Created),
             Job("test", 2, OnSuccess, false, Created)]);
  }

  lemma SecondStageManualSkippedRows0()
    ensures DecidedFrom([Job("check", 0, OnSuccess, false, Success),
                         Job("build", 1, Manual, false, Created),
                         Job("test", 2, OnSuccess, false, Created)],
                        [Job("check", 0, OnSuccess, false, Success),
                         Job("build", 1, Manual, false, Skipped),
                         Job("test", 2, OnSuccess, false, Pending)], 0)
  {
    SecondStageManualSkippedRows2();
  }

  lemma SecondStageManualSkippedRows2()
    ensures DecidedFrom([Job("check", 0, OnSuccess, false, Success),
                         Job("build", 1, Manual, false, Created),
                         Job("test", 2, OnSuccess, false, Created)],
                        [Job("check", 0, OnSuccess, false, Success),
                         Job("build", 1, Manual, false, Skipped),
                         Job("test", 2, OnSuccess, false, Pending)], 2)
  {
  }

  /** Once the first stage succeeds, the `Manual` stage is skipped and the third stage is enqueued. */
  lemma SecondStageManualSkipped(jobs: seq<Job>)
    requires jobs == [Job("check", 0, OnSuccess, false, Pending),
                 Job("build", 1, Manual, false, Created),
                 Job("test", 2, OnSuccess, false, Created)]
    ensures Complete(jobs, [], 0, Success)
         == [Job("check", 0, OnSuccess, false, Success),
             Job("build", 1, Manual, false, Skipped),
             Job("test", 2, OnSuccess, false, Pending)]
  {
    SecondStageManualSkippedRows0();
    assert MaterialiseOf([Job("check", 0, OnSuccess, false, Success),
                          Job("build", 1, Manual, false, Created),
                          Job("test", 2, OnSuccess, false, Created)], [])
        == [Job("check", 0, OnSuccess, false, Success),
            Job("build", 1, Manual, false, Created),
            Job("test", 2, OnSuccess, false, Created)];
    CompleteIs(jobs, [], 0, Success,
               [Job("check", 0, OnSuccess, false, Success),
                 Job("build", 1, Manual, false, Created),
                 Job("test", 2, OnSuccess, false, Created)],
               [Job("check", 0, OnSuccess, false, Success),
                 Job("build", 1, Manual, false, Created),
                 Job("test", 2, OnSuccess, false, Created)],
               [Job("check", 0, OnSuccess, false, Success),
                 Job("build", 1, Manual, false, Skipped),
                 Job("test", 2, OnSuccess, false, Pending)]);
  }

  lemma SecondStageOnFailureWaitsRows0()
    ensures DecidedFrom([Job("check", 0, OnSuccess, false, Created),
                         Job("build", 1, OnFailure, false, Created),
                         Job("test", 2, OnSuccess, false, Created)],
                        [Job("check", 0, OnSuccess, false, Pending),
                         Job("build", 1, OnFailure, false, Created),
                         Job("test", 2, OnSuccess, false, Created)], 0)
  {
    SecondStageOnFailureWaitsRows1();
  }

  lemma SecondStageOnFailureWaitsRows1()
    ensures DecidedFrom([Job("check", 0, OnSuccess, false, Created),
                         Job("build", 1, OnFailure, false, Created),
                         Job("test", 2, OnSuccess, false, Created)],
                        [Job("check", 0, OnSuccess, false, Pending),
                         Job("build", 1, OnFailure, false, Created),
                         Job("test", 2, OnSuccess, false, Created)], 1)
  {
    SecondStageOnFailureWaitsRows2();
  }

  lemma SecondStageOnFailureWaitsRows2()
    ensures DecidedFrom([Job("check", 0, OnSuccess, false, Created),
                         Job("build", 1, OnFailure, false, Created),
                         Job("test", 2, OnSuccess, false, Created)],
                        [Job("check", 0, OnSuccess, false, Pending),
                         Job("build", 1, OnFailure, false, Created),
                         Job("test", 2, OnSuccess, false, Created)], 2)
  {
  }

  /** A second stage holding only a `OnFailure` job waits for the first stage. */
  lemma SecondStageOnFailureWaits(jobs: seq<Job>)
    requires jobs == [Job("check", 0, OnSuccess, false, Created),
                 Job("build", 1, OnFailure, false, Created),
                 Job("test", 2, OnSuccess, false, Created)]
    ensures Execute(jobs, [])
         == ([Job("check", 0, OnSuccess, false, Pending),
              Job("build", 1, OnFailure, false, Created),
              Job("test", 2, OnSuccess, false, Created)], true)
  {
    SecondStageOnFailureWaitsRows0();
    assert MaterialiseOf([Job("check", 0, OnSuccess, false, Created),
                          Job("build", 1, OnFailure, false, Created),
                          Job("test", 2, OnSuccess, false, Created)], [])
        == [Job("check", 0, OnSuccess, false, Created),
            Job("build", 1, OnFailure, false, Created),
            Job("test", 2, OnSuccess, false, Created)];
    PassIs(jobs, [], [Job("check", 0, OnSuccess, false, Created),
                  Job("build", 1, OnFailure, false, Created),
                  Job("test", 2, OnSuccess, false, Created)],
           [Job("check", 0, OnSuccess, false, Pending),
             Job("build", 1, OnFailure, false, Created),
             Job("test", 2, OnSuccess, false, Created)]);
  }

  lemma SecondStageOnFailureSkippedRows0()
    ensures DecidedFrom([Job("check", 0, OnSuccess, false, Success),
                         Job("build", 1, OnFailure, false, Created),
                         Job("test", 2, OnSuccess, false, Created)],
                        [Job("check", 0, OnSuccess, false, Success),
                         Job("build", 1, OnFailure, false, Skipped),
                         Job("test", 2, OnSuccess, false, Pending)], 0)
  {
    SecondStageOnFailureSkippedRows2();
  }

  lemma SecondStageOnFailureSkippedRows2()
    ensures DecidedFrom([Job("check", 0, OnSuccess, false, Success),
                         Job("build", 1, OnFailure, false, Created),
                         Job("test", 2, OnSuccess, false, Created)],
                        [Job("check", 0, OnSuccess, false, Success),
                         Job("build", 1, OnFailure, false, Skipped),
                         Job("test", 2, OnSuccess, false, Pending)], 2)
  {
  }

  /** Once the first stage succeeds, the `OnFailure` stage is skipped and the third stage is enqueued. */
  lemma SecondStageOnFailureSkipped(jobs: seq<Job>)
    requires jobs == [Job("check", 0, OnSuccess, false, Pending),
                 Job("build", 1, OnFailure, false, Created),
                 Job("test", 2, OnSuccess, false, Created)]
    ensures Complete(jobs, [], 0, Success)
         == [Job("check", 0, OnSuccess, false, Success),
             Job("build", 1, OnFailure, false, Skipped),
             Job("test", 2, OnSuccess, false, Pending)]
  {
    SecondStageOnFailureSkippedRows0();
    assert MaterialiseOf([Job("check", 0, OnSuccess, false, Success),
                          Job("build", 1, OnFailure, false, Created),
                          Job("test", 2, OnSuccess, false, Created)], [])
        == [Job("check", 0, OnSuccess, false, Success),
            Job("build", 1, OnFailure, false, Created),
            Job("test", 2, OnSuccess, false, Created)];
    CompleteIs(jobs, [], 0, Success,
               [Job("check", 0, OnSuccess, false, Success),
                 Job("build", 1, OnFailure, false, Created),
                 Job("test", 2, OnSuccess, false, Created)],
               [Job("check", 0, OnSuccess, false, Success),
                 Job("build", 1, OnFailure, false, Created),
                 Job("test", 2, OnSuccess, false, Created)],
               [Job("check", 0, OnSuccess, false, Success),
                 Job("build", 1, OnFailure, false, Skipped),
                 Job("test", 2, OnSuccess, false, Pending)]);
  }

  lemma RetryStartRows0()
    ensures DecidedFrom([Job("build:1", 0, OnSuccess, false, Created),
                         Job("build:2", 0, OnSuccess, false, Created),
                         Job("test:1", 1, OnSuccess, false, Created),
                         Job("test:2", 1, OnSuccess, false, Created),
                         Job("deploy:1", 2, OnSuccess, false, Created),
                         Job("deploy:2", 2, OnSuccess, false, Created)],
                        [Job("build:1", 0, OnSuccess, false, Pending),
                         Job("build:2", 0, OnSuccess, false, Pending),
                         Job("test:1", 1, OnSuccess, false, Created),
                         Job("test:2", 1, OnSuccess, false, Created),
                         Job("deploy:1", 2, OnSuccess, false, Created),
                         Job("deploy:2", 2, OnSuccess, false, Created)], 0)
  {
    RetryStartRows1();
  }

  lemma RetryStartRows1()
    ensures DecidedFrom([Job("build:1", 0, OnSuccess, false, Created),
                         Job("build:2", 0, OnSuccess, false, Created),
                         Job("test:1", 1, OnSuccess, false, Created),
                         Job("test:2", 1, OnSuccess, false, Created),
                         Job("deploy:1", 2, OnSuccess, false, Created),
                         Job("deploy:2", 2, OnSuccess, false, Created)],
                        [Job("build:1", 0, OnSuccess, false, Pending),
                         Job("build:2", 0, OnSuccess, false, Pending),
                         Job("test:1", 1, OnSuccess, false, Created),
                         Job("test:2", 1, OnSuccess, false, Created),
                         Job("deploy:1", 2, OnSuccess, false, Created),
                         Job("deploy:2", 2, OnSuccess, false, Created)], 1)
  {
    RetryStartRows2();
  }

  lemma RetryStartRows2()
    ensures DecidedFrom([Job("build:1", 0, OnSuccess, false, Created),
                         Job("build:2", 0, OnSuccess, false, Created),
                         Job("test:1", 1, OnSuccess, false, Created),
                         Job("test:2", 1, OnSuccess, false, Created),
                         Job("deploy:1", 2, OnSuccess, false, Created),
                         Job("deploy:2", 2, OnSuccess, false, Created)],
                        [Job("build:1", 0, OnSuccess, false, Pending),
                         Job("build:2", 0, OnSuccess, false, Pending),
                         Job("test:1", 1, OnSuccess, false, Created),
                         Job("test:2", 1, OnSuccess, false, Created),
                         Job("deploy:1", 2, OnSuccess, false, Created),
                         Job("deploy:2", 2, OnSuccess, false, Created)], 2)
  {
    RetryStartRows3();
  }

  lemma RetryStartRows3()
    ensures DecidedFrom([Job("build:1", 0, OnSuccess, false, Created),
                         Job("build:2", 0, OnSuccess, false, Created),
                         Job("test:1", 1, OnSuccess, false, Created),
                         Job("test:2", 1, OnSuccess, false, Created),
                         Job("deploy:1", 2, OnSuccess, false, Created),
                         Job("deploy:2", 2, OnSuccess, false, Created)],
                        [Job("build:1", 0, OnSuccess, false, Pending),
                         Job("build:2", 0, OnSuccess, false, Pending),
                         Job("test:1", 1, OnSuccess, false, Created),
                         Job("test:2", 1, OnSuccess, false, Created),
                         Job("deploy:1", 2, OnSuccess, false, Created),
                         Job("deploy:2", 2, OnSuccess, false, Created)], 3)
  {
    RetryStartRows4();
  }

  lemma RetryStartRows4()
    ensures DecidedFrom([Job("build:1", 0, OnSuccess, false, Created),
                         Job("build:2", 0, OnSuccess, false, Created),
                         Job("test:1", 1, OnSuccess, false, Created),
                         Job("test:2", 1, OnSuccess, false, Created),
                         Job("deploy:1", 2, OnSuccess, false, Created),
                         Job("deploy:2", 2, OnSuccess, false, Created)],
                        [Job("build:1", 0, OnSuccess, false, Pending),
                         Job("build:2", 0, OnSuccess, false, Pending),
                         Job("test:1", 1, OnSuccess, false, Created),
                         Job("test:2", 1, OnSuccess, false, Created),
                         Job("deploy:1", 2, OnSuccess, false, Created),
                         Job("deploy:2", 2, OnSuccess, false, Created)], 4)
  {
    RetryStartRows5();
  }

  lemma RetryStartRows5()
    ensures DecidedFrom([Job("build:1", 0, OnSuccess, false, Created),
                         Job("build:2", 0, OnSuccess, false, Created),
                         Job("test:1", 1, OnSuccess, false, Created),
                         Job("test:2", 1, OnSuccess, false, Created),
                         Job("deploy:1", 2, OnSuccess, false, Created),
                         Job("deploy:2", 2, OnSuccess, false, Created)],
                        [Job("build:1", 0, OnSuccess, false, Pending),
                         Job("build:2", 0, OnSuccess, false, Pending),
                         Job("test:1", 1, OnSuccess, false, Created),
                         Job("test:2", 1, OnSuccess, false, Created),
                         Job("deploy:1", 2, OnSuccess, false, Created),
                         Job("deploy:2", 2, OnSuccess, false, Created)], 5)
  {
  }

  /** The first stage is enqueued. */
  lemma RetryStart(jobs: seq<Job>)
    requires jobs == [Job("build:1", 0, OnSuccess, false, Created),
                 Job("build:2", 0, OnSuccess, false, Created),
                 Job("test:1", 1, OnSuccess, false, Created),
                 Job("test:2", 1, OnSuccess, false, Created),
                 Job("deploy:1", 2, OnSuccess, false, Created),
                 Job("deploy:2", 2, OnSuccess, false, Created)]
    ensures Execute(jobs, [])
         == ([Job("build:1", 0, OnSuccess, false, Pending),
              Job("build:2", 0, OnSuccess, false, Pending),
              Job("test:1", 1, OnSuccess, false, Created),
              Job("test:2", 1, OnSuccess, false, Created),
              Job("deploy:1", 2, OnSuccess, false, Created),
              Job("deploy:2", 2, OnSuccess, false, Created)], true)
  {
    RetryStartRows0();
    assert MaterialiseOf([Job("build:1", 0, OnSuccess, false, Created),
                          Job("build:2", 0, OnSuccess, false, Created),
                          Job("test:1", 1, OnSuccess, false, Created),
                          Job("test:2", 1, OnSuccess, false, Created),
                          Job("deploy:1", 2, OnSuccess, false, Created),
                          Job("deploy:2", 2, OnSuccess, false, Created)], [])
        == [Job("build:1", 0, OnSuccess, false, Created),
            Job("build:2", 0, OnSuccess, false, Created),
            Job("test:1", 1, OnSuccess, false, Created),
            Job("test:2", 1, OnSuccess, false, Created),
            Job("deploy:1", 2, OnSuccess, false, Created),
            Job("deploy:2", 2, OnSuccess, false, Created)];
    PassIs(jobs, [], [Job("build:1", 0, OnSuccess, false, Created),
                  Job("build:2", 0, OnSuccess, false, Created),
                  Job("test:1", 1, OnSuccess, false, Created),
                  Job("test:2", 1, OnSuccess, false, Created),
                  Job("deploy:1", 2, OnSuccess, false, Created),
                  Job("deploy:2", 2, OnSuccess, false, Created)],
           [Job("build:1", 0, OnSuccess, false, Pending),
             Job("build:2", 0, OnSuccess, false, Pending),
             Job("test:1", 1, OnSuccess, false, Created),
             Job("test:2", 1, OnSuccess, false, Created),
             Job("deploy:1", 2, OnSuccess, false, Created),
             Job("deploy:2", 2, OnSuccess, false, Created)]);
  }

  lemma RetryFirstBuildSucceedsRows0()
    ensures DecidedFrom([Job("build:1", 0, OnSuccess, false, Success),
                         Job("build:2", 0, OnSuccess, false, Pending),
                         Job("test:1", 1, OnSuccess, false, Created),
                         Job("test:2", 1, OnSuccess, false, Created),
                         Job("deploy:1", 2, OnSuccess, false, Created),
                         Job("deploy:2", 2, OnSuccess, false, Created)],
                        [Job("build:1", 0, OnSuccess, false, Success),
                         Job("build:2", 0, OnSuccess, false, Pending),
                         Job("test:1", 1, OnSuccess, false, Created),
                         Job("test:2", 1, OnSuccess, false, Created),
                         Job("deploy:1", 2, OnSuccess, false, Created),
                         Job("deploy:2", 2, OnSuccess, false, Created)], 0)
  {
    RetryFirstBuildSucceedsRows3();
  }

  lemma RetryFirstBuildSucceedsRows3()
    ensures DecidedFrom([Job("build:1", 0, OnSuccess, false, Success),
                         Job("build:2", 0, OnSuccess, false, Pending),
                         Job("test:1", 1, OnSuccess, false, Created),
                         Job("test:2", 1, OnSuccess, false, Created),
                         Job("deploy:1", 2, OnSuccess, false, Created),
                         Job("deploy:2", 2, OnSuccess, false, Created)],
                        [Job("build:1", 0, OnSuccess, false, Success),
                         Job("build:2", 0, OnSuccess, false, Pending),
                         Job("test:1", 1, OnSuccess, false, Created),
                         Job("test:2", 1, OnSuccess, false, Created),
                         Job("deploy:1", 2, OnSuccess, false, Created),
                         Job("deploy:2", 2, OnSuccess, false, Created)], 3)
  {
    RetryFirstBuildSucceedsRows4();
  }

  lemma RetryFirstBuildSucceedsRows4()
    ensures DecidedFrom([Job("build:1", 0, OnSuccess, false, Success),
                         Job("build:2", 0, OnSuccess, false, Pending),
                         Job("test:1", 1, OnSuccess, false, Created),
                         Job("test:2", 1, OnSuccess, false, Created),
                         Job("deploy:1", 2, OnSuccess, false, Created),
                         Job("deploy:2", 2, OnSuccess, false, Created)],
                        [Job("build:1", 0, OnSuccess, false, Success),
                         Job("build:2", 0, OnSuccess, false, Pending),
                         Job("test:1", 1, OnSuccess, false, Created),
                         Job("test:2", 1, OnSuccess, false, Created),
                         Job("deploy:1", 2, OnSuccess, false, Created),
                         Job("deploy:2", 2, OnSuccess, false, Created)], 4)
  {
    RetryFirstBuildSucceedsRows5();
  }

  lemma RetryFirstBuildSucceedsRows5()
    ensures DecidedFrom([Job("build:1", 0, OnSuccess, false, Success),
                         Job("build:2", 0, OnSuccess, false, Pending),
                         Job("test:1", 1, OnSuccess, false, Created),
                         Job("test:2", 1, OnSuccess, false, Created),
                         Job("deploy:1", 2, OnSuccess, false, Created),
                         Job("deploy:2", 2, OnSuccess, false, Created)],
                        [Job("build:1", 0, OnSuccess, false, Success),
                         Job("build:2", 0, OnSuccess, false, Pending),
                         Job("test:1", 1, OnSuccess, false, Created),
                         Job("test:2", 1, OnSuccess, false, Created),
                         Job("deploy:1", 2, OnSuccess, false, Created),
                         Job("deploy:2", 2, OnSuccess, false, Created)], 5)
  {
  }

  /** One build of the first stage succeeding enqueues nothing while the other is pending. */
  lemma RetryFirstBuildSucceeds(jobs: seq<Job>)
    requires jobs == [Job("build:1", 0, OnSuccess, false, Pending),
                 Job("build:2", 0, OnSuccess, false, Pending),
                 Job("test:1", 1, OnSuccess, false, Created),
                 Job("test:2", 1, OnSuccess, false, Created),
                 Job("deploy:1", 2, OnSuccess, false, Created),
                 Job("deploy:2", 2, OnSuccess, false, Created)]
    ensures Complete(jobs, [], 0, Success)
         == [Job("build:1", 0, OnSuccess, false, Success),
             Job("build:2", 0, OnSuccess, false, Pending),
             Job("test:1", 1, OnSuccess, false, Created),
             Job("test:2", 1, OnSuccess, false, Created),
             Job("deploy:1", 2, OnSuccess, false, Created),
             Job("deploy:2", 2, OnSuccess, false, Created)]
  {
    RetryFirstBuildSucceedsRows0();
    assert MaterialiseOf([Job("build:1", 0, OnSuccess, false, Success),
                          Job("build:2", 0, OnSuccess, false, Pending),
                          Job("test:1", 1, OnSuccess, false, Created),
                          Job("test:2", 1, OnSuccess, false, Created),
                          Job("deploy:1", 2, OnSuccess, false, Created),
                          Job("deploy:2", 2, OnSuccess, false, Created)], [])
        == [Job("build:1", 0, OnSuccess, false, Success),
            Job("build:2", 0, OnSuccess, false, Pending),
            Job("test:1", 1, OnSuccess, false, Created),
            Job("test:2", 1, OnSuccess, false, Created),
            Job("deploy:1", 2, OnSuccess, false, Created),
            Job("deploy:2", 2, OnSuccess, false, Created)];
    CompleteIs(jobs, [], 0, Success,
               [Job("build:1", 0, OnSuccess, false, Success),
                 Job("build:2", 0, OnSuccess, false, Pending),
                 Job("test:1", 1, OnSuccess, false, Created),
                 Job("test:2", 1, OnSuccess, false, Created),
                 Job("deploy:1", 2, OnSuccess, false, Created),
                 Job("deploy:2", 2, OnSuccess, false, Created)],
               [Job("build:1", 0, OnSuccess, false, Success),
                 Job("build:2", 0, OnSuccess, false, Pending),
                 Job("test:1", 1, OnSuccess, false, Created),
                 Job("test:2", 1, OnSuccess, false, Created),
                 Job("deploy:1", 2, OnSuccess, false, Created),
                 Job("deploy:2", 2, OnSuccess, false, Created)],
               [Job("build:1", 0, OnSuccess, false, Success),
                 Job("build:2", 0, OnSuccess, false, Pending),
                 Job("test:1", 1, OnSuccess, false, Created),
                 Job("test:2", 1, OnSuccess, false, Created),
                 Job("deploy:1", 2, OnSuccess, false, Created),
                 Job("deploy:2", 2, OnSuccess, false, Created)]);
  }

  lemma RetrySecondBuildSucceedsRows0()
    ensures DecidedFrom([Job("build:1", 0, OnSuccess, false, Success),
                         Job("build:2", 0, OnSuccess, false, Success),
                         Job("test:1", 1, OnSuccess, false, Created),
                         Job("test:2", 1, OnSuccess, false, Created),
                         Job("deploy:1", 2, OnSuccess, false, Created),
                         Job("deploy:2", 2, OnSuccess, false, Created)],
                        [Job("build:1", 0, OnSuccess, false, Success),
                         Job("build:2", 0, OnSuccess, false, Success),
                         Job("test:1", 1, OnSuccess, false, Pending),
                         Job("test:2", 1, OnSuccess, false, Pending),
                         Job("deploy:1", 2, OnSuccess, false, Created),
                         Job("deploy:2", 2, OnSuccess, false, Created)], 0)
  {
    RetrySecondBuildSucceedsRows3();
  }

  lemma RetrySecondBuildSucceedsRows3()
    ensures DecidedFrom([Job("build:1", 0, OnSuccess, false, Success),
                         Job("build:2", 0, OnSuccess, false, Success),
                         Job("test:1", 1, OnSuccess, false, Created),
                         Job("test:2", 1, OnSuccess, false, Created),
                         Job("deploy:1", 2, OnSuccess, false, Created),
                         Job("deploy:2", 2, OnSuccess, false, Created)],
                        [Job("build:1", 0, OnSuccess, false, Success),
                         Job("build:2", 0, OnSuccess, false, Success),
                         Job("test:1", 1, OnSuccess, false, Pending),
                         Job("test:2", 1, OnSuccess, false, Pending),
                         Job("deploy:1", 2, OnSuccess, false, Created),
                         Job("deploy:2", 2, OnSuccess, false, Created)], 3)
  {
    RetrySecondBuildSucceedsRows4();
  }

  lemma RetrySecondBuildSucceedsRows4()
    ensures DecidedFrom([Job("build:1", 0, OnSuccess, false, Success),
                         Job("build:2", 0, OnSuccess, false, Success),
                         Job("test:1", 1, OnSuccess, false, Created),
                         Job("test:2", 1, OnSuccess, false, Created),
                         Job("deploy:1", 2, OnSuccess, false, Created),
                         Job("deploy:2", 2, OnSuccess, false, Created)],
                        [Job("build:1", 0, OnSuccess, false, Success),
                         Job("build:2", 0, OnSuccess, false, Success),
                         Job("test:1", 1, OnSuccess, false, Pending),
                         Job("test:2", 1, OnSuccess, false, Pending),
                         Job("deploy:1", 2, OnSuccess, false, Created),
                         Job("deploy:2", 2, OnSuccess, false, Created)], 4)
  {
    RetrySecondBuildSucceedsRows5();
  }

  lemma RetrySecondBuildSucceedsRows5()
    ensures DecidedFrom([Job("build:1", 0, OnSuccess, false, Success),
                         Job("build:2", 0, OnSuccess, false, Success),
                         Job("test:1", 1, OnSuccess, false, Created),
                         Job("test:2", 1, OnSuccess, false, Created),
                         Job("deploy:1", 2, OnSuccess, false, Created),
                         Job("deploy:2", 2, OnSuccess, false, Created)],
                        [Job("build:1", 0, OnSuccess, false, Success),
                         Job("build:2", 0, OnSuccess, false, Success),
                         Job("test:1", 1, OnSuccess, false, Pending),
                         Job("test:2", 1, OnSuccess, false, Pending),
                         Job("deploy:1", 2, OnSuccess, false, Created),
                         Job("deploy:2", 2, OnSuccess, false, Created)], 5)
  {
  }

  /** With both builds succeeded, both tests are enqueued. */
  lemma RetrySecondBuildSucceeds(jobs: seq<Job>)
    requires jobs == [Job("build:1", 0, OnSuccess, false, Success),
                 Job("build:2", 0, OnSuccess, false, Pending),
                 Job("test:1", 1, OnSuccess, false, Created),
                 Job("test:2", 1, OnSuccess, false, Created),
                 Job("deploy:1", 2, OnSuccess, false, Created),
                 Job("deploy:2", 2, OnSuccess, false, Created)]
    ensures Complete(jobs, [], 1, Success)
         == [Job("build:1", 0, OnSuccess, false, Success),
             Job("build:2", 0, OnSuccess, false, Success),
             Job("test:1", 1, OnSuccess, false, Pending),
             Job("test:2", 1, OnSuccess, false, Pending),
             Job("deploy:1", 2, OnSuccess, false, Created),
             Job("deploy:2", 2, OnSuccess, false, Created)]
  {
    RetrySecondBuildSucceedsRows0();
    assert MaterialiseOf([Job("build:1", 0, OnSuccess, false, Success),
                          Job("build:2", 0, OnSuccess, false, Success),
                          Job("test:1", 1, OnSuccess, false, Created),
                          Job("test:2", 1, OnSuccess, false, Created),
                          Job("deploy:1", 2, OnSuccess, false, Created),
                          Job("deploy:2", 2, OnSuccess, false, Created)], [])
        == [Job("build:1", 0, OnSuccess, false, Success),
            Job("build:2", 0, OnSuccess, false, Success),
            Job("test:1", 1, OnSuccess, false, Created),
            Job("test:2", 1, OnSuccess, false, Created),
            Job("deploy:1", 2, OnSuccess, false, Created),
            Job("deploy:2", 2, OnSuccess, false, Created)];
    CompleteIs(jobs, [], 1, Success,
               [Job("build:1", 0, OnSuccess, false, Success),
                 Job("build:2", 0, OnSuccess, false, Success),
                 Job("test:1", 1, OnSuccess, false, Created),
                 Job("test:2", 1, OnSuccess, false, Created),
                 Job("deploy:1", 2, OnSuccess, false, Created),
                 Job("deploy:2", 2, OnSuccess, false, Created)],
               [Job("build:1", 0, OnSuccess, false, Success),
                 Job("build:2", 0, OnSuccess, false, Success),
                 Job("test:1", 1, OnSuccess, false, Created),
                 Job("test:2", 1, OnSuccess, false, Created),
                 Job("deploy:1", 2, OnSuccess, false, Created),
                 Job("deploy:2", 2, OnSuccess, false, Created)],
               [Job("build:1", 0, OnSuccess, false, Success),
                 Job("build:2", 0, OnSuccess, false, Success),
                 Job("test:1", 1, OnSuccess, false, Pending),
                 Job("test:2", 1, OnSuccess, false, Pending),
                 Job("deploy:1", 2, OnSuccess, false, Created),
                 Job("deploy:2", 2, OnSuccess, false, Created)]);
  }

  lemma RetryFirstTestSucceedsRows0()
    ensures DecidedFrom([Job("build:1", 0, OnSuccess, false, Success),
                         Job("build:2", 0, OnSuccess, false, Success),
                         Job("test:1", 1, OnSuccess, false, Success),
                         Job("test:2", 1, OnSuccess, false, Pending),
                         Job("deploy:1", 2, OnSuccess, false, Created),
                         Job("deploy:2", 2, OnSuccess, false, Created)],
                        [Job("build:1", 0, OnSuccess, false, Success),
                         Job("build:2", 0, OnSuccess, false, Success),
                         Job("test:1", 1, OnSuccess, false, Success),
                         Job("test:2", 1, OnSuccess, false, Pending),
                         Job("deploy:1", 2, OnSuccess, false, Created),
                         Job("deploy:2", 2, OnSuccess, false, Created)], 0)
  {
    RetryFirstTestSucceedsRows5();
  }

  lemma RetryFirstTestSucceedsRows5()
    ensures DecidedFrom([Job("build:1", 0, OnSuccess, false, Success),
                         Job("build:2", 0, OnSuccess, false, Success),
                         Job("test:1", 1, OnSuccess, false, Success),
                         Job("test:2", 1, OnSuccess, false, Pending),
                         Job("deploy:1", 2, OnSuccess, false, Created),
                         Job("deploy:2", 2, OnSuccess, false, Created)],
                        [Job("build:1", 0, OnSuccess, false, Success),
                         Job("build:2", 0, OnSuccess, false, Success),
                         Job("test:1", 1, OnSuccess, false, Success),
                         Job("test:2", 1, OnSuccess, false, Pending),
                         Job("deploy:1", 2, OnSuccess, false, Created),
                         Job("deploy:2", 2, OnSuccess, false, Created)], 5)
  {
  }

  /** One test succeeding enqueues nothing while the other is pending. */
  lemma RetryFirstTestSucceeds(jobs: seq<Job>)
    requires jobs == [Job("build:1", 0, OnSuccess, false, Success),
                 Job("build:2", 0, OnSuccess, false, Success),
                 Job("test:1", 1, OnSuccess, false, Pending),
                 Job("test:2", 1, OnSuccess, false, Pending),
                 Job("deploy:1", 2, OnSuccess, false, Created),
                 Job("deploy:2", 2, OnSuccess, false, Created)]
    ensures Complete(jobs, [], 2, Success)
         == [Job("build:1", 0, OnSuccess, false, Success),
             Job("build:2", 0, OnSuccess, false, Success),
             Job("test:1", 1, OnSuccess, false, Success),
             Job("test:2", 1, OnSuccess, false, Pending),
             Job("deploy:1", 2, OnSuccess, false, Created),
             Job("deploy:2", 2, OnSuccess, false, Created)]
  {
    RetryFirstTestSucceedsRows0();
    assert MaterialiseOf([Job("build:1", 0, OnSuccess, false, Success),
                          Job("build:2", 0, OnSuccess, false, Success),
                          Job("test:1", 1, OnSuccess, false, Success),
                          Job("test:2", 1, OnSuccess, false, Pending),
                          Job("deploy:1", 2, OnSuccess, false, Created),
                          Job("deploy:2", 2, OnSuccess, false, Created)], [])
        == [Job("build:1", 0, OnSuccess, false, Success),
            Job("build:2", 0, OnSuccess, false, Success),
            Job("test:1", 1, OnSuccess, false, Success),
            Job("test:2", 1, OnSuccess, false, Pending),
            Job("deploy:1", 2, OnSuccess, false, Created),
            Job("deploy:2", 2, OnSuccess, false, Created)];
    CompleteIs(jobs, [], 2, Success,
               [Job("build:1", 0, OnSuccess, false, Success),
                 Job("build:2", 0, OnSuccess, false, Success),
                 Job("test:1", 1, OnSuccess, false, Success),
                 Job("test:2", 1, OnSuccess, false, Pending),
                 Job("deploy:1", 2, OnSuccess, false, Created),
                 Job("deploy:2", 2, OnSuccess, false, Created)],
               [Job("build:1", 0, OnSuccess, false, Success),
                 Job("build:2", 0, OnSuccess, false, Success),
                 Job("test:1", 1, OnSuccess, false, Success),
                 Job("test:2", 1, OnSuccess, false, Pending),
                 Job("deploy:1", 2, OnSuccess, false, Created),
                 Job("deploy:2", 2, OnSuccess, false, Created)],
               [Job("build:1", 0, OnSuccess, false, Success),
                 Job("build:2", 0, OnSuccess, false, Success),
                 Job("test:1", 1, OnSuccess, false, Success),
                 Job("test:2", 1, OnSuccess, false, Pending),
                 Job("deploy:1", 2, OnSuccess, false, Created),
                 Job("deploy:2", 2, OnSuccess, false, Created)]);
  }

  lemma RetrySecondTestDroppedRows0()
    ensures DecidedFrom([Job("build:1", 0, OnSuccess, false, Success),
                         Job("build:2", 0, OnSuccess, false, Success),
                         Job("test:1", 1, OnSuccess, false, Success),
                         Job("test:2", 1, OnSuccess, false, Failed),
                         Job("deploy:1", 2, OnSuccess, false, Created),
                         Job("deploy:2", 2, OnSuccess, false, Created)],
                        [Job("build:1", 0, OnSuccess, false, Success),
                         Job("build:2", 0, OnSuccess, false, Success),
                         Job("test:1", 1, OnSuccess, false, Success),
                         Job("test:2", 1, OnSuccess, false, Failed),
                         Job("deploy:1", 2, OnSuccess, false, Skipped),
                         Job("deploy:2", 2, OnSuccess, false, Skipped)], 0)
  {
    RetrySecondTestDroppedRows5();
  }

  lemma RetrySecondTestDroppedRows5()
    ensures DecidedFrom([Job("build:1", 0, OnSuccess, false, Success),
                         Job("build:2", 0, OnSuccess, false, Success),
                         Job("test:1", 1, OnSuccess, false, Success),
                         Job("test:2", 1, OnSuccess, false, Failed),
                         Job("deploy:1", 2, OnSuccess, false, Created),
                         Job("deploy:2", 2, OnSuccess, false, Created)],
                        [Job("build:1", 0, OnSuccess, false, Success),
                         Job("build:2", 0, OnSuccess, false, Success),
                         Job("test:1", 1, OnSuccess, false, Success),
                         Job("test:2", 1, OnSuccess, false, Failed),
                         Job("deploy:1", 2, OnSuccess, false, Skipped),
                         Job("deploy:2", 2, OnSuccess, false, Skipped)], 5)
  {
  }

  /** The other test failing skips the deploy stage. */
  lemma RetrySecondTestDropped(jobs: seq<Job>)
    requires jobs == [Job("build:1", 0, OnSuccess, false, Success),
                 Job("build:2", 0, OnSuccess, false, Success),
                 Job("test:1", 1, OnSuccess, false, Success),
                 Job("test:2", 1, OnSuccess, false, Pending),
                 Job("deploy:1", 2, OnSuccess, false, Created),
                 Job("deploy:2", 2, OnSuccess, false, Created)]
    ensures Complete(jobs, [], 3, Failed)
         == [Job("build:1", 0, OnSuccess, false, Success),
             Job("build:2", 0, OnSuccess, false, Success),
             Job("test:1", 1, OnSuccess, false, Success),
             Job("test:2", 1, OnSuccess, false, Failed),
             Job("deploy:1", 2, OnSuccess, false, Skipped),
             Job("deploy:2", 2, OnSuccess, false, Skipped)]
  {
    RetrySecondTestDroppedRows0();
    assert MaterialiseOf([Job("build:1", 0, OnSuccess, false, Success),
                          Job("build:2", 0, OnSuccess, false, Success),
                          Job("test:1", 1, OnSuccess, false, Success),
                          Job("test:2", 1, OnSuccess, false, Failed),
                          Job("deploy:1", 2, OnSuccess, false, Created),
                          Job("deploy:2", 2, OnSuccess, false, Created)], [])
        == [Job("build:1", 0, OnSuccess, false, Success),
            Job("build:2", 0, OnSuccess, false, Success),
            Job("test:1", 1, OnSuccess, false, Success),
            Job("test:2", 1, OnSuccess, false, Failed),
            Job("deploy:1", 2, OnSuccess, false, Created),
            Job("deploy:2", 2, OnSuccess, false, Created)];
    CompleteIs(jobs, [], 3, Failed,
               [Job("build:1", 0, OnSuccess, false, Success),
                 Job("build:2", 0, OnSuccess, false, Success),
                 Job("test:1", 1, OnSuccess, false, Success),
                 Job("test:2", 1, OnSuccess, false, Failed),
                 Job("deploy:1", 2, OnSuccess, false, Created),
                 Job("deploy:2", 2, OnSuccess, false, Created)],
               [Job("build:1", 0, OnSuccess, false, Success),
                 Job("build:2", 0, OnSuccess, false, Success),
                 Job("test:1", 1, OnSuccess, false, Success),
                 Job("test:2", 1, OnSuccess, false, Failed),
                 Job("deploy:1", 2, OnSuccess, false, Created),
                 Job("deploy:2", 2, OnSuccess, false, Created)],
               [Job("build:1", 0, OnSuccess, false, Success),
                 Job("build:2", 0, OnSuccess, false, Success),
                 Job("test:1", 1, OnSuccess, false, Success),
                 Job("test:2", 1, OnSuccess, false, Failed),
                 Job("deploy:1", 2, OnSuccess, false, Skipped),
                 Job("deploy:2", 2, OnSuccess, false, Skipped)]);
  }

  /** Retrying the failed test appends a pending copy and makes the skipped deploy jobs `created` again. */
  lemma RetryReopensLaterStages(jobs: seq<Job>)
    requires jobs == [Job("build:1", 0, OnSuccess, false, Success),
                 Job("build:2", 0, OnSuccess, false, Success),
                 Job("test:1", 1, OnSuccess, false, Success),
                 Job("test:2", 1, OnSuccess, false, Failed),
                 Job("deploy:1", 2, OnSuccess, false, Skipped),
                 Job("deploy:2", 2, OnSuccess, false, Skipped)]
    ensures Retried(jobs, 3) == [Job("build:1", 0, OnSuccess, false, Success),
                        Job("build:2", 0, OnSuccess, false, Success),
                        Job("test:1", 1, OnSuccess, false, Success),
                        Job("test:2", 1, OnSuccess, false, Failed),
                        Job("deploy:1", 2, OnSuccess, false, Created),
                        Job("deploy:2", 2, OnSuccess, false, Created),
                        Job("test:2", 1, OnSuccess, false, Pending)]
  {
    assert ReopenedFrom([Job("build:1", 0, OnSuccess, false, Success),
                         Job("build:2", 0, OnSuccess, false, Success),
                         Job("test:1", 1, OnSuccess, false, Success),
                         Job("test:2", 1, OnSuccess, false, Failed),
                         Job("deploy:1", 2, OnSuccess, false, Skipped),
                         Job("deploy:2", 2, OnSuccess, false, Skipped)],
                        [Job("build:1", 0, OnSuccess, false, Success),
                         Job("build:2", 0, OnSuccess, false, Success),
                         Job("test:1", 1, OnSuccess, false, Success),
                         Job("test:2", 1, OnSuccess, false, Failed),
                         Job("deploy:1", 2, OnSuccess, false, Created),
                         Job("deploy:2", 2, OnSuccess, false, Created),
                         Job("test:2", 1, OnSuccess, false, Pending)], 1, 0);
    RetriedIs(jobs, 3, [Job("build:1", 0, OnSuccess, false, Success),
                  Job("build:2", 0, OnSuccess, false, Success),
                  Job("test:1", 1, OnSuccess, false, Success),
                  Job("test:2", 1, OnSuccess, false, Failed),
                  Job("deploy:1", 2, OnSuccess, false, Created),
                  Job("deploy:2", 2, OnSuccess, false, Created),
                  Job("test:2", 1, OnSuccess, false, Pending)]);
  }

  lemma RetriedTestSucceedsRows0()
    ensures DecidedFrom([Job("build:1", 0, OnSuccess, false, Success),
                         Job("build:2", 0, OnSuccess, false, Success),
                         Job("test:1", 1, OnSuccess, false, Success),
                         Job("test:2", 1, OnSuccess, false, Failed),
                         Job("deploy:1", 2, OnSuccess, false, Created),
                         Job("deploy:2", 2, OnSuccess, false, Created),
                         Job("test:2", 1, OnSuccess, false, Success)],
                        [Job("build:1", 0, OnSuccess, false, Success),
                         Job("build:2", 0, OnSuccess, false, Success),
                         Job("test:1", 1, OnSuccess, false, Success),
                         Job("test:2", 1, OnSuccess, false, Failed),
                         Job("deploy:1", 2, OnSuccess, false, Pending),
                         Job("deploy:2", 2, OnSuccess, false, Pending),
                         Job("test:2", 1, OnSuccess, false, Success)], 0)
  {
    RetriedTestSucceedsRows5();
  }

  lemma RetriedTestSucceedsRows5()
    ensures DecidedFrom([Job("build:1", 0, OnSuccess, false, Success),
                         Job("build:2", 0, OnSuccess, false, Success),
                         Job("test:1", 1, OnSuccess, false, Success),
                         Job("test:2", 1, OnSuccess, false, Failed),
                         Job("deploy:1", 2, OnSuccess, false, Created),
                         Job("deploy:2", 2, OnSuccess, false, Created),
                         Job("test:2", 1, OnSuccess, false, Success)],
                        [Job("build:1", 0, OnSuccess, false, Success),
                         Job("build:2", 0, OnSuccess, false, Success),
                         Job("test:1", 1, OnSuccess, false, Success),
                         Job("test:2", 1, OnSuccess, false, Failed),
                         Job("deploy:1", 2, OnSuccess, false, Pending),
                         Job("deploy:2", 2, OnSuccess, false, Pending),
                         Job("test:2", 1, OnSuccess, false, Success)], 5)
  {
  }

  /** The retried test succeeding enqueues the deploy stage: the newer row supersedes the failed one. */
  lemma RetriedTestSucceeds(jobs: seq<Job>)
    requires jobs == [Job("build:1", 0, OnSuccess, false, Success),
                 Job("build:2", 0, OnSuccess, false, Success),
                 Job("test:1", 1, OnSuccess, false, Success),
                 Job("test:2", 1, OnSuccess, false, Failed),
                 Job("deploy:1", 2, OnSuccess, false, Created),
                 Job("deploy:2", 2, OnSuccess, false, Created),
                 Job("test:2", 1, OnSuccess, false, Pending)]
    ensures Complete(jobs, [], 6, Success)
         == [Job("build:1", 0, OnSuccess, false, Success),
             Job("build:2", 0, OnSuccess, false, Success),
             Job("test:1", 1, OnSuccess, false, Success),
             Job("test:2", 1, OnSuccess, false, Failed),
             Job("deploy:1", 2, OnSuccess, false, Pending),
             Job("deploy:2", 2, OnSuccess, false, Pending),
             Job("test:2", 1, OnSuccess, false, Success)]
  {
    RetriedTestSucceedsRows0();
    assert MaterialiseOf([Job("build:1", 0, OnSuccess, false, Success),
                          Job("build:2", 0, OnSuccess, false, Success),
                          Job("test:1", 1, OnSuccess, false, Success),
                          Job("test:2", 1, OnSuccess, false, Failed),
                          Job("deploy:1", 2, OnSuccess, false, Created),
                          Job("deploy:2", 2, OnSuccess, false, Created),
                          Job("test:2", 1, OnSuccess, false, Success)], [])
        == [Job("build:1", 0, OnSuccess, false, Success),
            Job("build:2", 0, OnSuccess, false, Success),
            Job("test:1", 1, OnSuccess, false, Success),
            Job("test:2", 1, OnSuccess, false, Failed),
            Job("deploy:1", 2, OnSuccess, false, Created),
            Job("deploy:2", 2, OnSuccess, false, Created),
            Job("test:2", 1, OnSuccess, false, Success)];
    CompleteIs(jobs, [], 6, Success,
               [Job("build:1", 0, OnSuccess, false, Success),
                 Job("build:2", 0, OnSuccess, false, Success),
                 Job("test:1", 1, OnSuccess, false, Success),
                 Job("test:2", 1, OnSuccess, false, Failed),
                 Job("deploy:1", 2, OnSuccess, false, Created),
                 Job("deploy:2", 2, OnSuccess, false, Created),
                 Job("test:2", 1, OnSuccess, false, Success)],
               [Job("build:1", 0, OnSuccess, false, Success),
                 Job("build:2", 0, OnSuccess, false, Success),
                 Job("test:1", 1, OnSuccess, false, Success),
                 Job("test:2", 1, OnSuccess, false, Failed),
                 Job("deploy:1", 2, OnSuccess, false, Created),
                 Job("deploy:2", 2, OnSuccess, false, Created),
                 Job("test:2", 1, OnSuccess, false, Success)],
               [Job("build:1", 0, OnSuccess, false, Success),
                 Job("build:2", 0, OnSuccess, false, Success),
                 Job("test:1", 1, OnSuccess, false, Success),
                 Job("test:2", 1, OnSuccess, false, Failed),
                 Job("deploy:1", 2, OnSuccess, false, Pending),
                 Job("deploy:2", 2, OnSuccess, false, Pending),
                 Job("test:2", 1, OnSuccess, false, Success)]);
  }

  lemma UndeclaredRowsWaitRows0()
    ensures DecidedFrom([Job("linux", 0, OnSuccess, false, Created), Job("mac", 0, OnSuccess, false, Created)],
                        [Job("linux", 0, OnSuccess, false, Pending), Job("mac", 0, OnSuccess, false, Pending)], 0)
  {
    UndeclaredRowsWaitRows1();
  }

  lemma UndeclaredRowsWaitRows1()
    ensures DecidedFrom([Job("linux", 0, OnSuccess, false, Created), Job("mac", 0, OnSuccess, false, Created)],
                        [Job("linux", 0, OnSuccess, false, Pending), Job("mac", 0, OnSuccess, false, Pending)], 1)
  {
  }

  /** While the stored jobs are `created`, no declared row is added. */
  lemma UndeclaredRowsWait(jobs: seq<Job>)
    requires jobs == [Job("linux", 0, OnSuccess, false, Created), Job("mac", 0, OnSuccess, false, Created)]
    ensures Execute(jobs, [BuildSpec("rspec", 1, OnSuccess, false), BuildSpec("deploy", 2, OnSuccess, false)])
         == ([Job("linux", 0, OnSuccess, false, Pending), Job("mac", 0, OnSuccess, false, Pending)], true)
  {
    UndeclaredRowsWaitRows0();
    assert MaterialiseOf([Job("linux", 0, OnSuccess, false, Created), Job("mac", 0, OnSuccess, false, Created)], [BuildSpec("rspec", 1, OnSuccess, false), BuildSpec("deploy", 2, OnSuccess, false)])
        == [Job("linux", 0, OnSuccess, false, Created), Job("mac", 0, OnSuccess, false, Created)];
    PassIs(jobs, [BuildSpec("rspec", 1, OnSuccess, false), BuildSpec("deploy", 2, OnSuccess, false)], [Job("linux", 0, OnSuccess, false, Created), Job("mac", 0, OnSuccess, false, Created)],
           [Job("linux", 0, OnSuccess, false, Pending), Job("mac", 0, OnSuccess, false, Pending)]);
  }

  lemma DeclaredRowsAddedRows0()
    ensures DecidedFrom([Job("linux", 0, OnSuccess, false, Success),
                         Job("mac", 0, OnSuccess, false, Success),
                         Job("rspec", 1, OnSuccess, false, Created),
                         Job("deploy", 2, OnSuccess, false, Created)],
                        [Job("linux", 0, OnSuccess, false, Success),
                         Job("mac", 0, OnSuccess, false, Success),
                         Job("rspec", 1, OnSuccess, false, Pending),
                         Job("deploy", 2, OnSuccess, false, Created)], 0)
  {
    DeclaredRowsAddedRows3();
  }

  lemma DeclaredRowsAddedRows3()
    ensures DecidedFrom([Job("linux", 0, OnSuccess, false, Success),
                         Job("mac", 0, OnSuccess, false, Success),
                         Job("rspec", 1, OnSuccess, false, Created),
                         Job("deploy", 2, OnSuccess, false, Created)],
                        [Job("linux", 0, OnSuccess, false, Success),
                         Job("mac", 0, OnSuccess, false, Success),
                         Job("rspec", 1, OnSuccess, false, Pending),
                         Job("deploy", 2, OnSuccess, false, Created)], 3)
  {
  }

  /** Once nothing is `created`, both declared jobs get rows and the lowest of them is enqueued. */
  lemma DeclaredRowsAdded(jobs: seq<Job>)
    requires jobs == [Job("linux", 0, OnSuccess, false, Success), Job("mac", 0, OnSuccess, false, Success)]
    ensures Execute(jobs, [BuildSpec("rspec", 1, OnSuccess, false), BuildSpec("deploy", 2, OnSuccess, false)])
         == ([Job("linux", 0, OnSuccess, false, Success),
              Job("mac", 0, OnSuccess, false, Success),
              Job("rspec", 1, OnSuccess, false, Pending),
              Job("deploy", 2, OnSuccess, false, Created)], true)
  {
    DeclaredRowsAddedRows0();
    assert MaterialiseOf([Job("linux", 0, OnSuccess, false, Success), Job("mac", 0, OnSuccess, false, Success)], [BuildSpec("rspec", 1, OnSuccess, false), BuildSpec("deploy", 2, OnSuccess, false)])
        == [Job("linux", 0, OnSuccess, false, Success),
            Job("mac", 0, OnSuccess, false, Success),
            Job("rspec", 1, OnSuccess, false, Created),
            Job("deploy", 2, OnSuccess, false, Created)];
    PassIs(jobs, [BuildSpec("rspec", 1, OnSuccess, false), BuildSpec("deploy", 2, OnSuccess, false)], [Job("linux", 0, OnSuccess, false, Success),
                  Job("mac", 0, OnSuccess, false, Success),
                  Job("rspec", 1, OnSuccess, false, Created),
                  Job("deploy", 2, OnSuccess, false, Created)],
           [Job("linux", 0, OnSuccess, false, Success),
             Job("mac", 0, OnSuccess, false, Success),
             Job("rspec", 1, OnSuccess, false, Pending),
             Job("deploy", 2, OnSuccess, false, Created)]);
  }

  lemma DeclaredRowsProceedRows0()
    ensures DecidedFrom([Job("linux", 0, OnSuccess, false, Success),
                         Job("mac", 0, OnSuccess, false, Success),
                         Job("rspec", 1, OnSuccess, false, Success),
                         Job("deploy", 2, OnSuccess, false, Created)],
                        [Job("linux", 0, OnSuccess, false, Success),
                         Job("mac", 0, OnSuccess, false, Success),
                         Job("rspec", 1, OnSuccess, false, Success),
                         Job("deploy", 2, OnSuccess, false, Pending)], 0)
  {
  }

  /** The remaining declared job is enqueued after the one before it succeeded; nothing is added twice. */
  lemma DeclaredRowsProceed(jobs: seq<Job>)
    requires jobs == [Job("linux", 0, OnSuccess, false, Success),
                 Job("mac", 0, OnSuccess, false, Success),
                 Job("rspec", 1, OnSuccess, false, Success),
                 Job("deploy", 2, OnSuccess, false, Created)]
    ensures Execute(jobs, [BuildSpec("rspec", 1, OnSuccess, false), BuildSpec("deploy", 2, OnSuccess, false)])
         == ([Job("linux", 0, OnSuccess, false, Success),
              Job("mac", 0, OnSuccess, false, Success),
              Job("rspec", 1, OnSuccess, false, Success),
              Job("deploy", 2, OnSuccess, false, Pending)], true)
  {
    DeclaredRowsProceedRows0();
    assert MaterialiseOf([Job("linux", 0, OnSuccess, false, Success),
                          Job("mac", 0, OnSuccess, false, Success),
                          Job("rspec", 1, OnSuccess, false, Success),
                          Job("deploy", 2, OnSuccess, false, Created)], [BuildSpec("rspec", 1, OnSuccess, false), BuildSpec("deploy", 2, OnSuccess, false)])
        == [Job("linux", 0, OnSuccess, false, Success),
            Job("mac", 0, OnSuccess, false, Success),
            Job("rspec", 1, OnSuccess, false, Success),
            Job("deploy", 2, OnSuccess, false, Created)];
    PassIs(jobs, [BuildSpec("rspec", 1, OnSuccess, false), BuildSpec("deploy", 2, OnSuccess, false)], [Job("linux", 0, OnSuccess, false, Success),
                  Job("mac", 0, OnSuccess, false, Success),
                  Job("rspec", 1, OnSuccess, false, Success),
                  Job("deploy", 2, OnSuccess, false, Created)],
           [Job("linux", 0, OnSuccess, false, Success),
             Job("mac", 0, OnSuccess, false, Success),
             Job("rspec", 1, OnSuccess, false, Success),
             Job("deploy", 2, OnSuccess, false, Pending)]);
  }

  lemma DeclaredRowsDoneRows0()
    ensures DecidedFrom([Job("linux", 0, OnSuccess, false, Success),
                         Job("mac", 0, OnSuccess, false, Success),
                         Job("rspec", 1, OnSuccess, false, Success),
                         Job("deploy", 2, OnSuccess, false, Success)],
                        [Job("linux", 0, OnSuccess, false, Success),
                         Job("mac", 0, OnSuccess, false, Success),
                         Job("rspec", 1, OnSuccess, false, Success),
                         Job("deploy", 2, OnSuccess, false, Success)], 0)
  {
  }

  /** With all four rows succeeded, a pass adds and enqueues nothing. */
  lemma DeclaredRowsDone(jobs: seq<Job>)
    requires jobs == [Job("linux", 0, OnSuccess, false, Success),
                 Job("mac", 0, OnSuccess, false, Success),
                 Job("rspec", 1, OnSuccess, false, Success),
                 Job("deploy", 2, OnSuccess, false, Success)]
    ensures Execute(jobs, [BuildSpec("rspec", 1, OnSuccess, false), BuildSpec("deploy", 2, OnSuccess, false)])
         == ([Job("linux", 0, OnSuccess, false, Success),
              Job("mac", 0, OnSuccess, false, Success),
              Job("rspec", 1, OnSuccess, false, Success),
              Job("deploy", 2, OnSuccess, false, Success)], false)
  {
    DeclaredRowsDoneRows0();
    assert MaterialiseOf([Job("linux", 0, OnSuccess, false, Success),
                          Job("mac", 0, OnSuccess, false, Success),
                          Job("rspec", 1, OnSuccess, false, Success),
                          Job("deploy", 2, OnSuccess, false, Success)], [BuildSpec("rspec", 1, OnSuccess, false), BuildSpec("deploy", 2, OnSuccess, false)])
        == [Job("linux", 0, OnSuccess, false, Success),
            Job("mac", 0, OnSuccess, false, Success),
            Job("rspec", 1, OnSuccess, false, Success),
            Job("deploy", 2, OnSuccess, false, Success)];
    PassIs(jobs, [BuildSpec("rspec", 1, OnSuccess, false), BuildSpec("deploy", 2, OnSuccess, false)], [Job("linux", 0, OnSuccess, false, Success),
                  Job("mac", 0, OnSuccess, false, Success),
                  Job("rspec", 1, OnSuccess, false, Success),
                  Job("deploy", 2, OnSuccess, false, Success)],
           [Job("linux", 0, OnSuccess, false, Success),
             Job("mac", 0, OnSuccess, false, Success),
             Job("rspec", 1, OnSuccess, false, Success),
             Job("deploy", 2, OnSuccess, false, Success)]);
  }

  // What the test file observes at those points: `builds` (the rows that are neither
  // `created` nor `skipped`) counted by status or plucked by name, the pipeline's
  // status and its manual actions.

  /** While the first stage is pending, two builds are pending. */
  lemma QueuingWaitsObserved(jobs: seq<Job>)
    requires jobs == [Job("linux", 0, OnSuccess, false, Pending),
                 Job("mac", 0, OnSuccess, false, Pending),
                 Job("rspec", 1, OnSuccess, false, Created),
                 Job("rubocop", 1, OnSuccess, false, Created),
                 Job("deploy", 2, OnSuccess, false, Created)]
    ensures CountStatus(Visible(jobs), Pending) == 2
  {
    CountByList([Job("linux", 0, OnSuccess, false, Pending),
                Job("mac", 0, OnSuccess, false, Pending),
                Job("rspec", 1, OnSuccess, false, Created),
                Job("rubocop", 1, OnSuccess, false, Created),
                Job("deploy", 2, OnSuccess, false, Created)], Pending);
  }

  /** While the first stage is pending, so is the pipeline. */
  lemma QueuingWaitsStatus(jobs: seq<Job>)
    requires jobs == [Job("linux", 0, OnSuccess, false, Pending),
                 Job("mac", 0, OnSuccess, false, Pending),
                 Job("rspec", 1, OnSuccess, false, Created),
                 Job("rubocop", 1, OnSuccess, false, Created),
                 Job("deploy", 2, OnSuccess, false, Created)]
    ensures PipelineStatus(jobs) == Pending
  {
    PipelineStatusByTally([Job("linux", 0, OnSuccess, false, Pending),
                          Job("mac", 0, OnSuccess, false, Pending),
                          Job("rspec", 1, OnSuccess, false, Created),
                          Job("rubocop", 1, OnSuccess, false, Created),
                          Job("deploy", 2, OnSuccess, false, Created)]);
  }

  /** With every job succeeded, five builds are successful. */
  lemma QueuingDoneObserved(jobs: seq<Job>)
    requires jobs == [Job("linux", 0, OnSuccess, false, Success),
                 Job("mac", 0, OnSuccess, false, Success),
                 Job("rspec", 1, OnSuccess, false, Success),
                 Job("rubocop", 1, OnSuccess, false, Success),
                 Job("deploy", 2, OnSuccess, false, Success)]
    ensures CountStatus(Visible(jobs), Success) == 5
  {
    CountByList([Job("linux", 0, OnSuccess, false, Success),
                Job("mac", 0, OnSuccess, false, Success),
                Job("rspec", 1, OnSuccess, false, Success),
                Job("rubocop", 1, OnSuccess, false, Success),
                Job("deploy", 2, OnSuccess, false, Success)], Success);
  }

  /** With every job succeeded, the pipeline is `success`. */
  lemma QueuingDoneStatus(jobs: seq<Job>)
    requires jobs == [Job("linux", 0, OnSuccess, false, Success),
                 Job("mac", 0, OnSuccess, false, Success),
                 Job("rspec", 1, OnSuccess, false, Success),
                 Job("rubocop", 1, OnSuccess, false, Success),
                 Job("deploy", 2, OnSuccess, false, Success)]
    ensures PipelineStatus(jobs) == Success
  {
    PipelineStatusByTally([Job("linux", 0, OnSuccess, false, Success),
                          Job("mac", 0, OnSuccess, false, Success),
                          Job("rspec", 1, OnSuccess, false, Success),
                          Job("rubocop", 1, OnSuccess, false, Success),
                          Job("deploy", 2, OnSuccess, false, Success)]);
  }

  /** After the first pass of the allowed-failure pipeline, the one build is `pending`. */
  lemma AllowedFailureStartObserved(jobs: seq<Job>)
    requires jobs == [Job("clean_job", 0, OnSuccess, true, Pending),
                 Job("test_job", 1, OnSuccess, true, Created)]
    ensures Statuses(Visible(jobs)) == multiset{Pending}
  {
    StatusesByList([Job("clean_job", 0, OnSuccess, true, Pending),
                   Job("test_job", 1, OnSuccess, true, Created)]);
  }

  /** The skipped manual job of the first stage is the pipeline's only manual action. */
  lemma FirstStageManualObserved(jobs: seq<Job>)
    requires jobs == [Job("build", 0, Manual, false, Skipped),
                 Job("check", 1, OnSuccess, false, Pending),
                 Job("test", 2, OnSuccess, false, Created)]
    ensures ManualActions(jobs) == [Job("build", 0, Manual, false, Skipped)]
  {
    ManualActionsByList([Job("build", 0, Manual, false, Skipped),
                        Job("check", 1, OnSuccess, false, Pending),
                        Job("test", 2, OnSuccess, false, Created)]);
  }

  /** After the first pass of the retry pipeline, the builds are `build:1` and `build:2`. */
  lemma RetryStartObserved(jobs: seq<Job>)
    requires jobs == [Job("build:1", 0, OnSuccess, false, Pending),
                 Job("build:2", 0, OnSuccess, false, Pending),
                 Job("test:1", 1, OnSuccess, false, Created),
                 Job("test:2", 1, OnSuccess, false, Created),
                 Job("deploy:1", 2, OnSuccess, false, Created),
                 Job("deploy:2", 2, OnSuccess, false, Created)]
    ensures Names(Visible(jobs)) == multiset{"build:1", "build:2"}
  {
    NamesByList([Job("build:1", 0, OnSuccess, false, Pending),
                Job("build:2", 0, OnSuccess, false, Pending),
                Job("test:1", 1, OnSuccess, false, Created),
                Job("test:2", 1, OnSuccess, false, Created),
                Job("deploy:1", 2, OnSuccess, false, Created),
                Job("deploy:2", 2, OnSuccess, false, Created)]);
  }

  /** Once the retried test succeeded, both `test:2` rows and both deploy jobs are among the builds. */
  lemma RetriedTestObserved(jobs: seq<Job>)
    requires jobs == [Job("build:1", 0, OnSuccess, false, Success),
                 Job("build:2", 0, OnSuccess, false, Success),
                 Job("test:1", 1, OnSuccess, false, Success),
                 Job("test:2", 1, OnSuccess, false, Failed),
                 Job("deploy:1", 2, OnSuccess, false, Pending),
                 Job("deploy:2", 2, OnSuccess, false, Pending),
                 Job("test:2", 1, OnSuccess, false, Success)]
    ensures Names(Visible(jobs))
         == multiset{"build:1", "build:2", "test:1", "test:2", "test:2", "deploy:1", "deploy:2"}
  {
    NamesByList([Job("build:1", 0, OnSuccess, false, Success),
                Job("build:2", 0, OnSuccess, false, Success),
                Job("test:1", 1, OnSuccess, false, Success),
                Job("test:2", 1, OnSuccess, false, Failed),
                Job("deploy:1", 2, OnSuccess, false, Pending),
                Job("deploy:2", 2, OnSuccess, false, Pending),
                Job("test:2", 1, OnSuccess, false, Success)]);
  }
}
