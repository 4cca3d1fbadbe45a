# GitLab core, modelled in Dafny

This project models six pieces of GitLab (Ruby on Rails) and proves properties of them.

- **The CI stage scheduler** (`ci_status.dfy`, `ci_process.dfy`, `ci_process_proofs.dfy`,
  `ci_pipeline.dfy`; the test pipelines are replayed in `ci_scenarios.dfy` with the
  evaluation helpers of `ci_eval.dfy`).
  - A pipeline is a list of build rows. Each row has a name, a stage index, a `when:`
    keyword, an `allow_failure` flag and a status.
  - A processing pass first adds rows for the configured jobs that have none yet, but only
    when no row is `created`.
  - It then walks the stages that hold `created` rows, lowest first. Once every earlier
    stage has settled, each `created` job is enqueued (`pending`) or `skipped`. The choice
    follows the `when` table applied to the aggregate status of all earlier stages.
  - A finishing job (`success`, `drop`, `cancel`) triggers a pass.
  - A retry appends a new `pending` row and reopens the skipped rows of later stages.
  - The `Pipeline` class carries out these steps in place. Each of its methods is proved
    equal to a function of the rows.
  - The pass is proved to be *the unique* state allowed by a declarative decision rule.
    Gating, the skip cascade, idempotence and the `on_success`/`on_failure`/`always`/`manual`
    rules follow from that rule.
- **`Backup::Manager`** (`backup_manager.dfy`).
  - What goes into a backup.
  - The archive name `pack` writes, and the timestamp `remove_old` reads back through its
    regular expression (a round trip).
  - Which old archives `remove_old` deletes.
  - How `unpack` chooses and checks the archive.
  - What `cleanup` removes.
- **`GlobalMilestone`** (`global_milestone.dfy`).
  - The state, the common due and start dates, the display milestone and the participants
    of a group of same-titled milestones, with the memoisation of the dates and
    participants.
  - `build`, and `build_collection`'s grouping by title and ordering by due date.
- **Moving an issue on a board** (`board_move.dfy`).
  - The label changes and the open/closed change of a move between label lists, into the
    `Done` list and out of it.
  - Which service (update, close, reopen) the move is delegated to.
  - Refusing a move onto the same list.
- **`EnvironmentSerializer`** (`environment_serializer.dfy`): environments rendered as they
  are, one page of them, or as folder items. An item gives a folder name, a size and the
  latest environment; items come in ascending name order and can be paginated.
- **The chat message of an issue event** (`issue_message.dfy`): the pretext line and the
  attachment of an opened issue.

Shared helpers (decimal rendering and reading, blank strings, substrings, uniq,
subsequences) are in `basics.dfy`.

Some source files are not part of this model. For these components, the implementation
was reconstructed from the assertions of their test files:

- `Ci::ProcessPipelineService` and the status aggregation of `HasStatus`;
- `Boards::Issues::MoveService` and the issue services it delegates to;
- `ChatMessage::IssueMessage`.

Their rows in the table below cite those test files.

## Model

| member | source | states |
|---|---|---|
| CiStatus.Decide | spec/services/ci/process_pipeline_service_spec.rb:215-267 | A reached `created` job keeps everything but its status. It becomes `pending` exactly when the `when` table lets it run after the earlier stages' status, and `skipped` exactly otherwise. |
| CiStatus.PriorCompletedIff | spec/services/ci/process_pipeline_service_spec.rb:40-47 | The earlier stages count as finished exactly when none of their latest rows is pending or running. |
| CiStatus.AggregateActiveIff | spec/services/ci/process_pipeline_service_spec.rb:40-47 | An aggregate is pending or running exactly when a counted row is pending or running. |
| CiStatus.PriorFrame | spec/services/ci/process_pipeline_service_spec.rb:215-267 | Rows of stage k and above never influence the status of the stages below k. |
| CiStatus.SuccessDespiteManual | spec/services/ci/process_pipeline_service_spec.rb:76-98 | A pipeline whose non-manual latest jobs all succeeded is `success`, whatever manual jobs that are skipped or were never reached do. |
| CiStatus.FailedDespiteLaterSuccess | spec/services/ci/process_pipeline_service_spec.rb:101-175 | With nothing pending or running, one latest failure that is not allowed makes the pipeline `failed`, even when later `on_failure` or `always` jobs succeeded. |
| CiStatus.CanceledWhenRestSettled | spec/services/ci/process_pipeline_service_spec.rb:177-192 | A canceled latest row, with every other counted row succeeded, skipped or an allowed failure, makes the pipeline `canceled`. |
| CiStatus.SettledPipelineIsFinal | spec/services/ci/process_pipeline_service_spec.rb:95-97 | A started pipeline with nothing pending or running has a final status. |
| CiStatus.Aggregate | spec/services/ci/process_pipeline_service_spec.rb:76-192 | The status a set of latest, no-longer-`created` rows adds up to. The cases are tried in order: all skipped, then all succeeded or skipped (allowed failures included), then all pending or skipped, then all canceled or settled, then something active (`running`), otherwise `failed`. There is no status when no row counts. AggregateActiveIff, SuccessDespiteManual, FailedDespiteLaterSuccess, CanceledWhenRestSettled and SettledPipelineIsFinal state what this gives. |
| CiStatus.PriorStatus | spec/services/ci/process_pipeline_service_spec.rb:25-38 | The status of all stages below a stage, and `success` when no row there counts. PriorCompletedIff states when it is settled, and PriorFrame states that later stages never change it. |
| CiStatus.PipelineStatus | spec/services/ci/process_pipeline_service_spec.rb:95-97 | The pipeline's status, the aggregate over all its latest rows. SuccessDespiteManual, FailedDespiteLaterSuccess, CanceledWhenRestSettled and SettledPipelineIsFinal state its value; the scenario lemmas QueuingWaitsStatus and QueuingDoneStatus replay it. |
| CiStatus.Runs | spec/services/ci/process_pipeline_service_spec.rb:215-267 | The `when` table. `on_success` runs after success or skipped, `on_failure` after failed, `always` after anything but canceled, and `manual` never. Decide, OnSuccessNeedsCleanHistory, OnFailureNeedsFailure, AlwaysRunsUnlessCanceled and ManualNeverEnqueued state its effect on a pass. |
| CiProcess.RowOf | spec/services/ci/process_pipeline_service_spec.rb:309-312 | A declared job becomes a `created` row with its name, stage, `when` and `allow_failure`. |
| CiProcess.MissingRows | spec/services/ci/process_pipeline_service_spec.rb:332-342 | The added rows are `created` rows of declared jobs. Every declared job whose name has no row is among them, and no added row repeats an existing name. |
| CiProcess.Materialise | spec/services/ci/process_pipeline_service_spec.rb:319-342 | Materialising only appends rows and keeps the existing rows as a prefix. |
| CiProcess.ProcessStage | spec/services/ci/process_pipeline_service_spec.rb:25-38 | Processing stage k leaves every row of an earlier stage, and every row's attributes other than its status, unchanged. |
| CiProcess.InsertSorted | spec/services/ci/process_pipeline_service_spec.rb:25-38 | Inserting into an increasing list of stage indices keeps it increasing and adds exactly that index. |
| CiProcess.CreatedStages | spec/services/ci/process_pipeline_service_spec.rb:25-38 | The stages a pass walks are, in increasing order, exactly the stage indices of `created` rows. |
| CiProcess.Sweep | spec/services/ci/process_pipeline_service_spec.rb:25-38 | Processing stages changes only statuses. |
| CiProcess.Execute | spec/services/ci/process_pipeline_service_spec.rb:25-38 | A pass changes only statuses of the materialised rows. |
| CiProcess.SucceedAllPending | spec/services/ci/process_pipeline_service_spec.rb:376-378 | `update_all` turns exactly the pending rows to `success` and leaves every other row as it was. |
| CiProcess.ManualActions | spec/services/ci/process_pipeline_service_spec.rb:195-212 | The manual actions are exactly the latest rows of manual jobs whose stage was reached. |
| CiProcess.ManualActionsFrom | spec/services/ci/process_pipeline_service_spec.rb:195-212 | The same, for the rows from an index on. |
| CiProcess.Visible | spec/services/ci/process_pipeline_service_spec.rb:368-370 | `builds` holds exactly the rows that are neither `created` nor `skipped`. |
| CiProcess.Finish | spec/services/ci/process_pipeline_service_spec.rb:56-61 | `success`, `drop` or `cancel` sets the row's new status when the row is created, pending or running, and changes nothing otherwise. CiPipeline.Pipeline.Finish carries it out in place. |
| CiProcess.Complete | spec/services/ci/process_pipeline_service_spec.rb:56-61 | A finishing job followed by the pass it triggers. CiPipeline.Pipeline.Finish states it of the in-place pipeline; AllowedFailureDropped, SecondStageManualSkipped and the Retry scenario lemmas replay the test's events with it. |
| CiProcess.Start | spec/services/ci/process_pipeline_service_spec.rb:184 | A runner moves a pending row to `running` and changes nothing else. CiPipeline.Pipeline.Run carries it out in place. |
| CiProcess.Retryable | spec/services/ci/process_pipeline_service_spec.rb:296 | Only a failed or canceled job can be retried. This gate is a reconstruction (see "Left out"); CiPipeline.Pipeline.Retry reports it. |
| CiProcess.Retried | spec/services/ci/process_pipeline_service_spec.rb:296-299 | The rows after a retry. RetryKeepsHistory states them: the old row is kept, a pending latest copy is appended, and later skipped rows reopen. RetryReopensLaterStages replays the test's retry. |
| CiProcessProofs.ExecuteDecides | spec/services/ci/process_pipeline_service_spec.rb:25-38 | A pass leaves every non-`created` row alone. It decides each `created` row whose earlier stages have settled by the `when` table, against the status of all earlier stages after the pass, and leaves the other `created` rows `created`. |
| CiProcessProofs.SweepInvariant | spec/services/ci/process_pipeline_service_spec.rb:25-38 | The stage-by-stage invariant of the sweep: after each prefix of stages, the rows of those stages are decided and all other rows are untouched. |
| CiProcessProofs.SweepStep | spec/services/ci/process_pipeline_service_spec.rb:25-38 | Processing one stage above those already processed keeps that invariant. |
| CiProcessProofs.DecidedUnique | spec/services/ci/process_pipeline_service_spec.rb:25-38 | The decision rule allows at most one outcome. |
| CiProcessProofs.ExecuteIsTheDecision | spec/services/ci/process_pipeline_service_spec.rb:25-38 | A row list satisfies the decision rule exactly when it is the pass's result. |
| CiProcessProofs.PassCascades | spec/services/ci/process_pipeline_service_spec.rb:223-267 | After a pass, a row still `created` waits for a pending or running latest row of an earlier stage. So a stage that is only skipped never stops the pass. |
| CiProcessProofs.PassGating | spec/services/ci/process_pipeline_service_spec.rb:40-47 | A job is enqueued only when every latest row of every earlier stage has finished. |
| CiProcessProofs.OnSuccessNeedsCleanHistory | spec/services/ci/process_pipeline_service_spec.rb:49-62 | An `on_success` job is enqueued only when every earlier latest row succeeded, was skipped, or failed while allowed to. |
| CiProcessProofs.OnFailureNeedsFailure | spec/services/ci/process_pipeline_service_spec.rb:101-124 | An `on_failure` job is enqueued only after an earlier latest row failed without being allowed to. |
| CiProcessProofs.AlwaysRunsUnlessCanceled | spec/services/ci/process_pipeline_service_spec.rb:101-192 | A reached `always` job is enqueued exactly when the earlier stages do not add up to `canceled`. |
| CiProcessProofs.ManualNeverEnqueued | spec/services/ci/process_pipeline_service_spec.rb:223-250 | A pass never enqueues a manual job: it is skipped or still waits. |
| CiProcessProofs.CanceledBlocksLaterStages | spec/services/ci/process_pipeline_service_spec.rb:177-192 | After a cancellation, with no failure that is not allowed, a pass enqueues no later job. |
| CiProcessProofs.SweepBlocked | spec/services/ci/process_pipeline_service_spec.rb:40-47 | When no stage to process has settled predecessors, sweeping changes nothing. |
| CiProcessProofs.QuiescentFixpoint | spec/services/ci/process_pipeline_service_spec.rb:40-47 | When nothing is to be added and every `created` row waits, a pass changes nothing and returns false. |
| CiProcessProofs.PassIdempotent | spec/services/ci/process_pipeline_service_spec.rb:40-47 | A second pass right after a first one, with no rows to add, changes nothing and returns false. |
| CiProcessProofs.MissingRowsNone | spec/services/ci/process_pipeline_service_spec.rb:346-359 | When every declared job has a row, none is added. |
| CiProcessProofs.MaterialiseNothingMissing | spec/services/ci/process_pipeline_service_spec.rb:346-359 | In that case the rows stay as they are. |
| CiProcessProofs.FinishedPipelineStaysPut | spec/services/ci/process_pipeline_service_spec.rb:34-38 | With no `created` row and every declared job present, a pass changes nothing and returns false. |
| CiProcessProofs.MaterialiseOnce | spec/services/ci/process_pipeline_service_spec.rb:319-351 | Rows are added only when nothing is `created`, and never twice. |
| CiProcessProofs.FirstPassStartsLowestStage | spec/services/ci/process_pipeline_service_spec.rb:16-26 | On a fresh pipeline whose lowest stage holds a job that runs on success, the first pass decides exactly that stage against `success`, leaves the rest `created`, and returns true. |
| CiProcessProofs.RetryKeepsHistory | spec/services/ci/process_pipeline_service_spec.rb:296-299 | A retry keeps the old row, no longer the latest of its name, and appends a pending latest copy. Only skipped rows of later stages change, back to `created`. A job that is not failed or canceled is not retried; that gate is a reconstruction (see "Left out"). |
| CiProcessProofs.MinStage | spec/services/ci/process_pipeline_service_spec.rb:25-38 | The lowest stage index of the rows. |
| CiProcessProofs.MaxStage | spec/services/ci/process_pipeline_service_spec.rb:25-38 | The highest stage index of the rows. |
| CiPipeline.Pipeline.constructor | spec/services/ci/process_pipeline_service_spec.rb:7-9 | A pipeline starts with the given rows and configuration. |
| CiPipeline.Pipeline.Process | spec/services/ci/process_pipeline_service_spec.rb:372-374 | The in-place pass leaves exactly the rows of `Execute` and returns whether a job was enqueued. |
| CiPipeline.Pipeline.DecideStage | spec/services/ci/process_pipeline_service_spec.rb:25-38 | The in-place processing of one stage leaves exactly the rows of `ProcessStage` and reports an enqueued job. |
| CiPipeline.EnqueuedAccumulates | spec/services/ci/process_pipeline_service_spec.rb:25-38 | The jobs enqueued over two steps are those enqueued by either step. |
| CiPipeline.Pipeline.Finish | spec/services/ci/process_pipeline_service_spec.rb:56-61 | A finishing job takes its status, if it may, and triggers a pass. |
| CiPipeline.Pipeline.Succeed | spec/services/ci/process_pipeline_service_spec.rb:245-248 | `success` and its pass. |
| CiPipeline.Pipeline.Drop | spec/services/ci/process_pipeline_service_spec.rb:60-61 | `drop` and its pass. |
| CiPipeline.Pipeline.Cancel | spec/services/ci/process_pipeline_service_spec.rb:188-191 | `cancel` and its pass. |
| CiPipeline.Pipeline.Run | spec/services/ci/process_pipeline_service_spec.rb:184 | A runner moves a pending job to `running`. |
| CiPipeline.Pipeline.SucceedPending | spec/services/ci/process_pipeline_service_spec.rb:376-378 | In-place `update_all` equals `SucceedAllPending`. |
| CiPipeline.Pipeline.Retry | spec/services/ci/process_pipeline_service_spec.rb:296 | The in-place retry equals `Retried` and reports whether the job could be retried. |
| CiScenarios.QueuingStarts | spec/services/ci/process_pipeline_service_spec.rb:17-26 | The five-job pipeline's first pass enqueues linux and mac and returns true. |
| CiScenarios.QueuingWaitsForRunningStage | spec/services/ci/process_pipeline_service_spec.rb:41-47 | While the first stage is pending, a second pass changes nothing and returns false. |
| CiScenarios.QueuingSecondStage | spec/services/ci/process_pipeline_service_spec.rb:27-30 | After the first stage's jobs succeed, a pass enqueues rspec and rubocop. |
| CiScenarios.QueuingLastStage | spec/services/ci/process_pipeline_service_spec.rb:31-34 | After the second stage succeeds, a pass enqueues deploy. |
| CiScenarios.QueuingDone | spec/services/ci/process_pipeline_service_spec.rb:35-38 | With all five jobs succeeded, a pass returns false. |
| CiScenarios.AllowedFailureStart | spec/services/ci/process_pipeline_service_spec.rb:51-58 | Of two jobs allowed to fail, the first is enqueued. |
| CiScenarios.AllowedFailureDropped | spec/services/ci/process_pipeline_service_spec.rb:60-61 | Dropping the first job, which is allowed to fail, enqueues the second. |
| CiScenarios.FirstStageManual | spec/services/ci/process_pipeline_service_spec.rb:223-232 | A manual-only first stage is skipped, the second stage is enqueued, and the third stays `created`. |
| CiScenarios.SecondStageManualWaits | spec/services/ci/process_pipeline_service_spec.rb:235-243 | With a manual-only second stage, the first pass enqueues the first stage only. |
| CiScenarios.SecondStageManualSkipped | spec/services/ci/process_pipeline_service_spec.rb:245-248 | When the first job succeeds, the manual stage is skipped and the third stage is enqueued. |
| CiScenarios.SecondStageOnFailureWaits | spec/services/ci/process_pipeline_service_spec.rb:252-260 | With an `on_failure`-only second stage, the first pass enqueues the first stage only. |
| CiScenarios.SecondStageOnFailureSkipped | spec/services/ci/process_pipeline_service_spec.rb:262-265 | When the first job succeeds, the `on_failure` stage is skipped and the third stage is enqueued. |
| CiScenarios.RetryStart | spec/services/ci/process_pipeline_service_spec.rb:272-283 | The six-job pipeline's first pass enqueues build:1 and build:2. |
| CiScenarios.RetryFirstBuildSucceeds | spec/services/ci/process_pipeline_service_spec.rb:285 | build:1 succeeding enqueues nothing while build:2 is pending. |
| CiScenarios.RetrySecondBuildSucceeds | spec/services/ci/process_pipeline_service_spec.rb:285-288 | build:2 succeeding enqueues test:1 and test:2. |
| CiScenarios.RetryFirstTestSucceeds | spec/services/ci/process_pipeline_service_spec.rb:290 | test:1 succeeding enqueues nothing while test:2 is pending. |
| CiScenarios.RetrySecondTestDropped | spec/services/ci/process_pipeline_service_spec.rb:291-294 | test:2 failing skips deploy:1 and deploy:2, so no deploy job becomes visible. |
| CiScenarios.RetryReopensLaterStages | spec/services/ci/process_pipeline_service_spec.rb:296 | Retrying test:2 appends a pending test:2 and turns the skipped deploy jobs back to `created`. |
| CiScenarios.RetriedTestSucceeds | spec/services/ci/process_pipeline_service_spec.rb:296-299 | The new test:2 succeeding enqueues both deploy jobs: the newer row supersedes the failed one. |
| CiScenarios.UndeclaredRowsWait | spec/services/ci/process_pipeline_service_spec.rb:304-330 | With two stored `created` jobs, the pass adds no declared row and enqueues both. |
| CiScenarios.DeclaredRowsAdded | spec/services/ci/process_pipeline_service_spec.rb:337-342 | Once both succeeded, rows for rspec and deploy are added at once, and rspec is enqueued. |
| CiScenarios.DeclaredRowsProceed | spec/services/ci/process_pipeline_service_spec.rb:346-351 | After rspec succeeds, deploy is enqueued and nothing is added again. |
| CiScenarios.DeclaredRowsDone | spec/services/ci/process_pipeline_service_spec.rb:355-359 | With all four rows succeeded, a pass adds and enqueues nothing. |
| CiScenarios.QueuingWaitsObserved | spec/services/ci/process_pipeline_service_spec.rb:41-47 | While the first stage is pending, `builds.pending.count` is 2. |
| CiScenarios.QueuingWaitsStatus | spec/services/ci/process_pipeline_service_spec.rb:41-47 | While the first stage is pending, the pipeline's status is `pending`. |
| CiScenarios.QueuingDoneObserved | spec/services/ci/process_pipeline_service_spec.rb:34-36 | With all five jobs succeeded, `builds.success.count` is 5. |
| CiScenarios.QueuingDoneStatus | spec/services/ci/process_pipeline_service_spec.rb:34-38 | With all five jobs succeeded, the pipeline's status is `success`. |
| CiScenarios.AllowedFailureStartObserved | spec/services/ci/process_pipeline_service_spec.rb:57-58 | After the first pass, `builds.pluck(:status)` is exactly one `pending`. |
| CiScenarios.FirstStageManualObserved | spec/services/ci/process_pipeline_service_spec.rb:222-232 | After the first pass, the skipped `build` job is the only manual action: a manual job counts once its stage was reached. |
| CiScenarios.RetryStartObserved | spec/services/ci/process_pipeline_service_spec.rb:282-283 | After the first pass, `builds.pluck(:name)` is exactly build:1 and build:2. |
| CiScenarios.RetriedTestObserved | spec/services/ci/process_pipeline_service_spec.rb:296-299 | After the retried test:2 succeeds, `builds.pluck(:name)` is build:1, build:2, test:1, test:2 twice, deploy:1 and deploy:2. |
| BackupManager.DisabledFeatures | lib/backup/manager.rb:200-204 | `registry` is disabled exactly when the registry is off, and nothing else ever is. |
| BackupManager.CollectDisabledFeatures | lib/backup/manager.rb:200-204 | The list-building method gives exactly `DisabledFeatures`. |
| BackupManager.SkippedIff | lib/backup/manager.rb:165-167 | An item is skipped exactly when the stored `SKIP` contains it as a substring, or it is `registry` with the registry off. |
| BackupManager.Skipped | lib/backup/manager.rb:165-167 | `skipped?`, with Ruby's precedence. SkippedIff states exactly when it holds. |
| BackupManager.BackupContents | lib/backup/manager.rb:188-190 | `backup_contents`. BackupContentsLayout, FullBackupContents and BackupContentsWithoutRegistry state what it holds. |
| BackupManager.Kept | lib/backup/manager.rb:196-197 | `reject { skipped? }` keeps exactly the items that are not skipped, in their order. |
| BackupManager.Suffixed | lib/backup/manager.rb:193 | Each kept archive name gets `.tar.gz`, one for one and in order. |
| BackupManager.BackupContentsLayout | lib/backup/manager.rb:188-198 | The contents are the non-skipped folders in fixed order, then the non-skipped archives in fixed order with `.tar.gz`, then `backup_information.yml` last. |
| BackupManager.KeptAppend | lib/backup/manager.rb:196-197 | Filtering distributes over concatenation. |
| BackupManager.KeptAll | lib/backup/manager.rb:196-197 | With nothing skipped, everything is kept. |
| BackupManager.FullBackupContents | lib/backup/manager.rb:3-4 | With no `SKIP` and the registry on, the contents are both folders, all six archives and the information file. |
| BackupManager.BackupContentsWithoutRegistry | lib/backup/manager.rb:200-204 | With the registry off, only `registry.tar.gz` is missing. |
| BackupManager.ArchivesWithoutRegistry | lib/backup/manager.rb:192-194 | With the registry off, the archives are the first five. |
| BackupManager.Pow10 | lib/backup/manager.rb:18 | Positive powers of ten: the bound DecimalLength uses. |
| BackupManager.DecimalLength | lib/backup/manager.rb:18 | A number below 10^k takes at most k digits. |
| BackupManager.TarFileName | lib/backup/manager.rb:18 | The archive name ends with `_gitlab_backup.tar`. |
| BackupManager.DigitRun | lib/backup/manager.rb:87 | The length of the maximal run of digits from a position. |
| BackupManager.MatchTakesWholeRun | lib/backup/manager.rb:87 | `(\d+)` can match only with the whole run of digits. |
| BackupManager.FirstMatch | lib/backup/manager.rb:87 | `=~` finds the leftmost position where the pattern matches, or reports that it matches nowhere. |
| BackupManager.Capture | lib/backup/manager.rb:87-89 | `$1` is a non-empty string of digits. |
| BackupManager.NoMatchBefore | lib/backup/manager.rb:87 | No match starts among leading characters that are not digits. |
| BackupManager.CaptureOfDigits | lib/backup/manager.rb:87-89 | Digits after text without digits, followed by an accepted tail, are what `$1` captures. |
| BackupManager.Timestamp | lib/backup/manager.rb:87-89 | The timestamp `remove_old` reads from a name: none when the pattern does not match, otherwise `$1` as a decimal number. TimestampRoundTrip, UndatedTimestampRoundTrip, UnanchoredTimestamp and NoDigitsNoTimestamp state what it reads. |
| BackupManager.DatedTailOf | lib/backup/manager.rb:87 | `_YYYY_MM_DD_gitlab_backup.tar` is accepted by the tail of the pattern. |
| BackupManager.PaddedParts | lib/backup/manager.rb:18 | A year up to 9999 and a month and a day up to 99 are padded to exactly 4, 2 and 2 digits. |
| BackupManager.NameReadsEpoch | lib/backup/manager.rb:87-89 | A rendered epoch between text without digits and an accepted tail is read back. |
| BackupManager.TimestampRoundTrip | lib/backup/manager.rb:18 | The name `pack` writes is read back by `remove_old` as the epoch it was written with. |
| BackupManager.UndatedTimestampRoundTrip | lib/backup/manager.rb:87-89 | `<epoch>_gitlab_backup.tar`, without the date, is read back too. |
| BackupManager.UnanchoredTimestamp | lib/backup/manager.rb:87-89 | The pattern is not anchored: text without digits may stand in front. |
| BackupManager.NoDigitsNoTimestamp | lib/backup/manager.rb:87-88 | A name without digits is passed over. |
| BackupManager.Glob | lib/backup/manager.rb:86 | The glob keeps exactly the visible names ending with the suffix, in directory order. |
| BackupManager.RemoveOld | lib/backup/manager.rb:77-106 | With `keep_time <= 0` nothing is removed. Otherwise the removed files are exactly `Deleted` of the globbed files, and `removed` counts them. |
| BackupManager.RemoveExpired | lib/backup/manager.rb:86-99 | The loop deletes exactly `Deleted` of its files, in order, and counts them. |
| BackupManager.DeletedStep | lib/backup/manager.rb:87-97 | One more file is appended to the deleted ones exactly when it is expired and its removal does not raise. |
| BackupManager.DeletedMembers | lib/backup/manager.rb:87-97 | A file is deleted exactly when it is among the files, its timestamp is before `now - keep_time`, and its removal does not raise. |
| BackupManager.DeletedIff | lib/backup/manager.rb:86-97 | A directory entry is deleted exactly when it is globbed, carries a timestamp before the cut-off, and its removal does not raise. |
| BackupManager.Deleted | lib/backup/manager.rb:86-97 | The archives `remove_old` deletes, never more than it looks at. DeletedStep, DeletedMembers and DeletedIff state exactly which ones. |
| BackupManager.TarFileNameGlobbed | lib/backup/manager.rb:18 | The archive `pack` writes is found by the glob. |
| BackupManager.RecentBackupKept | lib/backup/manager.rb:91 | An archive written at or after `now - keep_time` is never removed. |
| BackupManager.OldBackupRemoved | lib/backup/manager.rb:86-94 | An archive written before the cut-off is removed, unless its removal raises. |
| BackupManager.SelectArchive | lib/backup/manager.rb:108-135 | No archives is an error, and so are several without `BACKUP`. A non-blank `BACKUP` names `BACKUP_gitlab_backup.tar`; otherwise the first archive is taken. A missing file is an error, and the result is `Ok` exactly in the remaining cases. |
| BackupManager.BlankBackupTakesFirst | lib/backup/manager.rb:120-130 | A blank but set `BACKUP` with several archives takes the first one. |
| BackupManager.DropSpace | lib/backup/manager.rb:146 | The leading whitespace that `to_i` skips is removed, and nothing more. |
| BackupManager.DigitPrefix | lib/backup/manager.rb:146 | The leading digits. |
| BackupManager.ToIRoundTrip | lib/backup/manager.rb:146 | `to_i` reads a rendered number back. |
| BackupManager.ToI | lib/backup/manager.rb:146 | Ruby's `String#to_i`: leading whitespace, an optional sign, the leading digits, and 0 when there are none. ToIRoundTrip and RestoreSetsSchemaVersion state what it reads back. |
| BackupManager.Unpack | lib/backup/manager.rb:108-158 | A restore succeeds exactly when an archive is selected, extracted, and from the running GitLab version. It then sets `VERSION` exactly when `db_version.to_i > 0`. Each failure gives its own error. |
| BackupManager.RestoreSetsSchemaVersion | lib/backup/manager.rb:13 | A backup written with schema version n sets `VERSION` to n exactly when n > 0. |
| BackupManager.Existing | lib/backup/manager.rb:65-66 | The contents that exist, in order. |
| BackupManager.Cleanup | lib/backup/manager.rb:62-75 | `cleanup` removes exactly the backup contents that exist, in order. |
| GlobalMilestones.StateOf | app/models/global_milestone.rb:50-56 | `active` exactly when some milestone is not closed; `closed` exactly when all are. |
| GlobalMilestones.ActiveIffNotClosed | app/models/global_milestone.rb:58-64 | `active?` and `closed?` are complements. |
| GlobalMilestones.DueDates | app/models/global_milestone.rb:87 | The milestones' due dates, one for one. |
| GlobalMilestones.StartDates | app/models/global_milestone.rb:96 | The milestones' start dates, one for one. |
| GlobalMilestones.CommonDateIff | app/models/global_milestone.rb:86-89 | A date is reported exactly when all milestones share that date. |
| GlobalMilestones.DifferentDatesGiveNone | app/models/global_milestone.rb:86-89 | Two different dates, `nil` included, give `nil`. |
| GlobalMilestones.CommonDateOrderFree | app/models/global_milestone.rb:86-89 | The common date does not depend on the milestones' order. |
| GlobalMilestones.CommonDate | app/models/global_milestone.rb:83-90 | The date every milestone shares, else `nil`. CommonDateIff, DifferentDatesGiveNone and CommonDateOrderFree state this. |
| GlobalMilestones.FirstDescribedFrom | app/models/global_milestone.rb:35 | The first milestone from an index on with a present description. |
| GlobalMilestones.DisplayMilestone | app/models/global_milestone.rb:35 | The first milestone with a present description, else the first milestone, else `nil`. The result is one of the milestones. |
| GlobalMilestones.Flatten | app/models/global_milestone.rb:75 | Exactly the participant entries of all milestones. |
| GlobalMilestones.Compact | app/models/global_milestone.rb:75 | Exactly the entries that are not `nil`. |
| GlobalMilestones.Participants | app/models/global_milestone.rb:74-76 | Exactly the users taking part in some milestone, without repetition. |
| GlobalMilestones.GlobalMilestone.constructor | app/models/global_milestone.rb:31-36 | Keeps title and milestones, picks the display milestone, and starts with nothing memoised. |
| GlobalMilestones.GlobalMilestone.State | app/models/global_milestone.rb:50-56 | The early-exit loop returns `StateOf`: `active` exactly when some milestone is not closed. |
| GlobalMilestones.GlobalMilestone.IsActive | app/models/global_milestone.rb:58-60 | True exactly when some milestone is not closed. |
| GlobalMilestones.GlobalMilestone.IsClosed | app/models/global_milestone.rb:62-64 | True exactly when every milestone is closed. |
| GlobalMilestones.GlobalMilestone.DueDate | app/models/global_milestone.rb:83-90 | Returns the common due date and memoises it, `nil` included. Only that memo changes. |
| GlobalMilestones.GlobalMilestone.StartDate | app/models/global_milestone.rb:92-99 | Returns and memoises the common start date. Only that memo changes. |
| GlobalMilestones.GlobalMilestone.GetParticipants | app/models/global_milestone.rb:74-76 | Returns and memoises `Participants`. Only that memo changes. |
| GlobalMilestones.Titles | app/models/global_milestone.rb:16 | The milestones' titles, one for one. |
| GlobalMilestones.WithTitle | app/models/global_milestone.rb:25 | Exactly the milestones with the title, in order. |
| GlobalMilestones.GroupByTitle | app/models/global_milestone.rb:16-19 | One non-empty group per distinct title. Each group holds exactly the milestones with its title, and every milestone's title has a group. |
| GlobalMilestones.TitleHasMilestone | app/models/global_milestone.rb:16 | A listed title has a milestone. |
| GlobalMilestones.TitleListed | app/models/global_milestone.rb:16 | Every milestone's title is listed. |
| GlobalMilestones.GroupsPartition | app/models/global_milestone.rb:16-19 | Every milestone lies in exactly one group. |
| GlobalMilestones.InsertByKey | app/models/global_milestone.rb:21 | Inserting into a list sorted by due date keeps it sorted. |
| GlobalMilestones.SortKey | app/models/global_milestone.rb:21 | The due date of a group, or `EPOCH` when it has none. InsertByKey, SortByDueDate and CollectionIsGroupedAndSorted order by it. |
| GlobalMilestones.InsertByKeyPermutes | app/models/global_milestone.rb:21 | Inserting adds exactly the one group. |
| GlobalMilestones.SortByDueDate | app/models/global_milestone.rb:21 | The groups end up sorted by the due date, or `EPOCH` when there is none, and permuted. |
| GlobalMilestones.ReorderKeepsGroups | app/models/global_milestone.rb:16-21 | A permutation of a grouping is a grouping. |
| GlobalMilestones.CollectionIsGroupedAndSorted | app/models/global_milestone.rb:13-22 | `build_collection` groups by title (distinct, non-empty, exact, complete) and orders by due date with `nil` as 1970-01-01. |
| GlobalMilestones.PermutationKeepsDistinctTitles | app/models/global_milestone.rb:16-21 | Reordering keeps the titles distinct. |
| GlobalMilestones.TwiceCounted | app/models/global_milestone.rb:21 | An element at two positions is counted twice. |
| GlobalMilestones.OnceCounted | app/models/global_milestone.rb:21 | With distinct titles, each element is counted once. |
| GlobalMilestones.BuildCollection | app/models/global_milestone.rb:13-22 | One new global milestone per sorted group, with its title, its milestones and its display milestone. Every result has `@due_date` memoised as the common due date, because `sort_by` asks for it. Nothing else is memoised. |
| GlobalMilestones.NewGlobalMilestones | app/models/global_milestone.rb:16-21 | One new global milestone per non-empty group, in order. Each is asked for its `due_date` as the sort key, so only that memo is set. |
| GlobalMilestones.Build | app/models/global_milestone.rb:24-29 | `nil` exactly when no milestone has the title. Otherwise a new global milestone of exactly those milestones. |
| BoardMoves.FindList | spec/services/boards/issues/move_service_spec.rb:23 | A found list carries the id, and none is found exactly when no list has it. |
| BoardMoves.BoardLabels | spec/services/boards/issues/move_service_spec.rb:52-57 | Exactly the labels behind a list on any board of the project. |
| BoardMoves.StepOf | spec/services/boards/issues/move_service_spec.rb:21-69 | The service a move goes through. Out of `Done` it is the reopen service, into `Done` the close service, and otherwise the update service. MoveBetweenLists, MoveToDone and MoveFromDone state it for each kind of move. |
| BoardMoves.AddedLabels | spec/services/boards/issues/move_service_spec.rb:71-76 | The destination list's label, if it has one. MoveBetweenLists and MoveFromDone state its effect. |
| BoardMoves.RemovedLabels | spec/services/boards/issues/move_service_spec.rb:31-57 | Into `Done`, every label that backs a list on a project board; otherwise the origin list's label. MoveBetweenLists and MoveToDone state its effect. |
| BoardMoves.MovedLabels | spec/services/boards/issues/move_service_spec.rb:31-76 | The labels after a move: the added label joins and the removed ones leave. MoveBetweenLists, MoveToDone and MoveFromDone state the result, and TestBetweenLists, TestToDone and TestFromDone replay the test. |
| BoardMoves.MovedClosed | spec/services/boards/issues/move_service_spec.rb:52-77 | A move into `Done` closes the issue, a move out of it reopens the issue, and other moves keep its state. MoveToDone and MoveFromDone state this. |
| BoardMoves.ValidMove | spec/services/boards/issues/move_service_spec.rb:80-92 | Both lists exist and are different. SameListRefused, DistinctListsAccepted and MoveService.Execute state its use. |
| BoardMoves.Issue.constructor | spec/services/boards/issues/move_service_spec.rb:22 | An issue with its labels and state, and no service calls yet. |
| BoardMoves.Issue.Apply | spec/services/boards/issues/move_service_spec.rb:25-29 | A service adds and removes labels, sets the state, and records itself once. |
| BoardMoves.MoveService.constructor | spec/services/boards/issues/move_service_spec.rb:23 | The service keeps the lists and the request. |
| BoardMoves.MoveService.Execute | spec/services/boards/issues/move_service_spec.rb:21-92 | Returns true exactly for a move between two existing, different lists. A refused move leaves the issue untouched. An accepted one applies `MovedLabels` and `MovedClosed` and is recorded as one call of the service `StepOf` names: update, close or reopen. |
| BoardMoves.MoveBetweenLists | spec/services/boards/issues/move_service_spec.rb:31-35 | Between label lists, the origin's label goes, the destination's comes, the rest stay, and the update service is used. |
| BoardMoves.MoveToDone | spec/services/boards/issues/move_service_spec.rb:46-58 | Into `Done`, exactly the labels behind no list remain, the issue closes, and the close service is used. |
| BoardMoves.MoveFromDone | spec/services/boards/issues/move_service_spec.rb:65-77 | Out of `Done`, the destination's label joins, the issue reopens, and the reopen service is used. |
| BoardMoves.SameListRefused | spec/services/boards/issues/move_service_spec.rb:84-86 | A move onto the same list is refused. |
| BoardMoves.DistinctListsAccepted | spec/services/boards/issues/move_service_spec.rb:21-35 | A move between two existing lists with different ids is accepted. |
| BoardMoves.TestBetweenLists | spec/services/boards/issues/move_service_spec.rb:31-35 | Bug and Development become Bug and Testing. |
| BoardMoves.TestToDone | spec/services/boards/issues/move_service_spec.rb:52-58 | Bug, Development, Testing and Regression become Bug, and the issue closes. |
| BoardMoves.TestFromDone | spec/services/boards/issues/move_service_spec.rb:71-77 | A closed Bug issue reopens with Bug and Testing. |
| EnvironmentSerializers.BeforeIrreflexive | app/serializers/environment_serializer.rb:39 | The name order is irreflexive. |
| EnvironmentSerializers.BeforeTransitive | app/serializers/environment_serializer.rb:39 | The name order is transitive. |
| EnvironmentSerializers.BeforeTotal | app/serializers/environment_serializer.rb:39 | The name order is total. |
| EnvironmentSerializers.InsertFolder | app/serializers/environment_serializer.rb:39-40 | Adding a name to an ascending list of names keeps it ascending, with exactly one more name. |
| EnvironmentSerializers.FolderNames | app/serializers/environment_serializer.rb:39-41 | The folder names, all distinct and ascending, are exactly the `COALESCE(environment_type, name)` values. |
| EnvironmentSerializers.InFolder | app/serializers/environment_serializer.rb:40-42 | Exactly the environments of the folder, each as often as it occurs. |
| EnvironmentSerializers.Latest | app/serializers/environment_serializer.rb:42 | An environment of the list with the largest id. |
| EnvironmentSerializers.ItemOf | app/serializers/environment_serializer.rb:49-52 | The item is named after its folder, and its latest environment is an environment of that folder. |
| EnvironmentSerializers.Items | app/serializers/environment_serializer.rb:38-54 | One item per folder name, in order. |
| EnvironmentSerializers.Paginate | app/serializers/environment_serializer.rb:30 | A page is the window of consecutive entries from `offset`: `limit` of them when the collection is long enough, the rest of it when it is shorter, and none from beyond its end. |
| EnvironmentSerializers.Folder | app/serializers/environment_serializer.rb:40-41 | `COALESCE(environment_type, name)`. FolderNames, InFolder and OneItemPerFolder group by it. |
| EnvironmentSerializers.Itemize | app/serializers/environment_serializer.rb:38-54 | The folder items, paginated when a paginator is set. OneItemPerFolder, ItemsAscending, ItemSizeAndLatest and PaginatedItems state what they are. |
| EnvironmentSerializers.Representation | app/serializers/environment_serializer.rb:22-34 | What `represent` renders by the two flags. EnvironmentSerializer.Represent returns it, and PlainRepresentation and PaginatedItems state its cases. |
| EnvironmentSerializers.EnvironmentSerializer.constructor | app/serializers/environment_serializer.rb:1 | A serializer starts neither itemized nor paginated. |
| EnvironmentSerializers.EnvironmentSerializer.WithinFolders | app/serializers/environment_serializer.rb:6-8 | Switches itemizing on, keeps the paginator, and returns the serializer itself. |
| EnvironmentSerializers.EnvironmentSerializer.WithPagination | app/serializers/environment_serializer.rb:10-12 | Sets the paginator, keeps itemizing, and returns the serializer itself. |
| EnvironmentSerializers.EnvironmentSerializer.Represent | app/serializers/environment_serializer.rb:22-34 | Renders by the two flags: items, a page of entities, or the entities as they are. |
| EnvironmentSerializers.OneItemPerFolder | app/serializers/environment_serializer.rb:38-54 | There is an item for a folder exactly when some environment is in it, and no two items share a name. |
| EnvironmentSerializers.ItemsAscending | app/serializers/environment_serializer.rb:39 | Items come in ascending folder-name order. |
| EnvironmentSerializers.ItemSizeAndLatest | app/serializers/environment_serializer.rb:41-53 | An item's size counts its folder's environments. Its latest is the environment of that folder with the largest id. |
| EnvironmentSerializers.PlainRepresentation | app/serializers/environment_serializer.rb:29-33 | Without flags, the resource is rendered unchanged. |
| EnvironmentSerializers.PaginatedItems | app/serializers/environment_serializer.rb:44-47 | Paginated items are a window of at most `limit` of all items. |
| IssueMessages.NewMessage | spec/models/project_services/chat_message/issue_message_spec.rb:30-37 | The message keeps the event's values, and a `nil` description becomes `''`. |
| IssueMessages.Pretext | spec/models/project_services/chat_message/issue_message_spec.rb:40-66 | The pretext starts with the project link and ends with ` by <username>`. |
| IssueMessages.IssueTitle | spec/models/project_services/chat_message/issue_message_spec.rb:46 | `#<iid> <title>`. TestOpenAttachment and ClosedPretext state it inside the attachment and the pretext. |
| IssueMessages.ProjectPart | spec/models/project_services/chat_message/issue_message_spec.rb:42-43 | The project link every pretext starts with. Pretext, OpenedPretext and ClosedPretext state this. |
| IssueMessages.IssuePart | spec/models/project_services/chat_message/issue_message_spec.rb:62-63 | The link to the issue, which is empty while the issue is just opened. OpenedPretext, ClosedPretext and PretextLength state this. |
| IssueMessages.Framed | spec/models/project_services/chat_message/issue_message_spec.rb:42-43 | A joined string starts with its first part and ends with its last. |
| IssueMessages.Attachments | spec/models/project_services/chat_message/issue_message_spec.rb:44-64 | An attachment exists exactly for `open`. It is then the single entry with title `#<iid> <title>`, the link, the description and `#C95823`. |
| IssueMessages.OpenedPretext | spec/models/project_services/chat_message/issue_message_spec.rb:41-43 | The opened pretext is the project link in brackets, then `Issue opened by` and the username. |
| IssueMessages.ClosedPretext | spec/models/project_services/chat_message/issue_message_spec.rb:61-63 | The closed pretext is the project link, then `Issue`, the issue link labelled `#<iid> <title>`, then `closed by` and the username. |
| IssueMessages.PretextLength | spec/models/project_services/chat_message/issue_message_spec.rb:40-66 | The pretext's length: the issue link adds exactly its own characters once the issue is not just opened. |
| IssueMessages.PretextNamesUser | spec/models/project_services/chat_message/issue_message_spec.rb:42-43 | Different users give different pretexts. |
| IssueMessages.NilDescriptionIsEmpty | spec/models/project_services/chat_message/issue_message_spec.rb:30-37 | A `nil` description is sent as the empty text. |
| IssueMessages.DecimalHundred | spec/models/project_services/chat_message/issue_message_spec.rb:18 | iid 100 is rendered as `100`. |
| IssueMessages.TestOpenAttachment | spec/models/project_services/chat_message/issue_message_spec.rb:44-51 | The test's opened issue gives the attachment of the test. |
| IssueMessages.TestCloseAttachment | spec/models/project_services/chat_message/issue_message_spec.rb:64 | The closed issue of the test has no attachment. |
| IssueMessages.TestNilDescription | spec/models/project_services/chat_message/issue_message_spec.rb:30-37 | With a `nil` description, `description` is `''`. |

## Left out

- Every shell, file-system, network and YAML effect is left out: `tar`, `FileUtils`, Fog uploads, `$progress` output, `exit`/`abort`, and the `backup_information.yml` file with its memoised `settings`. Their outcomes are parameters: the directory listing, the set of files whose removal raises, the existing paths, and whether extraction succeeds.
- `pack` and `upload` (lib/backup/manager.rb:7-60) are left out as I/O, except the archive name and the stored fields that are read back.
- `tar_version` and `connect_to_remote_directory` are left out: they are shell and network calls.
- BackupManager.Cleanup: `FileUtils.rm_rf` always returns a truthy value, so the `abort` branch of lines 70-72 is not modelled.
- BackupManager.Timestamp: time is whole epoch seconds, not negative (`Time.at` of sub-second or negative values is not modelled). `to_i` ignores Ruby's `_` digit separators. Whitespace is ASCII only.
- BackupManager.Glob: the directory order is a parameter. Hidden files are not globbed, and the glob's other rules are not modelled.
- BackupManager.TimestampRoundTrip: only years up to 9999 are covered, where `%Y` gives four digits.
- The clock (`Time.now`), `ENV` and `Gitlab.config` are parameters of the functions that read them.
- CiProcess.Execute: the real service's database transactions, locking and concurrent callers are not modelled. A pass is atomic.
- The seven-job `when` pipelines of process_pipeline_service_spec.rb:64-212 are not replayed step by step. Their rules are covered by the general lemmas: CiProcessProofs.OnFailureNeedsFailure, AlwaysRunsUnlessCanceled, ManualNeverEnqueued, CanceledBlocksLaterStages, CiStatus.FailedDespiteLaterSuccess and CanceledWhenRestSettled, and CiProcess.ManualActions, which characterises the manual actions listed at lines 195-212.
- CiProcess.Retried: the test retries only a failed build (line 296). The model lets only a failed or canceled job be retried and leaves the rows alone otherwise; `Ci::Build.retry` and its `retryable?` check are not part of this model, so this gate is a reconstruction.
- CiProcess.Materialise: rows for missing configured jobs are added all at once, because the test goes from two rows to four in one pass. Stage names and YAML parsing are not modelled: a configured job carries its stage index.
- The pipeline's own stored status column is not modelled; `Pipeline.Status` is derived from the rows.
- GlobalMilestones.SortByDueDate: Ruby's `sort_by` is not stable. The model picks one admissible order, keeping groups with equal keys in grouping order. The lemmas state only the sortedness and permutation that hold for every admissible order.
- GlobalMilestones.DisplayMilestone and BackupManager.SelectArchive: `present?` and `blank?` are modelled with ASCII whitespace only. The Unicode spaces Rails also treats as blank are not modelled.
- GlobalMilestones.BuildCollection and GlobalMilestones.DisplayMilestone: each group's milestones are a fresh `Milestone.where(id: ...)` relation with no order, so which milestone `find` and `first` reach depends on the database's row order. The model uses the order of the milestones within the group.
- GlobalMilestones.GlobalMilestone.DueDate and StartDate require at least one milestone. On none, the source calls `due_date` on `nil` and raises.
- `safe_title`, `projects`, `issues`, `merge_requests`, `labels` and `milestoneish_ids` of GlobalMilestone are queries to the database and are left out. So are `MilestonesFinder` and the project scoping of `build`: the milestones are given.
- Dates are whole days, and `DateTime` precision is not modelled.
- BoardMoves.MoveService.Execute: board and project scoping, permissions and list positions are not modelled. Removal wins over addition when a label is both added and removed.
- BoardMoves.Issue.Apply and BoardMoves.MoveService.Execute: the `delegated` log, one entry per move, is a reconstruction. The test shows only that the named service receives `execute` once (move_service_spec.rb:26, 47 and 66). A move into or out of `Done` may also go through `Issues::UpdateService`; the model does not record that, and it puts the label removal of a move into `Done` on the close step.
- EnvironmentSerializers.Paginate: how the page and per-page values are read from the request and written to the response headers is not modelled. A paginator is an offset and a limit.
- EnvironmentSerializers.FolderNames: `ORDER BY folder_name` is character-code order; database collations are not modelled.
- EnvironmentSerializers.Latest: environment ids are unique in the database, so ties on `MAX(id)` cannot happen; the model takes the first.
- Entity rendering (`EnvironmentEntity`, `super`) is the identity: the model returns the environments themselves.
- IssueMessages.TestOpenAttachment: the literal pretext strings of the test are covered by the general OpenedPretext and ClosedPretext lemmas instead of literal comparisons. The user's display name, the issue id and the assignee are carried but unused, as in the test.
