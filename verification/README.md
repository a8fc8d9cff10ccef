# Dahlia, verified

Dahlia is an event-driven workflow engine. A signal starts a run of every workflow that listens for its type; a run
evaluates conditions, performs actions one after another, and pauses at delay actions. A minute-bucket scheduler keeps
the paused runs' jobs in Redis lists and hands them back to the executors through an at-least-once queue. Runs are
stored under an optimistic lock on `updated_at`.

This project models that protocol in Dafny and proves what it keeps, over all runs, all interleavings and all patterns
of failing calls; and it proves the parts the protocol rests on: keys, timestamps, tokens, templates, the workflow cache,
the absence condition, the choice of versions, and the ZooKeeper tree. `dafny verify dfyconfig.toml` checks everything.

## How the model is laid out

- **The whole engine** (`Protocol`). A step system: any number of executor calls holding fresh or stale copies of runs, a
  queue with redelivery and a dead-letter queue, and the scheduler. Every remote call is one step that is done, refused,
  or done but reported failed; a call may be abandoned anywhere. The stored versions of a run are kept as a history, so
  that "no lost update" can be said. About it: `ProtocolSafety` and `ProtocolRuns` (what every step keeps, no paused run
  forgotten, fencing), `ProtocolRetries` (messages of calls that lost a write), `ProtocolOrigins`, `ProtocolLock` and
  `ProtocolWitness` (the lock when the clock repeats a millisecond), `ProtocolProgress` (the language of stored states and
  the indices), `ProtocolActions` and `ProtocolRestarts` (which actions are started and performed again),
  `ProtocolShortDelays` (nothing behind a short delay).
- **The scheduler** (`SchedulerSteps`, `SweepTimeline`, `SweepFates`: overlapping sweeps with real times; `SchedulerStore`,
  `SchedulerRuns`, `Scheduler`: the same program as a class with textual keys, each method tied to an effect function
  about which conservation and exactly-once are proved; `SchedulerStatus`: what a job's status says;
  `SchedulerRefinement`: every effect of the class is a sequence of steps of the step system). `RedisLists`, `Timing`,
  `Calendar`, `Keys` are below both.
- **The executor's code** (`Domain`, `ExecutorCode`). Run records are objects with setters, the executor's loops and early
  returns are methods; with any remote call failing they make exactly the calls that the positions of the engine make.
- **One executor alone** (`Executor`, `ExecutorImpl`). The same code on a store whose calls succeed, tied to functions:
  pausing and resuming is proved to mean the same as running in one go. `ActionExecutor` follows a delay from its
  nanoseconds to the minute of its job's bucket.
- **The two agree** (`ExecutorRefinement`, `TraceLanguage`, `ProtocolTraces`). Every trace of the executor alone is a run
  of the whole engine, and every run of the engine without crashes, failed calls and early or second deliveries stores
  beginnings of traces.
- **Messages** (`MessageQueue`): what deletes a message.
- **Signals and conditions** (`Rfc3339`, `Signals`, `ConditionEvaluator`), **signal handling** (`SignalHandler`, `SignalTiming`),
  **the workflow cache** (`WorkflowCache` as a step system, `WorkflowManager` as code), **pagination** (`Base64`,
  `Tokens`), **templates** (`Template`, `Variables`), **ZooKeeper** (`ZkTree`).
- `Text`, `Options` and `Remote` are shared.

The clock, new ids, the outcome of every remote call, verdicts of conditions and iteration orders of maps are parameters
or arbitrary choices, so every statement is about all of them.

## What is false of the code, and exactly when it is true

- A delay under 60 s sleeps inside the call and then pauses the run without a job. If job reads succeed, a stored pause has
  a job for its action in a list or a message if and only if its delay is a long one (`OnlyShortDelaysAreForgotten`;
  whether a list is still swept is `SweepFates`). Messages for earlier actions may still take the run back, but in no run
  does it ever get behind the short delay (`NothingBehindAShortDelay`, `PauseResumePreservesMeaning`).
- `resumeWorkflow` does not look at the status or the indices. Whatever has become of a run, an undeleted message for its
  action i is accepted and takes it back below exactly the actions behind i it had reached (`RedeliveryTakesTheRunBack`).
  The action index goes back at such a version and at no other (`IndicesGoBackOnlyByResume`), and an action is stored as
  started again if and only if the run was taken back below it before (`StartedAgainIffWentBack`). Each stored start is
  performed at most once (`EachStartPerformsOnce`), so an action is performed twice only after going back
  (`PerformedAgainOnlyAfterGoingBack`). In code: a message handled twice performs the tail twice (`HandleTwice`,
  `RedeliveryRepeatsTheTail`).
- The lock compares millisecond stamps. A write is accepted exactly when the setter that made the call's copy and the one
  that made the stored version read the same millisecond; if these are one step, it replaces the version it was computed
  from (`AcceptedIffSameMillisecond`, after a lost write `SameMillisecondBeatsTheLock`). If not, the FAILED of a loser can
  replace the record of the winner (`FailedReplacesTheWinner`). The safety theorems assume that the clock never repeats a
  stamp on one run.
- A lost lock is meant to be retried. The message of a call that has lost a write is deleted if and only if the call comes
  to a condition that does not pass or cannot be evaluated: `evaluateConditions` ignores its failed writes and returns
  success (`LostWriteIsRetried`).
- A signal's messages are queued before the signal is saved, while `Execute` begins by reading it: a message finds its
  signal if and only if some request has saved it before (`SentBeforeSaved`, `FoundIffSavedBefore`).
- A job whose record cannot be read is dropped: it stays scheduled if and only if the read succeeds or the removal that
  follows a failed read is refused (`FailedReadLosesJob`, `ReadFailureRun`).
- A push more than 70 s after `ScheduleJob` read the clock can miss every sweep (`WindowIsTight`,
  `SweptIffPushedBefore`); and once the minute of its cleanup has gone by, an id in a list stays there (`FateIsSealed`).
- Bucket keys and timestamps are in local time: when clocks go back an hour, two hours share keys
  (`ClockChangeSharesKeys`) and signals are missed by the absence window (`MissedAtClockChange`, exactly:
  `OffsetsShiftTheWindow`).
- A refresh reads one page of fifty workflows: the answer for a type is the repository's own if and only if the page took
  all workflows of the type or none of them (`RefreshIsExactIff`).
- An absence condition found false stays false while the wall clock is not set back (`AbsenceStaysFalse`); a clock set back
  before the earliest stamp that breaks it makes it true again, and only that (`SetBackClockForgets`).
- An id stands for one signal if and only if neither its type nor its organisation contains a `#` (`IdDeterminesSignal`).
- The map of template variables depends on iteration order if and only if two keys of one layer claim one name with
  different values (`OrderMattersIffConflict`).

Where the code and its comments disagree, the model follows the code. `evaluateAbsence` says it looks at the configured
duration; the duration is only parsed, the window is from the signal to now. `CreateSignalService` says a duplicate signal
is not processed twice; its messages are queued before the duplicate is noticed (`RepeatedSignalIsQueuedAgain`).

## Model

| member | source | states |
|---|---|---|
| ProtocolRuns.NoPausedRunIsForgotten | internal/service/workflow_executor.go:228-253 | In every interleaving of calls, redeliveries, crashes, sweeps and failed steps: while a run is stored as paused at a long delay, the job pushed by the call that stored it, and scheduled on the version right before, waits in its bucket or TEMP list, or a message carrying it is undeleted or dead-lettered, or its record read failed |
| ProtocolRuns.NoPausedRunIsForgottenIfReadsSucceed | internal/service/scheduler.go:211-220 | With job reads that do not fail, the last alternative never arises |
| ProtocolRuns.OnlyShortDelaysAreForgotten | internal/service/action_executor.go:137-158 | With job reads that succeed, a stored pause has a job for its action that is in the lists of its minute or carried by a message if and only if its delay is at least 60 s; no message names the short delay itself |
| ProtocolShortDelays.NothingBehindAShortDelay | internal/service/action_executor.go:137-144 | In every run, duplicates and failures included: no version of a run is behind a delay under 60 s of its workflow or completes it, no action behind it is performed or scheduled, and only a condition that does not pass makes the run COMPLETED |
| ProtocolShortDelays.StepStops | internal/service/workflow_executor.go:168-253 | Every step keeps every version, call and job of a run before each of its short delays |
| ProtocolRuns.QueuedMessageResumes | internal/service/workflow_executor.go:107-132 | From every state that keeps the invariant, any undeleted resume message can be handled whatever has become of its run: the three steps deliver, read and write are enabled and extend the run by ACTION_i_COMPLETED |
| ProtocolRuns.LoserNeverWrites | internal/service/workflow_executor.go:270-301 | Once a write of a call is rejected or lost, no later step of that call changes any run, not even the FAILED of handleActionFailure, performs an action, creates a job or pushes one |
| ProtocolRetries.LostWriteIsRetried | internal/consumer/executor_queue/impl/executor_impl.go:47-66 | Once a write of a call was rejected or refused, its return allows the deletion of its message if and only if it made the last write of evaluateConditions; after any loss behind the conditions the message stays |
| ProtocolRuns.NoLostUpdate | internal/repository/dynamodb/run_repo.go:56-87 | In every reachable store each version of a run is a setter's result on exactly the version it replaced, and no two versions share a stamp |
| ProtocolRuns.HistoryIsAPrefix | internal/repository/dynamodb/run_repo.go:62-69 | Stored versions are never withdrawn, changed or reordered by later steps |
| ProtocolRuns.TerminalStaysTerminal | internal/domain/workflow_run.go:90-143 | Whatever is delivered again, a run stored as COMPLETED or FAILED is never stored as TRIGGERED again |
| ProtocolLock.SameMillisecondBeatsTheLock | internal/repository/dynamodb/run_repo.go:65-68 | Over runs whose clock may repeat itself: after a write that was rejected or refused, the next write of the same call is accepted if and only if the version stored by then carries the stamp the setter of the lost write had read |
| ProtocolLock.AcceptedIffSameMillisecond | internal/repository/dynamodb/run_repo.go:62-69 | Over such runs, for every write: it is accepted exactly when the setter that made the copy and the one that made the stored version read one millisecond, and then replaces the very copy if these are the same step |
| ProtocolOrigins.RunKnown | internal/service/workflow_executor.go:114-125 | In every such run each stored version and each copy a call holds was made by a known earlier step, whose setter read the stamp it carries |
| ProtocolWitness.LoserReplacesWinner | internal/service/workflow_executor.go:288-301 | From any state in which two calls are about to start the same action, one with a replaced record: if both setters read one millisecond, the rejected call still replaces the other's ACTION_i_STARTED by its FAILED |
| ProtocolWitness.FailedReplacesTheWinner | internal/service/workflow_executor.go:288-301 | A run from the start of the system in which this happens to a redelivered resume message |
| ProtocolProgress.StatesFollow | internal/service/workflow_executor.go:78-312 | In every interleaving, duplicates and failures included: a run's first version is TRIGGERED and each later one was stored by resumeWorkflow as ACTION_i_COMPLETED or follows the one before it in the state language, a pause being left otherwise only for FAILED |
| ProtocolProgress.StepKeepsProgress | internal/service/workflow_executor.go:78-312 | Every step keeps each call's position in agreement with the state it holds and each version with its indices and with the one before it |
| ProtocolRestarts.IndicesGoBackOnlyByResume | internal/service/workflow_executor.go:114-128 | In every run the condition index never goes back, and the action index goes back exactly at a version stored by resumeWorkflow for a job whose index is smaller than the one it replaces |
| ProtocolRestarts.StartedAgainIffWentBack | internal/service/workflow_executor.go:168-226 | In every run action i is stored as started again if and only if, before that, resumeWorkflow took the run back below action i after it had been reached |
| ProtocolRestarts.EachStartPerformsOnce | internal/service/workflow_executor.go:207-256 | In every run an action is performed only by a call whose ACTION_i_STARTED is stored, and at most once for each such version |
| ProtocolRestarts.PerformedAgainOnlyAfterGoingBack | internal/service/workflow_executor.go:107-187 | Two performances of one action stem from two stored starts, between which resumeWorkflow took the run back below that action |
| ProtocolRestarts.RedeliveryTakesTheRunBack | internal/service/workflow_executor.go:107-132 | Every run of the engine with an undeleted message for action i can go on by delivering it: it is accepted over any status, the status stays, and the run is taken back below exactly the actions between i and the index it had reached |
| ProtocolActions.StepKeepsActs | internal/service/workflow_executor.go:107-285 | Every step keeps: performed actions have stored starts, no start is performed twice, no two calls hold one start, resumed versions complete a delay that was started before, and no job is pushed by two calls or twice |
| ProtocolRestarts.PushingIsPossible | internal/service/scheduler.go:143-158 | The guard on a call's push never holds it back in a reachable state: its job has a record and was not pushed before |
| ProtocolRuns.SweptIdsHaveJobs | internal/service/scheduler.go:316-335 | Every id a sweep works on has a job record with details to send, so no sweep step is held back |
| ProtocolRuns.StepKeepsInv | internal/service/workflow_executor.go:78-312 | The joint invariant of store, jobs, calls, pauses and messages is kept by every step of every component |
| ProtocolRuns.SchedulerInv | internal/service/scheduler.go:106-313 | Composed with the executors, the scheduler still conserves every pushed id and keeps it within its own minute's lists |
| ProtocolSafety.AcceptedIsCurrent | internal/repository/dynamodb/run_repo.go:62-69 | A write that the condition accepts was computed from the very record that is stored, stale reads notwithstanding |
| ProtocolSafety.SupersededStays | internal/service/workflow_executor.go:119-125 | A job whose base version and pause have been replaced can never become the stored pause's job again |
| SchedulerSteps.JobsAreConserved | internal/service/scheduler.go:180-313 | In every run of overlapping sweeps with any step failing, a pushed id is in the bucket or TEMP list of its minute, or was sent, or its record read failed |
| SchedulerSteps.StepKeepsAccounted | internal/service/scheduler.go:180-313 | Ids in lists and in sweeps were pushed before and stay within the two lists of their own minute |
| SchedulerSteps.OnlyFailedReadsDrop | internal/service/scheduler.go:213-220 | If every record read succeeds, nothing is ever dropped |
| SchedulerSteps.FailedReadLosesJob | internal/service/scheduler.go:213-220 | For an unsent id waiting only in the list its sweep works on, the read step keeps it waiting if and only if the read succeeds or the removal after the failed read is refused |
| SchedulerSteps.ReadFailureRun | internal/service/scheduler.go:211-220 | For any id and any times there is a run in which the job is created, pushed and swept, and one failed read leaves it neither waiting nor sent |
| SweepTimeline.PushedInTimeIsSwept | internal/service/scheduler.go:67-95 | A push within 70 s of the clock read comes before the late sweep of its bucket; from that sweep on the id is out of the bucket for good, in TEMP, sent or dropped |
| SweepTimeline.UnsentIsRetried | internal/service/scheduler.go:290-313 | An id unsent after that is in the work list of the cleanup sweep five minutes after its minute |
| SweepTimeline.SweptIffPushedBefore | internal/service/scheduler.go:258-287 | Once the late sweep of a minute has run, an id pushed to it is out of the bucket if and only if it was pushed before that sweep |
| SweepTimeline.PushedTooLateIsNeverSwept | internal/service/scheduler.go:258-287 | After the late sweep no step of any kind takes a later push out of the bucket |
| SweepTimeline.WindowIsTight | internal/service/scheduler.go:67-95 | One millisecond more than 70 s, and there is a run whose push misses the late sweep |
| SweepFates.OutIffMoved | internal/service/scheduler.go:180-287 | In every run an id is out of its bucket if and only if a transfer of its minute took effect after its push |
| SweepFates.OutIffMovedInTime | internal/service/scheduler.go:258-287 | Once the late tick of its minute has gone by, done or refused, that transfer is at the latest the one of the tick |
| SweepFates.AtMostThreeAttempts | internal/service/scheduler.go:67-95 | A main, a late and a cleanup sweep work on the ids of a minute at most once each |
| SweepFates.SentIffAttempted | internal/service/scheduler.go:180-313 | An id is sent if and only if a sweep started for its minute sends it |
| SweepFates.FateIsSealed | internal/service/scheduler.go:290-313 | Once the minute of its cleanup has gone by, whatever its ticks came to, and no sweep works on it, an id stays in the list it is in and is never sent if it has not been |
| Timing.BucketIsAhead | internal/service/scheduler.go:116-140 | The chosen minute is strictly after the minute of the clock read and never before the requested one; the time is kept exactly when the requested minute is later |
| Timing.DelayWithinAMinute | internal/service/scheduler.go:167-177 | For a delay d >= 0 with equal clock reads the bucket starts in (now+d-60s, now+d+60s]; from 60 s on nothing is adjusted and it starts no later than now+d |
| Timing.SweepMinutes | internal/service/scheduler.go:180-291 | The three sweeps visit a minute in that minute, one minute on and five minutes on |
| RedisLists.TransferMoves | internal/service/scheduler.go:20-27 | The script empties the bucket, appends its ids in order to TEMP and touches no third list |
| RedisLists.RemoveFirstTakesOne | internal/service/scheduler.go:249-253 | LREM with count 1 takes out exactly one occurrence, if there is one |
| Scheduler.Scheduler.ScheduleJob | internal/service/scheduler.go:106-164 | The job's time becomes the chosen one before anything is stored; the record is put first and the id pushed only then; success exactly when both calls report done |
| Scheduler.Scheduler.ScheduleWithDelay | internal/service/scheduler.go:167-177 | The job asked for is due the delay after the first clock reading; the caller gets it exactly when scheduling succeeded |
| Scheduler.Scheduler.ProcessJob | internal/service/scheduler.go:211-255 | Field by field, for every way its calls may end: COMPLETED exactly behind a send reported done whose last write took effect, else RUNNING exactly if the job was read and that write took effect, else as before; what is sent, dropped and taken off the list; no other record and no other field changes |
| SchedulerStatus.StatusAfter | internal/service/scheduler.go:222-246 | An attempt never makes a job COMPLETED unless its send is reported done; a failed send leaves RUNNING, or the status before if even that write was refused; a failed read leaves the record; nothing but status and stamp ever changes |
| SchedulerStatus.CompletedWasSent | internal/service/scheduler.go:222-246 | In every run of the code, whatever calls fail: a job stored as COMPLETED was sent |
| SchedulerStatus.SentIsTheScheduledJob | internal/service/scheduler.go:316-335 | In every such run whatever is sent under the id of a scheduled job goes to that job's queue with that job's details |
| Scheduler.Scheduler.ProcessCurrentMinuteBucket | internal/service/scheduler.go:180-208 | The sweep of the bucket of the minute the clock is in, for every way its calls may end |
| Scheduler.Scheduler.ProcessLateArrivals | internal/service/scheduler.go:258-287 | The same of the bucket of 60 000 ms before |
| Scheduler.Scheduler.CleanupMissedJobs | internal/service/scheduler.go:290-313 | Each id of the TEMP list of 300 000 ms before is processed again, in place |
| Scheduler.ScheduledJob.constructor | internal/domain/scheduled_job.go:31-43 | A new job is SCHEDULED and stamped with one clock reading |
| SchedulerStore.SweepConserves | internal/service/scheduler.go:180-255 | Whatever fails, as many copies of an id as bucket and TEMP held are still there or were sent or dropped by this sweep, none more often than the bucket held it; no other list is touched, no record appears or vanishes |
| SchedulerStore.CleanupConserves | internal/service/scheduler.go:290-313 | The same for the cleanup sweep and its TEMP list |
| SchedulerStore.ProcessedKeepsCopies | internal/service/scheduler.go:211-255 | processJob takes no copy off the list that it has not sent or dropped, and sends or drops at most once |
| SchedulerRefinement.ProcessJobRefines | internal/service/scheduler.go:211-255 | For every way its calls may end, processJob on textual lists does what its read, send and removal steps do on symbolic ones |
| SchedulerRefinement.SweepRefines | internal/service/scheduler.go:180-287 | The main and the late sweep are a Move and the steps of the jobs it returned, or nothing |
| SchedulerRefinement.CleanupRefines | internal/service/scheduler.go:290-313 | The cleanup sweep is a Cleanup and the steps of the jobs it read, or nothing |
| SchedulerRefinement.ScheduleRefines | internal/service/scheduler.go:106-164 | ScheduleJob is the creation of the record and the push to the bucket of its minute |
| SchedulerRefinement.CodeRunRefines | internal/service/scheduler.go:106-313 | Every run of the code is matched by a run of the step system that has pushed what the code has, so its invariants hold of the code |
| SchedulerRefinement.CodeConservesJobs | internal/service/scheduler.go:106-313 | After any calls ending in any way, an id whose push took effect is in the textual bucket or TEMP list of its minute, or was sent, or its record read failed |
| SchedulerRuns.EachJobIsSentOnce | internal/service/scheduler.go:180-313 | Without failures and overlap, at every moment of every run each job waits exactly once in its bucket, unsent and SCHEDULED, or was sent exactly once and is COMPLETED; every TEMP list is empty |
| SchedulerRuns.SweepSendsItsMinute | internal/service/scheduler.go:180-208 | At an offset of whole minutes a flawless sweep sends a waiting job if and only if the job's minute is the swept one, and leaves other jobs' records alone |
| SchedulerRuns.FlawlessSweep | internal/service/scheduler.go:180-208 | A flawless sweep sends the bucket's ids in order, once each, marks them COMPLETED and leaves bucket and TEMP empty |
| SchedulerRuns.KeyTextInjective | internal/service/scheduler.go:360-369 | One node's textual keys are as distinct as the symbolic bucket and TEMP keys of the step system |
| Keys.BucketKeyInjective | internal/service/scheduler.go:360-369 | At one offset of whole minutes two instants share a bucket key, and a TEMP key, exactly when they lie in the same minute |
| Keys.BucketKeysEqual | internal/service/scheduler.go:360-363 | In general bucket keys are equal exactly when the local minutes and the node ids are |
| Keys.BucketIsNeverTemp | internal/service/scheduler.go:366-369 | A node's bucket and TEMP keys never coincide; two nodes' keys do exactly when one id is the other plus _TEMP and the minutes agree |
| Keys.ClockChangeSharesKeys | internal/service/scheduler.go:360-363 | Across an hour's change of offset, instants an hour apart share their bucket key |
| Keys.WorkflowKeyInjective | internal/service/workflow_manager.go:219-221 | Cache keys are equal exactly when ids and versions are, colons in ids included |
| Calendar.DateOfIsRight | internal/service/scheduler.go:360-363 | The date taken apart from a day count is a valid Gregorian date and counts that many days, before and after year 1 |
| Calendar.DateOrder | internal/service/scheduler.go:360-363 | Dates compare as their day counts do |
| Calendar.SameMinute | internal/service/scheduler.go:360-363 | Two wall clocks agree in year, month, day, hour and minute exactly in the same local minute |
| Domain.WorkflowRun.SetConditionStatus | internal/domain/workflow_run.go:91-96 | State, index and stamp change, the status stays |
| Domain.WorkflowRun.SetActionStartedStatus | internal/domain/workflow_run.go:107-112 | State, index and stamp change, the status stays |
| Domain.WorkflowRun.SetActionCompletedStatus | internal/domain/workflow_run.go:115-120 | State, index and stamp change, the status stays |
| Domain.WorkflowRun.SetActionScheduledStatus | internal/domain/workflow_run.go:123-128 | State, index and stamp change, the status stays |
| Domain.WorkflowRun.MarkCompleted | internal/domain/workflow_run.go:131-136 | Status and state become COMPLETED, with one stamp for completion and update; the indices stay |
| Domain.WorkflowRun.MarkFailed | internal/domain/workflow_run.go:139-143 | Status and state become FAILED; indices and completion time stay |
| Domain.WorkflowRun.constructor | internal/domain/workflow_run.go:37-58 | A new run is TRIGGERED at indices 0 and stamped with its creation time |
| Domain.StateNamesAreDistinct | internal/domain/workflow_run.go:62-88 | No two states of a run share a name |
| Domain.ResumeRoundTrip | internal/service/workflow_executor.go:107-112 | Reading resume_from gives back the index it was printed from, also when more text follows the digits |
| Domain.ParsesExactlyNumbers | internal/service/workflow_executor.go:107-112 | resume_from is read exactly if digits, perhaps behind a sign, follow ACTION_, as the number of the longest run of digits; anything else is an error |
| Executor.PauseResumePreservesMeaning | internal/service/workflow_executor.go:107-187 | Over the first call and all resumes, every action is performed once and in order through the first failing one, ending COMPLETED if none fails and FAILED otherwise, if and only if every delay reached lasts at least 60 000 000 000 ns; else the run stops for good at the first shorter one |
| Executor.WholeSeconds | internal/service/action_executor.go:100-100 | The seconds handed on are those of the duration, cut toward zero, and they reach the threshold exactly if the duration is at least a minute |
| Executor.FailsExactly | internal/service/action_executor.go:39-50 | An action fails exactly if its call fails, its delay does not parse, it lasts a minute or more and cannot be scheduled, or its type is unknown |
| ActionExecutor.ExecuteDelay | internal/service/action_executor.go:90-166 | Over the scheduler: a delay under 60 000 000 000 ns sleeps for its whole seconds and stores nothing; a longer one stores one job for the executor queue, SCHEDULED, and appends its id to one bucket, which starts behind the clock read last, never after the delay has passed unless it is the very next minute, and at most 61 s before that |
| ActionExecutor.BucketOfDelay | internal/service/scheduler.go:116-177 | Those bounds, for every duration and every pair of clock readings |
| Executor.SegmentIsARange | internal/service/workflow_executor.go:168-187 | One call performs a contiguous range: to the end, through the first failure, or through the first delay |
| Executor.RangeAt | internal/service/workflow_executor.go:168-183 | The performed range lists its numbers in order, once each |
| Executor.WholeRunInLanguage | internal/service/workflow_executor.go:168-253 | The states stored by a call and its resumes follow one another in the state language |
| ExecutorImpl.RunRepository.Update | internal/repository/dynamodb/run_repo.go:56-87 | The item is replaced exactly when its stored stamp is the expected one or there is no item, and the call takes effect, reported or not; a rejected or refused write changes nothing; success exactly for an accepted write that is reported done |
| ExecutorImpl.RunRepository.Create | internal/repository/dynamodb/run_repo.go:36-54 | The new item is stored unconditionally unless the call is refused; success exactly when it is reported done |
| ExecutorCode.WorkflowExecutor.EvaluateConditions | internal/service/workflow_executor.go:136-165 | With any remote call failing: CONDITION_i is written before condition i is evaluated, a failed write is only logged; it passes exactly if every verdict does, else the first other one decides between a last write of COMPLETED and one of FAILED, whose result is ignored; exactly the calls of the engine's positions, in their order |
| ExecutorCode.WorkflowExecutor.StopRun | internal/service/workflow_executor.go:147-161 | That last write, and nothing else |
| ExecutorCode.WorkflowExecutor.PrepareAction | internal/service/workflow_executor.go:207-225 | ACTION_i_STARTED, then the log row, which is not tried after a failed write; success exactly if both are reported done |
| ExecutorImpl.WorkflowExecutor.ExecuteDelay | internal/service/action_executor.go:90-166 | An unparsable delay fails, one under 60 000 000 000 ns succeeds and schedules nothing, a longer one schedules the job that names this action, due after the whole seconds of the delay, or fails |
| ExecutorCode.WorkflowExecutor.ExecuteDelayAction | internal/service/workflow_executor.go:228-253 | The delay, for a long one the push of its job, ACTION_i_SCHEDULED and the log row, each only after the one before succeeded; a pause exactly if the last one did |
| ExecutorCode.WorkflowExecutor.ExecuteRegularAction | internal/service/workflow_executor.go:256-285 | The action, and if it succeeds ACTION_i_COMPLETED, whose failure is only logged |
| ExecutorCode.WorkflowExecutor.ExecuteSingleAction | internal/service/workflow_executor.go:190-204 | STARTED and the log row, then the delay or the regular branch, ending in an error, a pause or the next action |
| ExecutorCode.WorkflowExecutor.ExecuteActions | internal/service/workflow_executor.go:168-187 | The loop with its three exits makes, from any action on and whatever fails, exactly the calls of the engine's positions and ends as they do |
| ExecutorCode.WorkflowExecutor.HandleActionFailure | internal/service/workflow_executor.go:288-301 | FAILED is written, its result is ignored and the error returned |
| ExecutorCode.WorkflowExecutor.CompleteWorkflow | internal/service/workflow_executor.go:304-313 | COMPLETED is written; success exactly if that write succeeds |
| ExecutorCode.WorkflowExecutor.ExecuteNewWorkflow | internal/service/workflow_executor.go:95-104 | Once the run is created, conditions and then actions, success also if a condition does not pass, whatever remote calls fail |
| ExecutorCode.WorkflowExecutor.ResumeWorkflow | internal/service/workflow_executor.go:118-132 | Once the run is read, ACTION_i_COMPLETED; if that write fails nothing more is done, else the actions behind i |
| ExecutorCode.NextIsStep | internal/service/workflow_executor.go:78-312 | A step of the whole engine moves a call as the code's next request and its answer do, whatever other calls have done in between |
| ExecutorCode.CallsFollowTheCode | internal/service/workflow_executor.go:78-312 | In every run of the engine, from any position of a call to any later one, the call has gone through positions that the code goes through for some answers of its environment |
| ExecutorImpl.WorkflowExecutor.HandleMessages | internal/service/workflow_executor.go:53-187 | On a store whose calls succeed: handling the start message and then every job's message once performs and stores exactly the whole run, with both indices in range and never going back, and touches no other run; the remaining actions are the termination measure |
| ExecutorImpl.RunStaysInLanguage | internal/service/workflow_executor.go:78-312 | The states of a single-delivery run start with TRIGGERED and step through the conditions, the actions in order, and one terminal state that nothing follows |
| ExecutorImpl.ConditionsDecide | internal/service/workflow_executor.go:136-165 | The conditions through the first that does not pass are stored, in order; the run then ends COMPLETED if it did not pass and FAILED if it could not be evaluated; actions follow exactly if all pass |
| ExecutorImpl.WorkflowExecutor.HandleTwice | internal/service/workflow_executor.go:107-187 | On a store whose calls succeed: one resume message handled twice, over any stored record, performs and stores the whole tail of the run twice |
| ExecutorImpl.WorkflowExecutor.HandleMessagesAndOneAgain | internal/service/workflow_executor.go:53-187 | On a store whose calls succeed: a run handled to its end and then one resume message more give the run's actions and states, and then those behind that action again |
| ExecutorImpl.RedeliveryRepeatsTheTail | internal/service/workflow_executor.go:107-133 | After that, exactly the actions of the run behind the redelivered one have been performed twice, the others once |
| ExecutorRefinement.TraceIsARun | internal/service/workflow_executor.go:53-312 | For every workflow, whatever its conditions come to and whichever actions fail, the whole engine has a run without crashes and failed calls, each message delivered once and after the pause of its job, that stores exactly the states of the executor's trace and performs exactly its actions, in order |
| ProtocolTraces.OrderlyRunsAreTraces | internal/service/workflow_executor.go:53-312 | The converse, for every such run of the engine and each of its runs: it has stored the beginning of a trace of its workflow, performed only actions of that trace, and none twice |
| ProtocolTraces.StepKeepsTidy | internal/service/workflow_executor.go:53-312 | Every step of such a run keeps: a call about to resume finds its run paused by its own job, no two calls have one job, and every run has stored a beginning of a trace |
| TraceLanguage.BeginningsAreTraces | internal/service/workflow_executor.go:78-312 | The language of traces exactly: a sequence of states begins some trace of a workflow if and only if it starts with TRIGGERED and each state may follow the one before it, given the kinds of the actions |
| MessageQueue.Queue.ProcessMessage | internal/queue/sqs/sqs_queue.go:223-266 | A message leaves the queue exactly if its body does not parse or Execute ended without an error, and the delete took effect |
| MessageQueue.Queue.ProcessMessages | internal/queue/sqs/sqs_queue.go:184-221 | A batch is worked off in order until the consumer is stopping |
| MessageQueue.GoneIffHandled | internal/queue/sqs/sqs_queue.go:243-254 | After any part of a batch a message is gone if and only if one of its deliveries in it did not parse or was executed without an error, and its delete took effect |
| MessageQueue.FailuresAreRetried | internal/consumer/executor_queue/impl/executor_impl.go:38-66 | As long as every delivery of a readable message ends with a lost lock or any other error, the message stays on the queue, whatever the deliveries of others do |
| Rfc3339.FormatRoundTrip | internal/service/condition_evaluator.go:86-89 | Reading a printed timestamp gives the whole second of the instant and the offset |
| Rfc3339.ParsesExactlyStamps | internal/service/condition_evaluator.go:86-89 | Exactly the texts that show a date of the calendar, a time of the day and a readable zone are read, each as that instant and offset |
| Rfc3339.ParsesExactlyZones | internal/service/condition_evaluator.go:86-89 | A zone is Z, or a sign, hours up to 24 and minutes up to 60, as their seconds |
| Rfc3339.TextOrderIsTimeOrder | internal/repository/dynamodb/signal_repo.go:168-194 | With one offset and years of four digits, timestamps compare as text exactly as their whole seconds do |
| Rfc3339.TextOrderIsLocalOrder | internal/repository/dynamodb/signal_repo.go:168-194 | In general timestamps compare as text as their local seconds do, and between equal ones as their zones |
| Calendar.FourDigitYears | internal/repository/dynamodb/signal_repo.go:169-170 | The day counts whose year has at most four digits |
| Signals.SignalIdsEqual | internal/domain/signal.go:36-43 | Signal ids agree exactly when the type-and-organisation composites and the milliseconds do |
| Signals.IdDeterminesSignal | internal/domain/signal.go:36-43 | An id stands for one type, organisation and time if and only if neither text contains a # |
| Signals.SignalRepository.Create | internal/repository/dynamodb/signal_repo.go:33-67 | The insert is refused exactly for an id that is stored already, and never replaces an item |
| Signals.SignalRepository.GetSignalsSince | internal/repository/dynamodb/signal_repo.go:168-218 | Every stored signal of type, organisation and text range once, and no other |
| Signals.WindowSelectsSeconds | internal/repository/dynamodb/signal_repo.go:168-194 | With one offset the text range selects exactly the signals whose whole second lies in the window, both ends included |
| Signals.OffsetsShiftTheWindow | internal/repository/dynamodb/signal_repo.go:169-170 | Between different offsets a signal falls before the window exactly when its wall clock was earlier |
| Signals.MissedAtClockChange | internal/repository/dynamodb/signal_repo.go:169-170 | When clocks go back an hour, a signal less than an hour later is not selected |
| ConditionEvaluator.Evaluator.EvaluateAbsence | internal/service/condition_evaluator.go:72-123 | An error exactly for a bad duration, a bad timestamp or a failed query; otherwise it passes exactly if no other stored signal lies in the queried window |
| ConditionEvaluator.Evaluator.Evaluate | internal/service/condition_evaluator.go:59-68 | A numeric condition is its expression's boolean or error; an unknown type is an error; an absence condition is an error exactly for a bad duration, a bad timestamp or a failed query and otherwise false exactly if another signal is in the window |
| ConditionEvaluator.Evaluator.EvaluateAll | internal/service/condition_evaluator.go:36-56 | True if and only if every condition passes: none of an unknown type, every number true, every absence answered and undisturbed; an error, or false, if and only if the first condition that does not pass is unanswered, or answered |
| ConditionEvaluator.AbsenceIsExact | internal/service/condition_evaluator.go:72-123 | With one offset it passes exactly if no other signal of its type and organisation came in a second from the signal's to the current one |
| ConditionEvaluator.AbsenceStaysFalse | internal/service/condition_evaluator.go:72-123 | An absence condition evaluated to false is false at every later evaluation that is answered, whatever signals have been created in between, as long as the wall clock is not set back |
| ConditionEvaluator.SetBackClockForgets | internal/service/condition_evaluator.go:103-122 | For any stored signals, an evaluation that is answered finds the condition false exactly when the text of its clock is not before the earliest stamp of a signal that breaks it |
| ConditionEvaluator.SomeBreaksFirst | internal/service/condition_evaluator.go:103-122 | Whenever the condition is false at all, there is such an earliest signal |
| ConditionEvaluator.SameSecondBreaks | internal/service/condition_evaluator.go:86-122 | If another signal of the same second is stored, the condition evaluates to false, even if that signal came before the signal itself |
| SignalHandler.FilterLatestVersions | internal/handler/signal_handler.go:133-153 | Every workflow id present once, at its highest version |
| SignalHandler.ChoosesTheMaximum | internal/handler/signal_handler.go:133-153 | An id is chosen at a version if and only if it occurs at that version and at no higher one |
| SignalHandler.ChoiceIsOrderFree | internal/handler/signal_handler.go:133-153 | The chosen ids and versions depend neither on order or repetition of the input nor on the order of the map |
| SignalHandler.Handler.CreateSignalService | internal/handler/signal_handler.go:38-130 | One message is attempted per served workflow id, failed sends are skipped, then the signal is saved, replacing none; an error exactly if the lookup failed or the save is not reported done; only a failed lookup queues nothing |
| SignalHandler.OneMessagePerWorkflow | internal/handler/signal_handler.go:59-84 | With sends that succeed, the queue gets exactly one message per workflow id, at its highest version, and the reported count is their number |
| SignalHandler.QueuedExactly | internal/handler/signal_handler.go:59-84 | However sends end, the queue gets a message for exactly the chosen workflows whose send was not refused |
| SignalHandler.ReportedCounts | internal/handler/signal_handler.go:62-84 | The count in the answer is the number of sends reported done |
| SignalHandler.RepeatedSignalIsQueuedAgain | internal/handler/signal_handler.go:86-113 | After a call that saved a signal, a second call with it, served any workflows and with any outcomes, changes no stored signal and is answered as for a new one; it queues again unless each of its sends is refused |
| SignalTiming.HandlerIsItsSteps | internal/handler/signal_handler.go:59-113 | A request handled without interference does in steps what the handler does in one go |
| SignalTiming.FoundIffSavedBefore | internal/service/workflow_executor.go:55-60 | In every interleaving of requests and executors a message finds its signal if and only if a request with that id has saved it before |
| SignalTiming.SentBeforeSaved | internal/handler/signal_handler.go:59-113 | A message handled right after it was sent misses its signal exactly if no other request has saved it, since a request saves after its last send |
| SignalTiming.FoundForGood | internal/repository/dynamodb/signal_repo.go:33-67 | A signal that is stored is found by every later read, unchanged |
| WorkflowCache.GetWorkflowIsTransparent | internal/service/workflow_manager.go:143-172 | In every interleaving of creation, refresh and the locked sections of all getters, a workflow that is returned is the repository's record of that id and version, then and ever after |
| WorkflowCache.GetWorkflowFinds | internal/service/workflow_manager.go:143-172 | In every reachable state the write section, if its read succeeds, returns and remembers the record of every version in the repository and no other; if it fails, and in the read section, exactly the cached ones are returned |
| WorkflowCache.NoPartialHit | internal/service/workflow_manager.go:75-121 | In every reachable state a type is answered from memory exactly if it is indexed, so a partial hit never happens; what is answered is stored workflows of that type, each once |
| WorkflowCache.AnswerIsRemembered | internal/service/workflow_manager.go:104-137 | The answer of a query is what memory serves for the type from then on; no other type and no cached workflow is touched |
| WorkflowCache.StepKeepsInv | internal/service/workflow_manager.go:75-205 | Every indexed key is cached, under its own type, once, and every cached workflow is the stored record its key names |
| WorkflowCache.RefreshServesPage | internal/service/workflow_manager.go:175-205 | Right after a refresh the indexed answer for a type is exactly the page's part of it |
| WorkflowCache.RefreshCachesPage | internal/service/workflow_manager.go:186-202 | And a version is cached exactly if the page has it |
| WorkflowCache.RefreshIsExactIff | internal/service/workflow_manager.go:175-205 | The answer after a refresh is the repository's own if and only if the page took all workflows of the type or none |
| WorkflowCache.UpToFiftyIsExact | internal/service/workflow_manager.go:180-198 | With at most fifty workflows every answer after a refresh is the repository's own |
| WorkflowCache.IndexedAnswerIsFrozen | internal/service/workflow_manager.go:104-137 | Without a refresh an indexed type keeps its answer, the empty one included, whatever is created |
| WorkflowManager.WorkflowRepository.Create | internal/repository/dynamodb/workflow_repo.go:32-51 | A version is inserted exactly if it is not there, and never replaced |
| WorkflowManager.WorkflowRepository.GetBySignalType | internal/repository/dynamodb/workflow_repo.go:98-124 | All workflows of the type, each once |
| WorkflowManager.WorkflowRepository.List | internal/repository/dynamodb/workflow_repo.go:126-177 | The first page holds as many distinct records as limit and table allow |
| WorkflowManager.WorkflowManager.GetWorkflowsBySignalType | internal/service/workflow_manager.go:75-140 | The indexed answer, changing nothing; or else all stored workflows of the type, after which that very answer is served from memory; an error changes nothing |
| WorkflowManager.WorkflowManager.GetWorkflow | internal/service/workflow_manager.go:143-172 | The cached workflow, or else the record, which is remembered; with the invariant, if the read succeeds a workflow is returned exactly if the repository has it, else exactly if it is cached, and it is always the repository's |
| WorkflowManager.WorkflowManager.RefreshCache | internal/service/workflow_manager.go:175-205 | Both maps are rebuilt from one page of fifty; an error leaves them alone |
| Base64.Base64RoundTrip | internal/repository/dynamodb/run_repo.go:317-325 | Decoding undoes encoding on all byte strings |
| Base64.DecodesIffPadded | internal/repository/dynamodb/run_repo.go:325-329 | Exactly whole groups of four symbols decode, the last with at most two padding characters |
| Base64.TestVectors | internal/repository/dynamodb/run_repo.go:317-317 | The encoding is the standard one, on vectors of section 10 of RFC 4648 |
| Tokens.TokenRoundTrip | internal/repository/dynamodb/run_repo.go:292-362 | Encoding a key of text, number and binary attributes never fails, the token is never empty, and decoding it gives the key back |
| Tokens.TagRoundTrip | internal/repository/dynamodb/run_repo.go:299-358 | Each attribute survives its tag, binary ones through a second layer of base64 |
| Tokens.UntagExactly | internal/repository/dynamodb/run_repo.go:335-358 | A text is a tagged value exactly behind S:, N: or, if what follows is base64, B: |
| Tokens.CursorExactly | internal/repository/dynamodb/run_repo.go:320-362 | Only the empty token starts a listing; a token is refused exactly if it is no base64, no JSON map of strings, or holds a text that is no tagged value; else it stands for the key of those values |
| Tokens.EncodingFailsIff | internal/repository/dynamodb/run_repo.go:299-310 | Encoding fails if and only if some attribute is of another kind |
| Tokens.EncodeNextToken | internal/repository/dynamodb/run_repo.go:292-318 | In whatever order attributes are visited, the token of the key; no key gives the empty token |
| Tokens.DecodeNextToken | internal/repository/dynamodb/run_repo.go:320-362 | In whatever order they are visited, the key, or an error if any layer or any attribute is malformed; the empty token is the start |
| Tokens.ReadPage | internal/repository/dynamodb/run_repo.go:116-167 | The next rows up to the limit, with a token that leads on behind the last of them whenever rows are left |
| Tokens.FollowTokens | internal/repository/dynamodb/run_repo.go:116-167 | Following tokens from the empty one lists every item exactly once and in order, for every limit and wherever the store marks the end; the rows behind the cursor decrease |
| Template.MatchEndIsRight | internal/service/action_executor.go:174-176 | The scanner finds a match at a position exactly if the pattern matches there, and its end is the only possible one |
| Template.ReplaceAllStringFunc | internal/service/action_executor.go:174-196 | One pass from left to right computes the leftmost replacement |
| Template.ReplacedIsLeftmost | internal/service/action_executor.go:174-196 | The result is the template stitched together around any list of leftmost, non-overlapping matches, so there is one way only |
| Template.LeftmostCutsExist | internal/service/action_executor.go:174-176 | Every template has such a list |
| Template.UnrenderedIsVerbatim | internal/service/action_executor.go:190-194 | Literals and matches concatenate back to the template: what is kept verbatim is kept in place |
| Template.ValueIsNotRescanned | internal/service/action_executor.go:176-183 | A placeholder becomes its value, even if that looks like a placeholder |
| Variables.BuildVariableMap | internal/service/action_executor.go:200-227 | The layers in order, for whatever iteration orders of the two maps; a name that no run context, value or metadata key claims stands for the signal's id, type, organisation or timestamp if it is signal_id, signal_type, org_id or timestamp, and for nothing otherwise |
| Variables.PrecedenceHolds | internal/service/action_executor.go:200-227 | Without conflicts, a name is resolved by run context, then value, then metadata, then built-ins, whatever the iteration orders |
| Variables.ClaimedNames | internal/service/action_executor.go:210-225 | Said by the maps themselves: the run context, then the value, then the metadata, in each the key spelled like the name before the one behind the prefix |
| Variables.UnclaimedNames | internal/service/action_executor.go:203-207 | A name none of them claims stands for one of four fields of the signal or for nothing, whatever conflicts there are among other names |
| Variables.OrderMattersIffConflict | internal/service/action_executor.go:210-219 | A layer's result depends on iteration order if and only if a key and its qualified spelling are both keys with different values |
| Variables.NoQualifiedKeysNoConflict | internal/service/action_executor.go:210-219 | If no key starts with its layer's prefix, there is no conflict |
| Variables.FallbackIsNeverUsed | internal/service/action_executor.go:230-248 | Whenever getNestedValue would find a value, the qualified name is a variable already |
| Variables.ReplaceTemplateVariables | internal/service/action_executor.go:169-197 | Every leftmost match is replaced by the value its trimmed name resolves to, or kept; a template that is one placeholder becomes the run context's value or, if nothing claims its name, the signal's field of that name or itself |
| Variables.TrimSpaceIsExact | internal/service/action_executor.go:178-178 | The name is what lies between the first and the last character of a placeholder that is no space |
| ZkTree.Coordinator.UpsertNode | internal/coordinator/zk/zk_coordinator.go:166-198 | On success the node holds the data; the tree stays closed under parents, no other node changes, only empty ancestors are added, also on errors; a path without a slash panics, a valid one over reliable calls succeeds |
| ZkTree.Coordinator.UpdateNode | internal/coordinator/zk/zk_coordinator.go:224-257 | The same from the other side; an existing node's update adds no node, and the two methods end although each may call the other |
| ZkTree.Coordinator.EnsureParentPath | internal/coordinator/zk/zk_coordinator.go:364-394 | On success the parent is there; only empty ancestors are added and nothing else changes; the recursion ends since parents are shorter |
| ZkTree.Coordinator.FindLastSlash | internal/coordinator/zk/zk_coordinator.go:396-403 | The last slash, or -1 if there is none |
| ZkTree.AncestorsPresent | internal/coordinator/zk/zk_coordinator.go:363-394 | In a tree closed under parents every ancestor of a node is there |
| ZkTree.ParentIsValid | internal/coordinator/zk/zk_coordinator.go:369-373 | The parent cut out of a valid path is a valid path |

## Left out

- HTTP handlers, routing, DTOs, middleware, dependency injection, logging, Slack and webhook calls: plumbing; performing an action is one step that succeeds or fails.
- The inside of DynamoDB, Redis, SQS and ZooKeeper: maps, lists and queues whose calls end in one of three ways. Pages cut short at 1 MB, the Lua argument limit, a BETWEEN with its bounds the wrong way round, and ephemeral nodes, sessions and watches of ZooKeeper are not modelled.
- The expression language of numeric conditions, JSON and attribute marshalling, and the literals of parseDuration: parameters. The JSON codec of tokens is assumed faithful; everything else is assumed to come back as it was stored.
- Action log rows: never read back, present only as calls whose failure matters; the ones whose failure is only logged are left out. SetActionStatus, executeJobDirectly and WorkflowRepository.Update are never called; transparency of the cache rests on the last.
- Protocol: a setter and the conditional write after it are one step, since the stamp is only compared for equality; the scheduler's status writes are left to SchedulerStore; messages that do not parse are left to MessageQueue; the read of signal and workflow at the start of Execute is folded into its first step; when it finds the signal is SignalTiming.
- ExecutorImpl.WorkflowExecutor.ResumeWorkflow: no store call fails here, unlike in ExecutorCode; and a negative index, which no job is scheduled with, is left out.
- ExecutorImpl.WorkflowExecutor.HandleMessages: each message is handled once by one worker and no store call fails; all else is Protocol and ExecutorCode.
- ExecutorImpl.WorkflowExecutor.HandleTwice: no store call fails; redelivery with failures is ProtocolRestarts.
- ExecutorImpl.WorkflowExecutor.HandleMessagesAndOneAgain: no store call fails; redelivery with failures is ProtocolRestarts.
- MessageQueue.FailuresAreRetried: how Execute ends is a parameter of the delivery; how it ends after a lost write is ProtocolRetries.LostWriteIsRetried.
- SignalTiming: the reads of GetItem are those of the last save; a replica that lags behind is not modelled.
- ZkTree: one session at a time, so that an insert and an update cannot call each other forever; the client library's rules for dots and control characters in names are not part of ValidPath.
- Rfc3339.Parse: reads exactly the printed layout; fractional seconds and one-digit hours, which package time also reads, never occur in stored stamps.
- Domain.ParseResume: does not model 64-bit overflow of the index or white space that Sscanf would skip, since resume_from is always printed from an index.
- ActionExecutor.ExecuteDelay: a run context that lacks one of its keys is an error in the code; executors always fill it, so the lookups are left out, and the job details are a parameter.
- Executor.DelaySeconds: truncation of the exact quotient; the rounding of durations above 2^53 ns to floating point is not modelled.
- Tokens.ReadPage: a token whose key is no longer in the index goes on at the end; rows are never deleted here.
- Start, Stop and the worker loops: lifecycle only.
