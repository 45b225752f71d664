# Verification of the evaluation-job service

This project models the asynchronous evaluation service in Dafny and proves what it promises about jobs,
whatever the interleaving of its actors. `dafny verify dfyconfig.toml` checks all of it.

## What is modelled

**The job protocol.** Submitters, the queue consumer (`process`) and any number of polling workers
(recover stale, claim oldest, `process_claimed`) share one job store. `Protocol` is a step relation over the
jobs and one program counter per actor. One step is one lock section of the in-memory store, one transaction
of the Postgres store, or one stretch of code between two such calls; the clock never goes back, and an actor
may crash at any step. Audit events, metric counters and the list of claims are part of the state. The same
relation describes both stores through a `Backend` flag, so that `set_succeeded` and `set_failed` take two
steps in memory and one in Postgres.

- `Invariants`: the inductive invariant over every reachable state.
- `Lifecycle`: a job succeeds at most once, settled jobs stay settled, a recorded result is the score of the
  submitted request, claims are exactly attempts 1..`attempt_count`, status changes are bounded by twice the
  attempts granted, and processing settles the job.
- `Conservation`, `Events`, `Announcements`: audit events and counters account for every job.
- `Successes`, `Timestamps`: the message, claim time and time stamp of every job.
- `Failures`: what FAILED means, and exactly when a job fails with attempts left.
- `Holders`: who works on a RUNNING job, and why recovery never reaches a job that runs through `process`.
- `Lease`: a claim is a lease. Workers that finish within `stale_job_seconds` never share a job; when another
  joins one that is later than that.
- `Scenarios`: runs from the start that reach the late worker, the early failure, the lease that `process` breaks,
  the success with the marks of earlier attempts and the abandoned job.
- `Refinement`: every in-memory run is a Postgres run.
- `Combined`: with one queue consumer and no polling workers the queue drains in order.
- `Shutdown`: the steps of that consumer joined with those of the queue itself, so that `stop` says what becomes
  of the jobs.
- `RowLocks`: Postgres operations split into taking row locks and committing are equal to atomic ones in
  commit order.
- `LockedPrograms`: the worker programs over those locks. Their runs are runs of `Protocol` with a store whose
  claims and recoveries may skip rows, so what is proved of all runs holds of them.

**The code as it stands.** `Repository`, `JobService`, `JobQueue`, `RateLimit`, `Resilience` and `Metrics` hold classes
and methods with the loops and in-place updates of the source, each proved against a function that says what
it does (`Store`, `Jobs`, `StableSort` and the functions beside the classes). The steps of `Protocol` are
built from the same functions, and `Undisturbed` proves that an actor of `Protocol` whom nobody disturbs does
to jobs, audit and counters exactly what the methods do. `Rounds` shows that the rounds of the worker loop make
progress.

**Self-contained parts.** The fixed-window rate limiter with its exact bound over sliding intervals
(`RateLimit`), retries and the evaluator's time bound (`Resilience`), base64url (`Base64`, the alphabet of
section 5 of RFC 4648), compact tokens (`Jwt`, section 7.1 of RFC 7515 and section 4.1.4 of RFC 7519), the
mock score (`Scoring`, over `Words`) and the metrics registry with its label printer (`Metrics`, Prometheus text
exposition format 0.0.4, section "Text format details").

## Facts about the code that the model keeps

- A FAILED job need not have used up its attempts. A success that finds its job requeued is rejected, and
  `_record_failure` then fails the job, because `set_failed` accepts QUEUED
  (`Failures.LateSuccessFailsTheJob`). It means that the attempts are used up exactly when no failure handler
  found the job open with attempts left (`Failures.FailedEarlyIff`).
- `process` called for a job that is already RUNNING fails that job: `set_running` rejects, and
  `_record_failure` accepts RUNNING. For a settled job it only raises (`Failures.ProcessFailsARunningJob`). So one
  call of `process` among polling workers takes a job from a worker that is within its lease
  (`Scenarios.ProcessBreaksALease`).
- `set_running` counts no attempt and sets no claim time, so recovery never picks up a job that runs through
  `process`, even when its consumer has crashed (`Holders.UnclaimedJobWaitsForItsActors`,
  `Holders.AbandonedForGood`).
- In memory a job is SUCCEEDED without a result for as long as its worker is between the two lock sections
  of `set_succeeded`, and then only (`Lifecycle.ResultIsOwedByExactlyOne`, `Scenarios.PendingResultIsReachable`).
- A SUCCEEDED job still carries the message of recovery if it was ever requeued (`Successes.OpenMessageIff`). It
  still has its claim time if it is in memory and its last start was a claim (`Successes.ClaimTimeIff`).
  `Scenarios.MarkedSuccessIsReachable` leads to such a job. A FAILED job keeps its claim time only in memory, and
  only if a handler failed it (`Successes.FailedClaimTime`).
- The loop of a polling worker ends when `process_claimed` re-raises (`JobService.EvaluationWorker.Run`); the
  queue loop logs what a handler raises and goes on (`JobQueue.RoundTakesOne`).
- The first call in a window is admitted even with a limit of 0 or less, so the effective limit is
  `max(1, limit)`.

## Model

| member | source | states |
|---|---|---|
| Lease.LeaseExclusivity | app/services/worker.py:40-52 | In every run of polling workers in which no live worker has been at work longer than `stale_job_seconds` after its claim, no job is worked on by two live workers, each still holds the claim it was given, and the success it is about to record is accepted. |
| Lease.LateWorkerIsJoined | app/storage/in_memory.py:50-88 | What one round of another worker does to the job of a worker at work, in any state of the store: the job changes if and only if that worker is past the bound (and the row is not skipped), and a second live worker is put on it if and only if, moreover, an attempt is left and the claim after the recovery falls on it. |
| Scenarios.LateWorkerIsReachable | app/services/worker.py:40-52 | From every initial state with two actors a run leads to a worker past the bound, with attempts left and everyone else idle. |
| Scenarios.SharedJobIsReachable | app/services/worker.py:40-52 | And a run leads to two live workers on one job. |
| Lifecycle.SucceedsAtMostOnce | app/storage/in_memory.py:93-129 | However many workers, crashes, requeues and late writes, at most one step of a run moves a given job to SUCCEEDED, and it was never FAILED before. |
| Lifecycle.JobsEndure | app/storage/in_memory.py:113-129 | From any state of a run to any later one: SUCCEEDED and FAILED are absorbing, a recorded result stays, and id, tenant, project, request, budget and creation time never change. |
| Lifecycle.EveryJobWasSubmitted | app/services/job_service.py:30-44 | Every job of every state was created by one submission of the run, QUEUED, without attempt, claim, result or message, and has that submission's id, tenant, project, request, budget and instant. |
| Lifecycle.RecordedResultIsTheScore | app/services/job_service.py:113-128 | A recorded result belongs to a SUCCEEDED job and is the score of the request submitted for it, whichever attempt wrote it. |
| Lifecycle.ClaimsCountAttempts | app/storage/in_memory.py:50-67 | The claims made on a job are attempts 1, 2, ..., `attempt_count`, each once. |
| Lifecycle.NoStrandedJobs | app/storage/in_memory.py:50-88 | `attempt_count` stays within `max_attempts`, a QUEUED job is unclaimed with an attempt left, and a claim finds nothing exactly when no job is QUEUED. |
| Jobs.EvolvingKeepsBudget | app/storage/in_memory.py:50-129 | Every legal change of a job keeps it within its budget, never raises the termination measure, and strictly lowers it when the status changes. |
| Lifecycle.JobChangesAtMostTwicePerAttempt | app/storage/in_memory.py:50-129 | Over a whole run a job changes status at most twice for each attempt it was given, counting what it has left. |
| Lifecycle.TotalChangesAreBounded | app/storage/in_memory.py:50-129 | Summed over all jobs, the status changes of a run plus those still possible are at most twice the attempts granted. |
| Lifecycle.ProcessedJobIsSettled | app/services/job_service.py:74-169 | In every run, once `process` or `process_claimed` has returned or raised for an existing job, that job is SUCCEEDED or FAILED, whatever it was before and whatever others did meanwhile. |
| Lifecycle.ProcessingEnds | app/services/job_service.py:82-111 | An actor takes at most seven steps of its own between reading a job and the end of `process`, in any interleaving. |
| Lifecycle.ProcessingIsNeverStuck | app/services/job_service.py:113-148 | In every state that satisfies the invariant an actor at work on a job has a step it can take. |
| Lifecycle.ResultIsOwedByExactlyOne | app/storage/in_memory.py:93-99 | A job is SUCCEEDED without a result if and only if an actor stands between the two lock sections for it, that actor is unique, and with single transactions the result is always there. |
| Failures.FailedEarlyIff | app/storage/in_memory.py:69-111 | Over every run a job is FAILED with attempts left if and only if some `set_failed` of a failure handler found it open with attempts left; otherwise FAILED means the attempts are used up. |
| Failures.StepFailsEarlyIff | app/storage/in_memory.py:101-111 | One step leaves a job FAILED with attempts left if and only if it was so before or the step is such a `set_failed`. |
| Failures.LateSuccessFailsTheJob | app/services/job_service.py:126-148 | A success about to be recorded is accepted exactly if its job is RUNNING; if not, failure handling fails the job with attempts left if and only if the job has been requeued, and leaves a settled job alone. |
| Failures.ProcessFailsARunningJob | app/services/job_service.py:82-111 | In every run, when the `set_running` of `process` finds its job not QUEUED, its failure handling fails the job if that is open by then, claimed by somebody or requeued, and changes no job if it is settled, whatever the others did in between. |
| Scenarios.ProcessBreaksALease | app/services/job_service.py:82-111 | From every initial state with two actors, and any `stale_job_seconds` of 0 or more, one call of `process` among polling workers leads to a job that is FAILED with attempts left while the worker that claimed it is evaluating it, though every live worker was within `stale_job_seconds` in every state of the run. |
| Successes.OpenMessageIff | app/storage/in_memory.py:82-99 | Over every run a job that has not failed, a SUCCEEDED one included, has the message of recovery if and only if some recovery found it stale with attempts left, and otherwise none. |
| Successes.ClaimTimeIff | app/storage/in_memory.py:62-67 | Over every run a QUEUED job has no claim time; a RUNNING one has the instant of its last start if that was a claim, and none if it was `set_running`; a SUCCEEDED one has in memory what it had while RUNNING, and in Postgres none. |
| Successes.FailedClaimTime | app/storage/in_memory.py:78-111 | Over every run a FAILED job has no claim time in Postgres, nor if recovery timed it out, which is so exactly if it has the time-out message; in memory one failed by a handler has the claim time it had when it failed. |
| Timestamps.ChangeIsStamped | app/storage/in_memory.py:64-129 | Whatever step changes a job, its time stamp is then the instant of that write. |
| Timestamps.UpdatedAtIsTheLastWrite | app/storage/in_memory.py:64-129 | Over every run the time stamp of a job is the instant of the last step that created or changed it. |
| Timestamps.StampsAreInTime | app/storage/in_memory.py:64-129 | If no transaction reads the clock before its write takes effect, creation, last update and the present are in this order for every job of every state. |
| Scenarios.MarkedSuccessIsReachable | app/storage/in_memory.py:82-99 | From every initial state with two actors a run leads to a SUCCEEDED job with the message of recovery, and in memory, but not in Postgres, with its claim time. |
| Scenarios.PendingResultIsReachable | app/storage/in_memory.py:93-99 | In memory a run leads from every initial state with two actors to a job SUCCEEDED without a result. |
| Failures.MessagesTellTheFailure | app/storage/in_memory.py:78-83 | Over every run the time-out message means FAILED and out of attempts; a FAILED job without it has the message of failure handling or an actor owes it; a job that failed with attempts left never has the time-out message. |
| Scenarios.EarlyFailureIsReachable | app/services/job_service.py:145-157 | From every initial state with two actors a run leads to a job FAILED with attempts left though its evaluation succeeded. |
| Holders.RunningJobsAreHeld | app/services/job_service.py:74-148 | In every state of every run each RUNNING job has an actor, live or crashed, that is at work on it. |
| Holders.NothingRunsAtRest | app/services/job_service.py:74-148 | With no actor at work, and none crashed at work, no job is RUNNING. |
| Holders.RecoveryMovesIff | app/storage/in_memory.py:72-76 | Recovery changes a job if and only if it is RUNNING with a claim before the cutoff (and its row is not skipped). |
| Holders.UnclaimedJobWaitsForItsActors | app/storage/in_memory.py:75-91 | A job RUNNING without a claim is unchanged over any stretch of a run, recovery or not, unless an actor at work on it takes its final write, and settled if one does. |
| Holders.AbandonedForGood | app/storage/in_memory.py:69-91 | If moreover no live actor has it and its id is not queued, it stays RUNNING and unchanged for the rest of the run, unless `process` is called on it again. |
| Scenarios.AbandonedJobIsReachable | app/services/queue.py:36-47 | From every initial state with two actors a run in which the consumer crashes leads to such a job. |
| Invariants.RunInv | app/services/job_service.py:74-169 | Every state of every run satisfies the invariant: budgets and results of all jobs, what each program counter may rely on, and one owner at most for each settled job. |
| Invariants.StepEvolves | app/storage/in_memory.py:50-129 | Every step changes every job only in a legal way (the status moves along the allowed edges, a result is written once and is the score), and a job it adds is new. |
| Conservation.OneTerminalEventPerJob | app/services/job_service.py:92-110 | Over every run a job has at most one terminal audit event, which tells its final status and the score of its own request. |
| Conservation.CountersAreExactAtRest | app/services/worker.py:42-45 | With every actor at rest and none crashed: the queued counter is the number of jobs, the succeeded counter the number SUCCEEDED, the failed counter plus recovery time-outs the number FAILED, and the recovered total requeues plus time-outs. |
| Events.CountersCountEvents | app/services/job_service.py:44-53 | In every state of every run, crashes or not, the queued, succeeded and failed counters are the numbers of audit events of their kinds. |
| Events.OneEventPerSettledJob | app/services/job_service.py:92-110 | With every actor at rest and none crashed, a job has a terminal audit event if and only if it is settled and recovery has not timed it out, and then exactly one; a timed-out job is FAILED. |
| Events.TimedOutIff | app/storage/in_memory.py:78-80 | Over every run a job has the time-out message if and only if some recovery found it stale and out of attempts. |
| Announcements.RunningEventsCountStarts | app/services/job_service.py:83-126 | Over every run, crashes included, the job_running events of a job and the actors still to record one are together as many as its starts, by a claim or by `set_running`. |
| Announcements.OneQueuedEventPerJob | app/services/job_service.py:43-53 | Over every run a job has one job_queued event, unless its submitter is still to record it or crashed before it did. |
| Refinement.InMemoryRefinesPostgres | app/storage/postgres.py:150-176 | Every interleaved run of the in-memory store, two lock sections per final write, is shadowed state by state by a run of the Postgres store with the same labels less the second sections. |
| Refinement.StepRefines | app/storage/in_memory.py:93-111 | Of related states, one in-memory step leads to states related again by the same Postgres step, or by none when it is a second lock section. |
| Refinement.ChoiceIsOldest | app/storage/postgres.py:95-105 | The job the in-memory store claims is an oldest claimable row of a related Postgres store, and nothing is claimed only if nothing there is claimable. |
| LockedPrograms.SelectWithoutLocks | app/storage/postgres.py:95-105 | With no row locked the select may return a row, or none, if and only if that is a claim choice of the protocol that skips nothing. |
| Refinement.RelatedMeansSame | app/storage/postgres.py:147-176 | Related states agree on status, result, message, attempt count, claim time of open jobs, queue, audit and counters for every job that no actor holds between two lock sections. |
| Combined.QueueHoldsTheQueuedJobs | app/services/queue.py:36-47 | With one consumer, whoever crashes: the queue is the untaken end of the ids enqueued, in order and without repetition; an enqueued job is QUEUED exactly while its id waits or has just been taken; `set_running` finds its job QUEUED; and a job not enqueued is QUEUED and waits for its submitter. |
| Combined.DrainedQueueSettlesEverything | app/services/job_service.py:30-111 | With an empty queue and nobody in the middle of a program, crashed or not, every job is settled, and if no evaluation failed every job SUCCEEDED with the score of its own request. |
| Shutdown.StopSettlesTakenJobs | app/services/queue.py:30-47 | In every run of submitters and the queue consumer, when `stop` has returned the jobs of the ids still waiting are QUEUED, those of all other ids enqueued are settled (SUCCEEDED if no evaluation failed), handled and waiting ids together are the enqueued ones in order, and a SUCCEEDED job has its score. |
| Shutdown.StopIsNeverStuck | app/services/queue.py:30-47 | Until `stop` returns, the consumer, in its loop or in `process`, has a step it can take or `stop` can return, unless the consumer has crashed. |
| RowLocks.CommitIsAtomic | app/storage/postgres.py:95-176 | A commit does to the rows of that moment what the atomic operation would do, though it was decided from the rows of the moment its locks were taken; column by column it leaves what the operation writes (no claim time on a settled row), stamps the row, and touches no row it does not hold. |
| RowLocks.LockedRunIsSerial | app/storage/postgres.py:95-201 | Replaying the operations of any locked run one at a time in commit order, each allowed when its turn comes, gives the same rows; when its turn comes a claim takes an oldest claimable one of the rows that were free when it selected. |
| RowLocks.ClaimTakesOldestUnlocked | app/storage/postgres.py:95-116 | The row of a claim in flight was, when it was selected, claimable, free and no younger than any other such row; every older row was then locked, not claimable or not there. |
| LockedPrograms.LockedRunIsProtocolRun | app/services/worker.py:37-54 | Every run of the worker programs in which operations take row locks in one step and commit in another is, state for state, a run of `Protocol` in which claims and recoveries may skip rows, each operation taking effect at its commit with the time it read before. |
| LockedPrograms.CommitIsFree | app/storage/postgres.py:116-144 | An open transaction can always commit. |
| RowLocks.LocksAreExclusive | app/storage/postgres.py:104-128 | No two transactions hold the same row, and the row a transaction holds still has the value it read. |
| RowLocks.LockedClaimsCountAttempts | app/storage/postgres.py:106-116 | The committed claims on a row are attempts 1, 2, ..., `attempt_count`: no (job, attempt) pair is claimed twice. |
| RowLocks.LockedJobsEvolve | app/storage/postgres.py:120-201 | Under row locks too a job stays within its budget, keeps its request and first result, settles for good, and each status change lowers what it has left. |
| Store.NextClaimIsOldest | app/storage/in_memory.py:50-61 | A claim finds nothing exactly when nothing is claimable; otherwise it takes the first-inserted among the oldest claimable jobs. |
| Store.HeadOfSortedIsNext | app/storage/in_memory.py:52-61 | The head of the stably sorted candidates, which the code takes, is that job. |
| Store.RecentIsNewestTop | app/storage/in_memory.py:34-48 | A listing holds jobs of the tenant (and project) only, newest first with ties in insertion order, as many as the limit allows, and every such job left out comes after all of those listed. |
| Store.RecoverCountsChanges | app/storage/in_memory.py:69-88 | The number recovery returns is the number of jobs whose status it changed. |
| Store.RecoverIsComplete | app/storage/in_memory.py:69-88 | After recovery no claim below the cutoff is left: repeating it with that or an earlier cutoff changes nothing and returns 0. |
| Store.RecoverInTwoIsRecover | app/storage/in_memory.py:69-88 | Recovering with an earlier cutoff first makes no difference but the time stamps, and the two counts add up to the single one. |
| StableSort.SortedInOrder | app/storage/in_memory.py:61 | The sort puts positions in key order and keeps equal keys in their original order. |
| StableSort.InOrderUnique | app/storage/in_memory.py:48 | Two lists of the same positions in that order are equal, so the sort is the only such list. |
| Repository.InMemoryJobRepository.Create | app/storage/in_memory.py:16-19 | A new id is added at the end; a known id keeps its place and gets the new job. |
| Repository.InMemoryJobRepository.GetForTenant | app/storage/in_memory.py:28-32 | A job is returned if and only if it exists and belongs to the tenant; otherwise it is not found. |
| Repository.InMemoryJobRepository.ListRecent | app/storage/in_memory.py:34-48 | Of the jobs returned all are the tenant's, and of the project if one is given; they are as many as the smaller of limit and all such jobs, or that number less a negative limit; they come newest first, and every job left out is at most as new as any of them. They are the objects at the positions of `Store.Recent`. |
| Repository.InMemoryJobRepository.ClaimNextQueued | app/storage/in_memory.py:50-67 | Finds nothing exactly when no QUEUED job has an attempt left; otherwise claims in place the first-inserted of the oldest such jobs: RUNNING, one attempt more, claimed and updated now, all else and all others unchanged. |
| Repository.InMemoryJobRepository.RecoverStaleRunning | app/storage/in_memory.py:69-88 | The loop recovers in place exactly the jobs RUNNING under a claim from before the cutoff and returns their number: each becomes QUEUED, or FAILED if out of attempts, with its message, no claim time and a new time stamp, and all else of it and all other jobs stay. |
| Repository.InMemoryJobRepository.Transition | app/storage/in_memory.py:113-129 | A missing job is not found, a job in another status is rejected with nothing changed, and otherwise only status and time stamp of that one job change. |
| Repository.InMemoryJobRepository.SetSucceeded | app/storage/in_memory.py:93-99 | Both lock sections undisturbed: a RUNNING job becomes SUCCEEDED with the result, any other is left alone with the error the code raises. |
| Repository.InMemoryJobRepository.SetFailed | app/storage/in_memory.py:101-111 | Both lock sections undisturbed: a QUEUED or RUNNING job becomes FAILED with the message, a settled one is left alone with the error the code raises. |
| JobService.ProcessingSettles | app/services/job_service.py:74-169 | However processing starts and goes, undisturbed it leaves its job settled, stamped, with its claim, and with the score or the failure message, a settled job and all other jobs untouched; and it turns a job into a success only from QUEUED with a score. |
| JobService.EvaluationJobService.Submit | app/services/job_service.py:30-53 | Adds one job at the end and enqueues its id last, records one queued event and counts it. The job has the id, the request and its tenant and project, is QUEUED with no result, message or claim and 0 of 3 attempts, and was created and updated at this instant. |
| JobService.EvaluationJobService.RecordFailure | app/services/job_service.py:150-169 | Fails an open job, with one event and one count, and swallows the rejection of a settled one without a trace in store, audit or counters. |
| JobService.EvaluationJobService.Process | app/services/job_service.py:74-111 | A missing job raises before anything is written; otherwise store, audit and counters come out as `ProcessedFrom` says, and it raises exactly unless the evaluation gave a score and the job was QUEUED. |
| JobService.EvaluationJobService.ProcessClaimed | app/services/job_service.py:113-148 | Store, audit and counters come out as `Processed` says; it returns without raising exactly when the evaluation gave a score and the job was still RUNNING. |
| JobService.EvaluationWorker.ClaimAndProcess | app/services/worker.py:47-52 | One claim and its processing do what `Worked` says, and the loop goes on exactly if nothing was claimed or the evaluation gave a score. |
| JobService.EvaluationWorker.Recover | app/services/worker.py:41-45 | Recovers with the cutoff `now - stale_job_seconds` and adds the number recovered to the counter. |
| JobService.RoundLeavesNothingRunning | app/services/worker.py:40-52 | A round leaves no job RUNNING that was not RUNNING, untouched and within its lease, before it. |
| JobService.EvaluationWorker.Run | app/services/worker.py:37-54 | The loop does a chain of rounds, each as `Round` says; none but the last raises, and it ends with an error exactly if the last raised, otherwise at the stopping flag. |
| JobService.RoundsLeaveNothingRunning | app/services/worker.py:37-54 | However many rounds, every job RUNNING at their end was RUNNING under the same claim at their start. |
| Rounds.RoundTakesOneJob | app/services/worker.py:40-52 | After its recovery a round settles the job it claims, with the job's own score if the loop goes on, and leaves one claimable job fewer; it claims nothing only if nothing is claimable. |
| Rounds.ClaimablesAreConserved | app/services/worker.py:37-54 | Over any rounds, the claimable jobs and the jobs taken together are the claimable jobs of the start and those requeued. |
| Rounds.JobsAreTakenInOrder | app/storage/in_memory.py:61 | Of two jobs taken in different rounds the earlier one was created before the other, or with it and inserted before it, if the other was already claimable. |
| Rounds.EnoughRoundsDrainTheQueue | app/services/worker.py:37-54 | As many rounds as there are claimable jobs leave none, if recovery finds nothing and no round raises, and every one of those jobs has SUCCEEDED with its own score. |
| Undisturbed.ProcessIsARun | app/services/job_service.py:74-111 | From any state with an idle actor and an existing job, the actor's own steps in the interleaved model carry `process` to its end with the jobs, audit and counters of `ProcessedFrom`, raising exactly when the evaluation gave no score or the job was not QUEUED. |
| Undisturbed.RoundIsARun | app/services/worker.py:40-52 | Likewise one round of a polling worker ends with the jobs, audit and counters of `Round`, back in its loop if no processing raised and stopped if one did. |
| JobQueue.IdsAreConserved | app/services/queue.py:21-47 | In every run handled ids, the id in hand and the waiting ids are the enqueued ids in order, whether handlers return or raise; the unfinished count is what waits plus what is in hand; an id whose handler raised is handled or in hand like any other. |
| JobQueue.StopIsBounded | app/services/queue.py:30-50 | After `stop` begins at most one further id is taken, `stop` returns only with nothing in hand and no id lost, and until then some step of the consumer or of `stop` is possible. |
| JobQueue.ConsumerEnds | app/services/queue.py:36-47 | Once stopping, each step of the consumer brings it nearer its end, which is at most five steps away. |
| JobQueue.IdsBeforeStopComeFirst | app/services/queue.py:30-41 | The sentinel overtakes no id: what was handled, is in hand or waits before it is, in order, exactly what was enqueued before `stop` began; a consumer that takes the sentinel has handled all of that. |
| JobQueue.RoundTakesOne | app/services/queue.py:37-47 | A round takes the first item and hands it on; a raise is logged and counts as handled; it goes on unless the item was the sentinel; after `stop` a round takes nothing. |
| JobQueue.InMemoryJobQueue.Enqueue | app/services/queue.py:21-23 | Appends the id, keeps the queue conserved and reports the depth. |
| JobQueue.InMemoryJobQueue.RequestStop | app/services/queue.py:30-33 | Sets the flag and puts the sentinel only if a task was started. |
| JobQueue.InMemoryJobQueue.RunRound | app/services/queue.py:37-47 | One round of the loop in place, with its try, except and finally clauses, does what `AfterRound` composes from the steps, and ends exactly at the sentinel or the flag. |
| JobQueue.InMemoryJobQueue.Run | app/services/queue.py:36-47 | Whichever handlers raise, the loop handles everything waiting, or ends; after `stop` it takes nothing. |
| RateLimit.SlidingBound | app/core/rate_limit.py:24-35 | For nondecreasing call times, any half-open interval of k windows holds at most (k+1)·max(1,limit)-1 admitted calls. |
| RateLimit.SlidingBoundIsReached | app/core/rate_limit.py:24-35 | For every limit, window and k there are call times and an interval that reach the bound. |
| RateLimit.RejectedMeansFull | app/core/rate_limit.py:28-33 | A rejected call finds a window younger than the window length with exactly max(1,limit) admissions, and leaves it as it is. |
| RateLimit.KeysAreIndependent | app/core/rate_limit.py:27-35 | Whatever limit each call brings, a key's counter and every decision about it are those of that key's calls alone. |
| RateLimit.OneLimit | app/core/rate_limit.py:24-35 | While a key's calls all bring one limit, they are answered as the bounds above assume. |
| RateLimit.CounterCounts | app/core/rate_limit.py:28-35 | The counter is the number of calls admitted since the current window opened. |
| RateLimit.InMemoryRateLimiter.Check | app/core/rate_limit.py:24-35 | Updates in place the counter of one key, as `Decide` says, and leaves all other keys alone; keys never share a counter object. |
| Resilience.RetryAsync | app/core/resilience.py:11-26 | Returns the value of the first call that returns, after only failures, or the error of the last of exactly `attempts` calls; with no attempts the assertion fails; the time is that of the calls and the sleeps between them. |
| Resilience.TimeIsBounded | app/core/resilience.py:17-26 | n calls of at most a limit each take at most n·limit + delay·(2^(n-1)-1) with their sleeps. |
| Resilience.TimeIsExact | app/core/resilience.py:17-26 | And exactly that if each call takes the limit. |
| Resilience.BackoffIsPower | app/core/resilience.py:24 | The sleep after call i is the initial delay times 2^i. |
| Resilience.Evaluator.Score | app/services/evaluator.py:17-36 | Gives the score if one of the two calls beats the timeout and a time-out otherwise. The elapsed time is that of the first call if it beats the timeout, and otherwise timeout + 0.05 seconds and the second call, cut off at the timeout; it is recorded once either way. |
| Base64.DecodeUndoesEncode | app/core/auth.py:131-137 | Decoding undoes encoding for every byte string. |
| Base64.PaddedSplits | app/core/auth.py:135-137 | `-len % 4` restores exactly the padding that was stripped, and only letters of the alphabet remain. |
| Base64.LettersAreTheAlphabet | app/core/auth.py:131-137 | The letters are the 64 of the URL-safe alphabet in order; the decoder reads them back, `+` and `/` for the last two, and no other character. |
| Base64.GroupsKeepBits | app/core/auth.py:131-132 | Three bytes become four letters of the same 24 bits, high bits first; a rest of two or one bytes three or two letters, with zero bits added. |
| Base64.LettersDecode | app/core/auth.py:135-137 | A text of letters decodes exactly unless its length is one more than a multiple of four, to three bytes for every four letters, whatever the spare bits of the last one. |
| Base64.OthersAreSkipped | app/core/auth.py:137 | A character that is neither letter nor padding makes no difference to the decoder's scan. |
| Base64.NotAsciiIff | app/core/auth.py:137 | A text is rejected as not ASCII if and only if it holds a character above 127. |
| Jwt.SplitUndoesJoin | app/core/auth.py:112-117 | Three parts without dots joined by dots split into exactly those three. |
| Jwt.DecodePartsUndoesEncode | app/core/auth.py:46-59 | A printed token parses back to its header, claims, signing input and signature. |
| Jwt.CreatedTokenValidates | app/core/auth.py:24-92 | A created token is accepted if and only if the time has not reached the whole second it expires at, the claims are nonempty, issuer and audience are the expected ones and both secrets give the same signature; then tenant, subject and scopes are those it was created with. |
| Jwt.CreatedTokenLives | app/core/auth.py:33-92 | At nonnegative times its own issuer accepts a created token exactly before the last whole second of its lifetime, so never after it, and through all of it if it ends on a whole second; otherwise the token has expired. |
| Jwt.CreatedTokenCarries | app/core/auth.py:34-59 | What a created token carries, claim by claim, and its signature. |
| Jwt.SplitIsExact | app/core/auth.py:113 | Splitting takes a text apart at its dots and loses nothing. |
| Jwt.FormatIff | app/core/auth.py:113-117 | Any token is rejected for its format if and only if it has not exactly two dots. |
| Jwt.EncodingIff | app/core/auth.py:118-126 | It is rejected for its encoding if and only if a part is no base64url or one of the first two no JSON, and for its content if and only if these are not both objects. |
| Jwt.AcceptedIff | app/core/auth.py:68-92 | Any well-formed token is accepted if and only if its algorithm is HS256, its signature is that of its first two parts, and issuer, audience, expiry, tenant and subject are as asked; then tenant, subject and scopes are those it names. Algorithm and signature are reported first. |
| Jwt.FirstFailingClaim | app/core/auth.py:80-92 | The first check on the claims that fails, in the order issuer, audience, expiry, tenant, subject, gives the error. |
| Jwt.ScopesAre | app/core/auth.py:162-168 | The scopes of a list of strings are these, those of a string are its words, and anything else has none. |
| Jwt.ScopeStringRoundTrip | app/core/auth.py:164-165 | Scopes written as one string with single spaces come back in order. |
| Scoring.ClampNeverFires | app/domain/evaluation.py:16-21 | The points are always within 0..100, so the clamp never changes a score. |
| Scoring.TermsAreUnion | app/domain/evaluation.py:33-50 | The significant terms of two texts parted by white space are the union of the terms of each. |
| Words.StripGrows | app/domain/evaluation.py:12 | The stripped answer is a prefix of the stripped answer with anything appended. |
| Words.StripIff | app/domain/evaluation.py:12 | The stripped text is the only one cut out between characters to drop that has none at its own ends. |
| Words.TokensAreWords | app/domain/evaluation.py:49 | The tokens of a text are the stretches of it, from one position to another, without white space and bounded by white space or the ends of the text. |
| Words.TokensUndoJoin | app/core/auth.py:165 | Splitting words joined by a white-space character gives them back in order. |
| Scoring.AppendingNeverLowersTheScore | app/domain/evaluation.py:6-30 | Appending white space and any text to an answer never lowers its score, for every question and rubric. |
| Scoring.TermsAreCleanWords | app/domain/evaluation.py:33-50 | A term is significant if and only if it is no stop word and a word of more than three characters, lowered, is it but for punctuation at the ends. |
| Scoring.ScoreIsWhatThePartsAreWorth | app/domain/evaluation.py:12-30 | The score is a point for every eight characters of the stripped answer up to 40, ten for every term it shares with the question up to 40, ten if it shares one with the rubric, and ten for a period or line break; it comes with the fixed justification and tells whether there was a rubric. |
| Scoring.EightCharactersAddOne | app/domain/evaluation.py:16 | Eight more characters add one point, up to 320 characters. |
| Scoring.OneTermAddsTen | app/domain/evaluation.py:17 | A further term of the question adds ten points, up to four terms; any other term none. |
| Scoring.RubricAddsTenIff | app/domain/evaluation.py:18 | The rubric adds ten points if and only if one of its terms is one of the answer's. |
| Scoring.ClarityAddsTenIff | app/domain/evaluation.py:19 | Clarity adds ten points if and only if a period or a line break occurs. |
| Scoring.SurroundingSpaceIsIgnored | app/domain/evaluation.py:12 | White space around the answer changes nothing. |
| Scoring.BlankAnswerScoresZero | app/domain/evaluation.py:12-21 | A blank answer scores 0, whatever the question and rubric. |
| Scoring.BestRequestScoresAll | app/domain/evaluation.py:12-21 | With any four different words of lower-case letters a request scores 100. |
| Metrics.EscapeIsPerCharacter | app/core/metrics.py:96-97 | The three replacements in sequence are one map applied character by character. |
| Metrics.ParseUndoesEscape | app/core/metrics.py:96-97 | A parser recovers each value from its escaped text, whatever follows the closing quote. |
| Metrics.ParseUndoesFormat | app/core/metrics.py:88-93 | A parser recovers each printed label set, whatever the values contain and whatever follows on the line. |
| Metrics.SampleRoundTrip | app/core/metrics.py:75-80 | A parser recovers name, labels and value from the line of a series. |
| Metrics.SameLabelSet | app/core/metrics.py:82-86 | Two label mappings give the same label set if and only if they hold the same pairs, in whatever order. |
| Metrics.LabelSetIsSorted | app/core/metrics.py:86 | A label set is in dictionary order by name, and by value under the same name. |
| Metrics.SeriesIsItsLabels | app/core/metrics.py:71-86 | Two label mappings of one metric print the same line for equal values if and only if they hold the same pairs. |
| Metrics.SeriesAreIndependent | app/core/metrics.py:44-60 | After any updates a series has the value of its last gauge setting plus its increments since, whatever the order of their labels, and no other update touches it. |
| Metrics.MetricsRegistry.Increment | app/core/metrics.py:44-51 | The stored values are those of all updates so far and this increment. |
| Metrics.MetricsRegistry.SetGauge | app/core/metrics.py:53-60 | The stored values are those of all updates so far and this setting. |
| Metrics.DistinctSeriesPrintDifferently | app/core/metrics.py:66-80 | Two different label sets of one metric never print the same line. |

## Left out

- One clock reading per lock section: where the code reads the clock twice in a section, or once per recovered job, both readings are the same.
- In `Protocol` a job is named by its position in insertion order; ids are fresh and jobs are never deleted. The dict of the in-memory store is its values in insertion order.
- An in-memory actor does not crash between the two lock sections of a final write: the store lives in the same process and nothing cancels those tasks. It may crash anywhere else, and a Postgres actor anywhere.
- Repository I/O faults, the stop flag of polling workers and their sleeping are not steps of `Protocol`. A stopped worker is an actor that takes no further step.
- The number of attempts is any number from 1 up in `Protocol`; the service uses the default of 3.
- `Combined` orders jobs by enqueueing. Two submitters may enqueue in another order than they created.
- JobService.EvaluationJobService.Process: the methods of this class, of the worker and of the repository are proved undisturbed; interleaving is the subject of `Protocol`.
- Where `Protocol` may skip rows it leaves open which: a claim may take any claimable row or none. Which rows locks let it take is said in `RowLocks`.
- RowLocks.LockedRunIsSerial: taking a lock and reading the row is one step, so a select never misses a row committed between its snapshot and its locks; the refresh of a row after its commit, which may see a later state, is not modelled.
- Postgres raises on creating a known id and on a negative limit; the Postgres listing and `_to_row`, `_to_domain` are value copies and are not modelled.
- Lease.LeaseExclusivity: times are integers there and real numbers in `Resilience`. The evaluator's bound is proved as the time of its calls and sleeps; scheduling delays beside them are not bounded, and that a worker is done within `stale_job_seconds` is an assumption.
- JobQueue.StopIsBounded: the queue is started at most once; a sentinel left behind for a second start is not modelled, nor is a second `stop`.
- Scoring.AppendingNeverLowersTheScore: appended text is set off by white space; text glued to the last word may change that word and its terms. White space and lower-casing are given, so the Unicode tables are not modelled.
- Jwt.CreatedTokenValidates: JSON and HMAC-SHA256 are given functions, and JSON is assumed to decode its own output for the header and the claims. White space inside a scope string is the four ASCII characters only.
- Metrics.ParseUndoesFormat: label names are assumed to hold no `=`, as the format demands. Values are real numbers, and their formatting, the metadata lines and the order of the lines are not modelled.
- `client_key`, HTTP routes, request limits of the models, response projections, configuration, tracing, logging and migrations.
