// The evaluation job and what one repository write does to it
// (app/domain/models.py, and the field writes of app/storage/in_memory.py).
module Jobs {
  import opened Prelude

  type JobId = string
  type Time = int

  datatype Status = Queued | Running | Succeeded | Failed
  {
    predicate Terminal() { Succeeded? || Failed? }
  }

  datatype Request = Request(
    tenantId: string, projectId: string, question: string, answer: string, rubric: Option<string>)

  datatype Evaluation = Evaluation(score: int, justification: string, rubricUsed: bool)

  datatype Job = Job(
    jobId: JobId, tenantId: string, projectId: string, status: Status, request: Request,
    result: Option<Evaluation>, errorMessage: Option<string>,
    attemptCount: int, maxAttempts: int, claimedAt: Option<Time>,
    createdAt: Time, updatedAt: Time)

  const DEFAULT_MAX_ATTEMPTS := 3
  const TIMED_OUT := "Evaluation worker timed out."
  const WORKER_STOPPED := "Evaluation worker stopped before completing the job."
  const EVALUATION_FAILED := "Evaluation failed."

  // The job that submit creates.
  function NewJob(id: JobId, request: Request, maxAttempts: int, now: Time): Job
  {
    Job(id, request.tenantId, request.projectId, Queued, request, None, None, 0, maxAttempts, None, now, now)
  }

  predicate Claimable(j: Job)
  {
    j.status == Queued && j.attemptCount < j.maxAttempts
  }

  function ClaimJob(j: Job, now: Time): Job
  {
    j.(status := Running, attemptCount := j.attemptCount + 1, claimedAt := Some(now), updatedAt := now)
  }

  predicate Stale(j: Job, cutoff: Time)
  {
    j.status == Running && j.claimedAt.Some? && j.claimedAt.value < cutoff
  }

  predicate Exhausted(j: Job)
  {
    j.attemptCount >= j.maxAttempts
  }

  function RecoverJob(j: Job, cutoff: Time, now: Time): Job
  {
    if !Stale(j, cutoff) then j
    else if Exhausted(j) then
      j.(status := Failed, errorMessage := Some(TIMED_OUT), claimedAt := None, updatedAt := now)
    else
      j.(status := Queued, errorMessage := Some(WORKER_STOPPED), claimedAt := None, updatedAt := now)
  }

  function MoveJob(j: Job, target: Status, now: Time): Job
  {
    j.(status := target, updatedAt := now)
  }

  function WithResult(j: Job, result: Evaluation, now: Time): Job
  {
    j.(result := Some(result), updatedAt := now)
  }

  function WithError(j: Job, message: string, now: Time): Job
  {
    j.(errorMessage := Some(message), updatedAt := now)
  }

  // ----- What any sequence of repository writes may do to one job -----

  ghost predicate SameIdentity(j: Job, j': Job)
  {
    && j'.jobId == j.jobId && j'.tenantId == j.tenantId && j'.projectId == j.projectId
    && j'.request == j.request && j'.maxAttempts == j.maxAttempts && j'.createdAt == j.createdAt
  }

  // What a job has from its submission, and keeps.
  ghost predicate SubmittedAs(j: Job, id: JobId, request: Request, maxAttempts: int, at: Time)
  {
    && j.jobId == id && j.tenantId == request.tenantId && j.projectId == request.projectId && j.request == request
    && j.maxAttempts == maxAttempts && j.createdAt == at
  }

  // What else it has when nobody has touched it.
  ghost predicate Fresh(j: Job, at: Time)
  {
    && j.status == Queued && j.result.None? && j.errorMessage.None? && j.claimedAt.None?
    && j.attemptCount == 0 && j.updatedAt == at
  }

  // What recovery leaves of a job that was running under a claim below its cutoff.
  ghost predicate LeftByRecovery(j: Job, now: Time, j': Job)
  {
    && j'.status == (if j.attemptCount < j.maxAttempts then Queued else Failed)
    && j'.errorMessage == Some(if j.attemptCount < j.maxAttempts
                               then "Evaluation worker stopped before completing the job."
                               else "Evaluation worker timed out.")
    && j'.claimedAt.None? && j'.updatedAt == now
    && SameIdentity(j, j') && j'.result == j.result && j'.attemptCount == j.attemptCount
  }

  // One legal change of a job: a settled job keeps its status, a result is written once, and the
  // status moves only along queued -> running -> settled, or back to queued from a counted claim.
  ghost predicate Evolves(j: Job, j': Job)
  {
    && SameIdentity(j, j')
    && (j.result.Some? ==> j'.result == j.result)
    && (j'.result.Some? ==> j'.result == j.result || j'.status == Succeeded)
    && (|| (j'.status == j.status && j'.attemptCount == j.attemptCount
            && (j.status.Terminal() || j'.claimedAt == j.claimedAt))
        || (Claimable(j) && j'.status == Running && j'.attemptCount == j.attemptCount + 1 && j'.claimedAt.Some?)
        || (j.status == Queued && j'.status == Running && j'.attemptCount == j.attemptCount
            && j'.claimedAt == j.claimedAt)
        || (j.status == Running && j.claimedAt.Some? && !Exhausted(j) && j'.status == Queued
            && j'.attemptCount == j.attemptCount && j'.claimedAt == None)
        || (!j.status.Terminal() && j'.status == Failed && j'.attemptCount == j.attemptCount)
        || (j.status == Running && j'.status == Succeeded && j'.attemptCount == j.attemptCount))
  }

  // A written result is the score of the job's own request.
  ghost predicate ScoredBy(score: Request -> Evaluation, j: Job)
  {
    j.result.Some? ==> j.status == Succeeded && j.result.value == score(j.request)
  }

  // A job that stays within its budget and, while queued, waits unclaimed for an attempt it still has.
  ghost predicate WithinBudget(j: Job)
  {
    && 0 <= j.attemptCount <= j.maxAttempts && 1 <= j.maxAttempts
    && (j.status == Queued ==> j.claimedAt.None? && j.attemptCount < j.maxAttempts)
  }

  // How many status changes a job has left at most.
  ghost function ChangesLeft(j: Job): int
  {
    match j.status
    case Queued => 2 * (j.maxAttempts - j.attemptCount)
    case Running => if j.claimedAt.Some? then 2 * (j.maxAttempts - j.attemptCount) + 1 else 1
    case _ => 0
  }

  lemma EvolvingKeepsBudget(j: Job, j': Job)
    requires Evolves(j, j') && WithinBudget(j)
    ensures WithinBudget(j')
    ensures 0 <= ChangesLeft(j') <= ChangesLeft(j)
    ensures j'.status != j.status ==> ChangesLeft(j') < ChangesLeft(j)
  {
  }
}
