// submit, process, process_claimed and the worker loop as the code has them (app/services/job_service.py,
// app/services/worker.py), over the in-memory repository and undisturbed by other actors; module Protocol
// has the same programs cut into steps that interleave. evaluate stands for evaluator.score.
module JobService {
  import opened Prelude
  import opened Jobs
  import opened Store
  import opened Repository
  import Protocol
  import JobQueue

  datatype Evaluated = Scored(evaluation: Evaluation) | Failure

  // Jobs, audit events and counters: what the service writes.
  datatype Written<Jobs, Events> = Effects(jobs: Jobs, audit: Events, counters: Protocol.Counters)
  type Effects = Written<seq<Job>, seq<Protocol.Audit>>

  // What processing job k comes to once it is running for it: a success if the evaluation succeeded and
  // the job is still running; otherwise a failure if the job is open; otherwise nothing.
  function Processed(e: Effects, k: nat, outcome: Evaluated, now: Time): Effects
    requires k < |e.jobs|
  {
    var j := e.jobs[k];
    if outcome.Scored? && j.status == Running then
      Effects(e.jobs[k := WithResult(MoveJob(j, Succeeded, now), outcome.evaluation, now)],
              e.audit + [Protocol.JobSucceeded(k, outcome.evaluation.score)],
              e.counters.(succeeded := e.counters.succeeded + 1))
    else FailureRecorded(e, k, now)
  }

  // _record_failure; a settled job keeps its status and the attempt is logged only.
  function FailureRecorded(e: Effects, k: nat, now: Time): Effects
    requires k < |e.jobs|
  {
    var j := e.jobs[k];
    if j.status.Terminal() then e
    else
      Effects(e.jobs[k := WithError(MoveJob(j, Failed, now), EVALUATION_FAILED, now)],
              e.audit + [Protocol.JobFailed(k)], e.counters.(failed := e.counters.failed + 1))
  }

  function RunningReported(e: Effects, k: nat): Effects
  {
    e.(audit := e.audit + [Protocol.JobRunning(k)])
  }

  // process raises exactly when it has not recorded a success.
  function ProcessedFrom(e: Effects, k: nat, outcome: Evaluated, now: Time): Effects
    requires k < |e.jobs|
  {
    if e.jobs[k].status != Queued then FailureRecorded(e, k, now)
    else
      Processed(RunningReported(e.(jobs := e.jobs[k := MoveJob(e.jobs[k], Running, now)]), k), k, outcome, now)
  }

  // What processing leaves of an open job, field by field; a settled one it leaves alone.
  ghost predicate SettledWith(j: Job, outcome: Evaluated, now: Time, j': Job)
  {
    if j.status.Terminal() then j' == j
    else
      && SameIdentity(j, j') && j'.attemptCount == j.attemptCount && j'.claimedAt == j.claimedAt
      && j'.updatedAt == now
      && (j'.status == Succeeded ==>
            outcome.Scored? && j'.result == Some(outcome.evaluation) && j'.errorMessage == j.errorMessage)
      && (j'.status == Failed ==> j'.result == j.result && j'.errorMessage == Some("Evaluation failed."))
  }

  // However processing starts and goes, the job is settled at the end and no other job is touched.
  lemma ProcessingSettles(e: Effects, k: nat, outcome: Evaluated, now: Time)
    requires k < |e.jobs|
    ensures var p, q := Processed(e, k, outcome, now), ProcessedFrom(e, k, outcome, now);
            && |p.jobs| == |q.jobs| == |e.jobs|
            && p.jobs[k].status.Terminal() && q.jobs[k].status.Terminal()
            && (forall i :: 0 <= i < |e.jobs| && i != k ==> p.jobs[i] == e.jobs[i] && q.jobs[i] == e.jobs[i])
            && (q.jobs[k].status == Succeeded && e.jobs[k].status != Succeeded ==>
                  e.jobs[k].status == Queued && outcome.Scored?)
            && SettledWith(e.jobs[k], outcome, now, p.jobs[k]) && SettledWith(e.jobs[k], outcome, now, q.jobs[k])
  {
  }

  function Counted(c: Protocol.Counters, n: nat): Protocol.Counters { c.(recovered := c.recovered + n) }

  class EvaluationJobService {
    const repository: InMemoryJobRepository
    const queue: JobQueue.InMemoryJobQueue
    var audit: seq<Protocol.Audit>
    var counters: Protocol.Counters

    ghost predicate Valid()
      reads this, repository, queue
    {
      repository.Valid() && queue.Valid()
    }

    ghost function View(): Effects
      reads this, repository, repository.entries
    {
      Effects(repository.Contents(), audit, counters)
    }

    constructor (r: InMemoryJobRepository, q: JobQueue.InMemoryJobQueue)
      requires r.Valid() && q.Valid()
      ensures Valid() && repository == r && queue == q
      ensures audit == [] && counters == Protocol.Counters(0, 0, 0, 0)
    {
      repository, queue := r, q;
      audit, counters := [], Protocol.Counters(0, 0, 0, 0);
    }

    // id is the fresh uuid.
    method Submit(id: JobId, request: Request, now: Time) returns (job: EvaluationJob)
      requires Valid() && Lookup(repository.entries, id).None?
      modifies this, repository, queue
      ensures Valid() && fresh(job) && repository.entries == old(repository.entries) + [job]
      ensures var n := |old(repository.entries)|;
              View() == Effects(old(View()).jobs + [NewJob(id, request, DEFAULT_MAX_ATTEMPTS, now)],
                                old(audit) + [Protocol.JobQueued(n)],
                                old(counters).(queued := old(counters).queued + 1))
      ensures job.jobId == id && job.tenantId == request.tenantId && job.projectId == request.projectId
      ensures job.request == request && job.status == Queued && job.result.None? && job.errorMessage.None?
      ensures job.attemptCount == 0 && job.maxAttempts == 3 && job.claimedAt.None?
      ensures job.createdAt == now && job.updatedAt == now
      ensures queue.View() == JobQueue.Next(old(queue.View()), JobQueue.Put(id))
      ensures JobQueue.Ids(queue.View().items) == JobQueue.Ids(old(queue.View()).items) + [id]
    {
      JobQueue.IdsAppend(queue.items, Some(id));
      var n := |repository.entries|;
      job := CreateJob(id, request, now);
      var depth := queue.Enqueue(id);
      ReportQueued(n);
    }

    method CreateJob(id: JobId, request: Request, now: Time) returns (job: EvaluationJob)
      requires Valid() && Lookup(repository.entries, id).None?
      modifies repository
      ensures Valid() && fresh(job) && repository.entries == old(repository.entries) + [job]
      ensures View() == old(View()).(jobs := old(View()).jobs + [NewJob(id, request, DEFAULT_MAX_ATTEMPTS, now)])
      ensures SubmittedAs(job.View(), id, request, 3, now) && Fresh(job.View(), now)
    {
      job := new EvaluationJob(id, request, DEFAULT_MAX_ATTEMPTS, now);
      repository.Create(job);
    }

    method ReportQueued(k: nat)
      requires Valid()
      modifies this
      ensures Valid()
      ensures View() == Effects(old(View()).jobs, old(audit) + [Protocol.JobQueued(k)],
                                old(counters).(queued := old(counters).queued + 1))
    {
      audit := audit + [Protocol.JobQueued(k)];
      counters := counters.(queued := counters.queued + 1);
    }

    // k is the job's position, by which its audit events name it.
    method RecordFailure(id: JobId, k: nat, now: Time)
      requires Valid() && Lookup(repository.entries, id) == Some(k)
      modifies this, repository.entries
      ensures Valid()
      ensures View() == FailureRecorded(old(View()), k, now)
    {
      var r := repository.SetFailed(id, EVALUATION_FAILED, now);
      if r.Ok? {
        audit := audit + [Protocol.JobFailed(k)];
        counters := counters.(failed := counters.failed + 1);
      }
    }

    method Finish(id: JobId, k: nat, outcome: Evaluated, now: Time) returns (raised: bool)
      requires Valid() && Lookup(repository.entries, id) == Some(k)
      modifies this, repository.entries
      ensures Valid()
      ensures View() == Processed(old(View()), k, outcome, now)
      ensures !raised <==> outcome.Scored? && old(View()).jobs[k].status == Running
    {
      if outcome.Scored? {
        var r := repository.SetSucceeded(id, outcome.evaluation, now);
        if r.Ok? {
          audit := audit + [Protocol.JobSucceeded(k, outcome.evaluation.score)];
          counters := counters.(succeeded := counters.succeeded + 1);
          return false;
        }
      }
      RecordFailure(id, k, now);
      raised := true;
    }

    // What both programs do once the job is theirs: report it running, evaluate, record the outcome.
    method ReportAndFinish(id: JobId, k: nat, outcome: Evaluated, now: Time) returns (raised: bool)
      requires Valid() && Lookup(repository.entries, id) == Some(k)
      modifies this, repository.entries
      ensures Valid()
      ensures View() == Processed(RunningReported(old(View()), k), k, outcome, now)
      ensures !raised <==> outcome.Scored? && old(View()).jobs[k].status == Running
    {
      audit := audit + [Protocol.JobRunning(k)];
      raised := Finish(id, k, outcome, now);
    }

    method ProcessClaimed(job: EvaluationJob, evaluate: Request -> Evaluated, now: Time) returns (raised: bool)
      requires Valid() && job in repository.entries
      modifies this, repository.entries
      ensures Valid()
      ensures var k := Lookup(repository.entries, job.jobId);
              && k.Some? && repository.entries[k.value] == job
              && View() == Processed(RunningReported(old(View()), k.value), k.value, evaluate(job.request), now)
              && (!raised <==> evaluate(job.request).Scored? && old(View()).jobs[k.value].status == Running)
    {
      var k := Lookup(repository.entries, job.jobId);
      raised := ReportAndFinish(job.jobId, k.value, evaluate(job.request), now);
    }

    lemma EntryIsFound(k: nat)
      requires Valid() && k < |repository.entries|
      ensures Lookup(repository.entries, repository.entries[k].jobId) == Some(k)
      ensures View().jobs[k].request == repository.entries[k].request
    {
      ViewsAt(repository.entries);
    }

    // The repository's recovery, and the counter of what it recovered.
    method RecoverStale(cutoff: Time, now: Time) returns (recovered: nat)
      requires Valid()
      modifies repository.entries
      ensures Valid() && recovered == CountStale(old(View()).jobs, cutoff)
      ensures View() == old(View()).(jobs := RecoverAll(old(View()).jobs, cutoff, now))
    {
      recovered := repository.RecoverStaleRunning(cutoff, now);
    }

    method CountRecovered(n: nat)
      requires Valid()
      modifies this`counters
      ensures Valid()
      ensures View() == old(View()).(counters := Counted(old(View()).counters, n))
    {
      counters := counters.(recovered := counters.recovered + n);
    }

    // A missing job raises before anything is written.
    method Process(id: JobId, evaluate: Request -> Evaluated, now: Time) returns (raised: bool)
      requires Valid()
      modifies this, repository.entries
      ensures Valid()
      ensures match Lookup(repository.entries, id)
              case None => raised && View() == old(View())
              case Some(k) =>
                var j := old(View()).jobs[k];
                && View() == ProcessedFrom(old(View()), k, evaluate(j.request), now)
                && (!raised <==> evaluate(j.request).Scored? && j.status == Queued)
    {
      var job := repository.Get(id);
      if job.Err? {
        return true;
      }
      var k := Lookup(repository.entries, id).value;
      var r := repository.SetRunning(id, now);
      if r.Err? {
        RecordFailure(id, k, now);
        return true;
      }
      raised := ReportAndFinish(id, k, evaluate(job.value.request), now);
    }
  }

  // ----- EvaluationWorker -----

  // One round of run up to the claim: recover and count.
  function Polled(e: Effects, staleAfter: Time, now: Time): Effects
  {
    Effects(RecoverAll(e.jobs, now - staleAfter, now), e.audit,
            Counted(e.counters, CountStale(e.jobs, now - staleAfter)))
  }

  // Claim the next job and process it.
  function Worked(e: Effects, evaluate: Request -> Evaluated, now: Time): Effects
  {
    match NextClaim(e.jobs)
    case None => e
    case Some(k) =>
      var j := ClaimJob(e.jobs[k], now);
      Processed(RunningReported(e.(jobs := e.jobs[k := j]), k), k, evaluate(j.request), now)
  }

  lemma ClaimedIsWorked(e: Effects, k: nat, evaluate: Request -> Evaluated, now: Time)
    requires k < |e.jobs| && NextClaim(e.jobs) == Some(k)
    ensures Worked(e, evaluate, now)
              == Processed(RunningReported(e.(jobs := e.jobs[k := ClaimJob(e.jobs[k], now)]), k), k,
                           evaluate(e.jobs[k].request), now)
    ensures WorkGoesOn(e, evaluate) == evaluate(e.jobs[k].request).Scored?
  {
  }

  // process_claimed re-raises what the evaluation raised, and the loop of run ends with it.
  predicate WorkGoesOn(e: Effects, evaluate: Request -> Evaluated)
  {
    match NextClaim(e.jobs)
    case None => true
    case Some(k) =>
      evaluate(e.jobs[k].request).Scored?
  }

  predicate RoundGoesOn(e: Effects, staleAfter: Time, evaluate: Request -> Evaluated, now: Time)
  {
    WorkGoesOn(Polled(e, staleAfter, now), evaluate)
  }

  function Round(e: Effects, staleAfter: Time, evaluate: Request -> Evaluated, now: Time): Effects
  {
    Worked(Polled(e, staleAfter, now), evaluate, now)
  }

  // A job running after was running under the same claim before, and untouched since.
  ghost predicate NothingNewRunning(before: seq<Job>, after: seq<Job>)
  {
    |after| == |before| && forall k :: 0 <= k < |before| && after[k].status == Running ==> after[k] == before[k]
  }

  lemma NothingNewTwice(before: seq<Job>, between: seq<Job>, after: seq<Job>)
    requires NothingNewRunning(before, between) && NothingNewRunning(between, after)
    ensures NothingNewRunning(before, after)
  {
  }

  lemma WorkLeavesNothingRunning(e: Effects, evaluate: Request -> Evaluated, now: Time)
    ensures NothingNewRunning(e.jobs, Worked(e, evaluate, now).jobs)
  {
  }

  lemma RecoveryLeavesNothingRunning(jobs: seq<Job>, cutoff: Time, now: Time)
    ensures NothingNewRunning(jobs, RecoverAll(jobs, cutoff, now))
    ensures forall k :: 0 <= k < |jobs| && RecoverAll(jobs, cutoff, now)[k].status == Running ==>
              !Stale(jobs[k], cutoff)
  {
  }

  // A round leaves no job running that was not running, untouched and within its lease, before it.
  lemma RoundLeavesNothingRunning(e: Effects, staleAfter: Time, evaluate: Request -> Evaluated, now: Time)
    ensures var r := Round(e, staleAfter, evaluate, now);
            && NothingNewRunning(e.jobs, r.jobs)
            && forall k :: 0 <= k < |r.jobs| && r.jobs[k].status == Running ==> !Stale(e.jobs[k], now - staleAfter)
  {
    var p := Polled(e, staleAfter, now);
    RecoveryLeavesNothingRunning(e.jobs, now - staleAfter, now);
    WorkLeavesNothingRunning(p, evaluate, now);
    NothingNewTwice(e.jobs, p.jobs, Worked(p, evaluate, now).jobs);
  }

  // What a worker does: its stale_job_seconds, its evaluator, and the time at which each round begins.
  datatype Worker = Worker(staleAfter: Time, evaluate: Request -> Evaluated, clock: nat -> Time)

  ghost predicate RoundLeads(w: Worker, i: nat, e: Effects, e': Effects)
  {
    e' == Round(e, w.staleAfter, w.evaluate, w.clock(i))
  }

  ghost function LinkOf(w: Worker): (nat, Effects, Effects) -> bool
  {
    (i: nat, e: Effects, e': Effects) => RoundLeads(w, i, e, e')
  }

  // es are the effects before each round and after the last.
  ghost predicate AreRounds(w: Worker, es: seq<Effects>)
  {
    Chained(LinkOf(w), es)
  }

  // The round i that begins with e does not raise.
  ghost predicate GoesOn(w: Worker, e: Effects, i: nat)
  {
    RoundGoesOn(e, w.staleAfter, w.evaluate, w.clock(i))
  }

  // The effects es of that many rounds from e to e', none of which raised but the last one, if raised says so.
  ghost predicate Ran(w: Worker, e: Effects, es: seq<Effects>, rounds: nat, raised: bool, e': Effects)
  {
    && |es| == rounds + 1 && es[0] == e && es[rounds] == e' && AreRounds(w, es) && (raised ==> rounds > 0)
    && forall i: nat :: i < rounds ==> (GoesOn(w, es[i], i) <==> !(raised && i == rounds - 1))
  }

  lemma RanOn(w: Worker, e: Effects, es: seq<Effects>, rounds: nat, e1: Effects, e2: Effects)
    requires Ran(w, e, es, rounds, false, e1) && RoundLeads(w, rounds, e1, e2)
    ensures Ran(w, e, es + [e2], rounds + 1, !GoesOn(w, e1, rounds), e2)
  {
    ChainGrows(LinkOf(w), es, e2);
    var longer := es + [e2];
    assert longer[rounds] == es[rounds];
    forall i: nat | i < rounds ensures GoesOn(w, longer[i], i) {
      assert longer[i] == es[i];
    }
  }

  // However many rounds: a job running at the end was running under the same claim at the start.
  lemma RoundsLeaveNothingRunning(w: Worker, es: seq<Effects>)
    requires AreRounds(w, es)
    ensures NothingNewRunning(es[0].jobs, es[|es|-1].jobs)
  {
    forall i: nat | i + 1 < |es| ensures NothingNewRunning(es[i].jobs, es[i+1].jobs) {
      assert LinkOf(w)(i, es[i], es[i+1]);
      RoundLeavesNothingRunning(es[i], w.staleAfter, w.evaluate, w.clock(i));
    }
    NothingNewThroughout(es, |es| - 1);
  }

  lemma {:induction false} NothingNewThroughout(es: seq<Effects>, n: nat)
    requires n < |es| && forall i: nat :: i + 1 < |es| ==> NothingNewRunning(es[i].jobs, es[i+1].jobs)
    ensures NothingNewRunning(es[0].jobs, es[n].jobs)
  {
    if n > 0 {
      NothingNewThroughout(es, n - 1);
      NothingNewTwice(es[0].jobs, es[n-1].jobs, es[n].jobs);
    }
  }

  class EvaluationWorker {
    const service: EvaluationJobService
    const staleJobSeconds: Time

    constructor (s: EvaluationJobService, stale: Time)
      ensures service == s && staleJobSeconds == stale
    {
      service, staleJobSeconds := s, stale;
    }

    method Recover(now: Time)
      requires service.Valid()
      modifies service`counters, service.repository.entries
      ensures service.Valid()
      ensures service.View() == Polled(old(service.View()), staleJobSeconds, now)
    {
      var recovered := service.RecoverStale(now - staleJobSeconds, now);
      service.CountRecovered(recovered);
    }

    // goesOn is false when process_claimed raised, which ends run.
    method ClaimAndProcess(evaluate: Request -> Evaluated, now: Time) returns (goesOn: bool)
      requires service.Valid()
      modifies service, service.repository.entries
      ensures service.Valid()
      ensures service.View() == Worked(old(service.View()), evaluate, now)
      ensures goesOn <==> WorkGoesOn(old(service.View()), evaluate)
    {
      ghost var e := service.View();
      var claimed := service.repository.ClaimNextQueued(now);
      if claimed.None? {
        return true;
      }
      ghost var k := NextClaim(e.jobs).value;
      service.EntryIsFound(k);
      ClaimedIsWorked(e, k, evaluate, now);
      var raised := service.ProcessClaimed(claimed.value, evaluate, now);
      goesOn := !raised;
    }

    // Round i: recover, claim and process.
    method RunRound(evaluate: Request -> Evaluated, clock: nat -> Time, i: nat) returns (goesOn: bool)
      requires service.Valid()
      modifies service, service.repository.entries
      ensures service.Valid()
      ensures RoundLeads(Worker(staleJobSeconds, evaluate, clock), i, old(service.View()), service.View())
      ensures goesOn == GoesOn(Worker(staleJobSeconds, evaluate, clock), old(service.View()), i)
    {
      Recover(clock(i));
      goesOn := ClaimAndProcess(evaluate, clock(i));
    }

    // The loop of run, whose stopping flag somebody sets during round stopAfter, or before the first if that
    // is 0. It ends at the flag, or at the first round whose processing raised, and with an error exactly then.
    method Run(evaluate: Request -> Evaluated, clock: nat -> Time, stopAfter: nat)
      returns (rounds: nat, raised: bool, ghost es: seq<Effects>)
      requires service.Valid()
      modifies service, service.repository.entries
      ensures service.Valid() && rounds <= stopAfter && (!raised ==> rounds == stopAfter)
      ensures Ran(Worker(staleJobSeconds, evaluate, clock), old(service.View()), es, rounds, raised, service.View())
    {
      ghost var w := Worker(staleJobSeconds, evaluate, clock);
      ghost var e := service.View();
      es := [e];
      rounds, raised := 0, false;
      while rounds < stopAfter && !raised
        invariant service.Valid() && rounds <= stopAfter
        invariant Ran(w, old(service.View()), es, rounds, raised, e) && e == service.View()
      {
        var goesOn := RunRound(evaluate, clock, rounds);
        RanOn(w, old(service.View()), es, rounds, e, service.View());
        e := service.View();
        es := es + [e];
        raised := !goesOn;
        rounds := rounds + 1;
      }
    }
  }
}
