// Submitters, the queue consumer and polling workers, interleaved over one job store.
// One step is one lock section of the in-memory store, one transaction of the Postgres store,
// or one stretch of code between two such calls.
module Protocol {
  import opened Prelude
  import opened Jobs
  import opened Store

  // In Postgres a claim and a recovery skip the rows that others hold locked, if there can be any.
  datatype Backend = InMemory | Postgres(skipsLocked: bool)

  // staleAfter is stale_job_seconds; score is the evaluator's scoring function.
  datatype Config = Config(backend: Backend, staleAfter: Time, score: Request -> Evaluation)

  // What process and process_claimed hold on to: the job (by its position in the store), the request
  // they read, and the claim time when the job was claimed by a polling worker.
  datatype Task = Task(job: nat, request: Request, leasedAt: Option<Time>)

  // Where an actor is.
  datatype Pc =
    | Idle
    | Enqueuing(job: nat)
    | AnnounceQueued(job: nat)
    | Sweep(cutoff: Time)
    | CountRecovered(n: nat)
    | Poll
    | Lookup(job: nat)
    | Start(task: Task)
    | AnnounceRunning(task: Task)
    | Evaluate(task: Task)
    | Succeed(task: Task, result: Evaluation)
    | SaveResult(task: Task, result: Evaluation)
    | AnnounceSuccess(task: Task, result: Evaluation)
    | Fail(task: Task)
    | SaveError(task: Task)
    | AnnounceFailure(task: Task)
    | Finished(handled: Option<nat>, claimed: bool, raised: bool)
    | Stopped
    | Crashed(was: Pc)

  datatype Audit = JobQueued(job: nat) | JobRunning(job: nat) | JobSucceeded(job: nat, score: int) | JobFailed(job: nat)

  // evaluation_jobs_total by status, and evaluation_worker_recovered_jobs_total.
  datatype Counters = Counters(queued: nat, succeeded: nat, failed: nat, recovered: nat)

  // claims, requeues and timeouts are history: they record what happened and no step reads them.
  datatype State = State(
    now: Time, jobs: seq<Job>, actors: seq<Pc>, queue: seq<nat>,
    audit: seq<Audit>, counters: Counters,
    claims: seq<(nat, int)>, enqueued: seq<nat>, requeues: nat, timeouts: nat)

  // read is the time stamp of a write whose transaction read the clock before the moment it took effect.
  datatype Label =
    | Tick(to: Time)
    | Crash(a: nat)
    | Create(a: nat, id: JobId, request: Request, maxAttempts: int)
    | Put(a: nat)
    | ReportQueued(a: nat)
    | BeginPoll(a: nat)
    | RecoverStale(a: nat, skipped: set<nat>, read: Option<Time> := None)
    | ReportRecovered(a: nat)
    | ClaimNext(a: nat, choice: Option<nat>, read: Option<Time> := None)
    | Call(a: nat, job: nat)
    | Take(a: nat)
    | Read(a: nat)
    | SetRunning(a: nat, read: Option<Time> := None)
    | ReportRunning(a: nat)
    | EvaluateOk(a: nat)
    | EvaluateError(a: nat)
    | SetSucceeded(a: nat, read: Option<Time> := None)
    | StoreResult(a: nat)
    | ReportSucceeded(a: nat)
    | SetFailed(a: nat, read: Option<Time> := None)
    | StoreError(a: nat)
    | ReportFailed(a: nat)
    | Return(a: nat)

  predicate Init(s: State)
  {
    && s.jobs == [] && s.queue == [] && s.audit == [] && s.claims == [] && s.enqueued == []
    && s.counters == Counters(0, 0, 0, 0) && s.requeues == 0 && s.timeouts == 0
    && forall a :: 0 <= a < |s.actors| ==> s.actors[a] == Idle
  }

  // The job a claim may take: the in-memory store sorts, Postgres may return any oldest row, and when
  // rows are locked by others, any claimable row or none.
  ghost predicate ClaimChoice(b: Backend, jobs: seq<Job>, choice: Option<nat>)
  {
    match b
    case InMemory => choice == NextClaim(jobs)
    case Postgres(skips) =>
      if choice.None? then skips || forall k :: 0 <= k < |jobs| ==> !Claimable(jobs[k])
      else choice.value < |jobs| && Claimable(jobs[choice.value]) && (skips || OldestClaimable(jobs, choice.value))
  }

  // Only where rows are locked first can the clock have been read before the write takes effect.
  predicate ClockRead(c: Config, s: State, read: Option<Time>)
  {
    read.Some? ==> c.backend == Postgres(true) && read.value <= s.now
  }

  function Stamp(s: State, read: Option<Time>): Time { if read.Some? then read.value else s.now }

  ghost predicate Enabled(c: Config, s: State, l: Label)
  {
    if l.Tick? then s.now <= l.to
    else
      && l.a < |s.actors|
      && var pc := s.actors[l.a];
      match l
      case Crash(_) =>
        // The in-memory store lives in the process of its actors, so an actor cannot
        // stop for good between the two lock sections and leave the store behind.
        !pc.Crashed? && (c.backend == InMemory ==> !pc.SaveResult? && !pc.SaveError?)
      case Create(_, id, _, maxAttempts) =>
        pc.Idle? && maxAttempts >= 1 && forall k :: 0 <= k < |s.jobs| ==> s.jobs[k].jobId != id
      case Put(_) => pc.Enqueuing?
      case ReportQueued(_) => pc.AnnounceQueued?
      case BeginPoll(_) => pc.Idle?
      case RecoverStale(_, skipped, read) =>
        pc.Sweep? && (c.backend == Postgres(true) || skipped == {}) && ClockRead(c, s, read)
      case ReportRecovered(_) => pc.CountRecovered?
      case ClaimNext(_, choice, read) => pc.Poll? && ClaimChoice(c.backend, s.jobs, choice) && ClockRead(c, s, read)
      case Call(_, _) => pc.Idle?
      case Take(_) => pc.Idle? && s.queue != []
      case Read(_) => pc.Lookup?
      case SetRunning(_, read) => pc.Start? && pc.task.job < |s.jobs| && ClockRead(c, s, read)
      case ReportRunning(_) => pc.AnnounceRunning?
      case EvaluateOk(_) => pc.Evaluate?
      case EvaluateError(_) => pc.Evaluate?
      case SetSucceeded(_, read) => pc.Succeed? && pc.task.job < |s.jobs| && ClockRead(c, s, read)
      case StoreResult(_) => pc.SaveResult? && pc.task.job < |s.jobs|
      case ReportSucceeded(_) => pc.AnnounceSuccess?
      case SetFailed(_, read) => pc.Fail? && pc.task.job < |s.jobs| && ClockRead(c, s, read)
      case StoreError(_) => pc.SaveError? && pc.task.job < |s.jobs|
      case ReportFailed(_) => pc.AnnounceFailure?
      case Return(_) => pc.Finished?
  }

  function To(s: State, a: nat, pc: Pc): State
    requires a < |s.actors|
  {
    s.(actors := s.actors[a := pc])
  }

  function Write(s: State, k: nat, j: Job): State
    requires k < |s.jobs|
  {
    s.(jobs := s.jobs[k := j])
  }

  predicate Submits(l: Label) { l.Create? || l.Put? || l.ReportQueued? }

  predicate Polls(l: Label) { l.BeginPoll? || l.RecoverStale? || l.ReportRecovered? || l.ClaimNext? }

  predicate Starts(l: Label)
  {
    l.Call? || l.Take? || l.Read? || l.SetRunning? || l.ReportRunning? || l.EvaluateOk? || l.EvaluateError?
  }

  predicate Settles(l: Label)
  {
    l.SetSucceeded? || l.StoreResult? || l.ReportSucceeded?
    || l.SetFailed? || l.StoreError? || l.ReportFailed? || l.Return?
  }

  // EvaluationJobService.submit: create the job, enqueue its id, record it.
  function SubmitStep(c: Config, s: State, l: Label): State
    requires Enabled(c, s, l) && Submits(l)
  {
    var a, pc := l.a, s.actors[l.a];
    match l
    case Create(_, id, request, maxAttempts) =>
      To(s, a, Enqueuing(|s.jobs|)).(jobs := s.jobs + [NewJob(id, request, maxAttempts, s.now)])
    case Put(_) =>
      To(s, a, AnnounceQueued(pc.job)).(queue := s.queue + [pc.job], enqueued := s.enqueued + [pc.job])
    case ReportQueued(_) =>
      To(s, a, Idle).(audit := s.audit + [JobQueued(pc.job)],
                      counters := s.counters.(queued := s.counters.queued + 1))
  }

  // One round of EvaluationWorker.run up to the claim.
  function PollStep(c: Config, s: State, l: Label): State
    requires Enabled(c, s, l) && Polls(l)
  {
    var a, pc := l.a, s.actors[l.a];
    match l
    case BeginPoll(_) => To(s, a, Sweep(s.now - c.staleAfter))
    case RecoverStale(_, skipped, read) =>
      var n := CountStale(s.jobs, pc.cutoff, skipped);
      var t := CountExhausted(s.jobs, pc.cutoff, skipped);
      To(s, a, if n > 0 then CountRecovered(n) else Poll).(
        jobs := RecoverAll(s.jobs, pc.cutoff, Stamp(s, read), skipped),
        timeouts := s.timeouts + t, requeues := s.requeues + (n - t))
    case ReportRecovered(_) =>
      To(s, a, Poll).(counters := s.counters.(recovered := s.counters.recovered + pc.n))
    case ClaimNext(_, choice, read) =>
      (match choice
       case None => To(s, a, Idle)
       case Some(k) =>
         var j := ClaimJob(s.jobs[k], Stamp(s, read));
         To(Write(s, k, j), a, AnnounceRunning(Task(k, j.request, j.claimedAt))).(
           claims := s.claims + [(k, j.attemptCount)]))
  }

  // process from the queue (or called directly) up to set_running, and the evaluation itself.
  function StartStep(c: Config, s: State, l: Label): State
    requires Enabled(c, s, l) && Starts(l)
  {
    var a, pc := l.a, s.actors[l.a];
    match l
    case Call(_, job) => To(s, a, Lookup(job))
    case Take(_) => To(s, a, Lookup(s.queue[0])).(queue := s.queue[1..])
    case Read(_) =>
      if pc.job < |s.jobs| then To(s, a, Start(Task(pc.job, s.jobs[pc.job].request, None)))
      else To(s, a, Finished(None, false, true))
    case SetRunning(_, read) =>
      var j := s.jobs[pc.task.job];
      if j.status == Queued then
        To(Write(s, pc.task.job, MoveJob(j, Running, Stamp(s, read))), a, AnnounceRunning(pc.task))
      else To(s, a, Fail(pc.task))
    case ReportRunning(_) =>
      To(s, a, Evaluate(pc.task)).(audit := s.audit + [JobRunning(pc.task.job)])
    case EvaluateOk(_) => To(s, a, Succeed(pc.task, c.score(pc.task.request)))
    case EvaluateError(_) => To(s, a, Fail(pc.task))
  }

  // set_succeeded, or set_failed from _record_failure, and what follows either.
  function SettleStep(c: Config, s: State, l: Label): State
    requires Enabled(c, s, l) && Settles(l)
  {
    var a, pc := l.a, s.actors[l.a];
    match l
    case SetSucceeded(_, read) =>
      var j, now := s.jobs[pc.task.job], Stamp(s, read);
      if j.status != Running then To(s, a, Fail(pc.task))
      else if c.backend == InMemory then
        To(Write(s, pc.task.job, MoveJob(j, Succeeded, now)), a, SaveResult(pc.task, pc.result))
      else
        To(Write(s, pc.task.job, WithResult(MoveJob(j, Succeeded, now), pc.result, now).(claimedAt := None)),
           a, AnnounceSuccess(pc.task, pc.result))
    case StoreResult(_) =>
      To(Write(s, pc.task.job, WithResult(s.jobs[pc.task.job], pc.result, s.now)),
         a, AnnounceSuccess(pc.task, pc.result))
    case ReportSucceeded(_) =>
      To(s, a, Finished(Some(pc.task.job), pc.task.leasedAt.Some?, false)).(
        audit := s.audit + [JobSucceeded(pc.task.job, pc.result.score)],
        counters := s.counters.(succeeded := s.counters.succeeded + 1))
    case SetFailed(_, read) =>
      var j, now := s.jobs[pc.task.job], Stamp(s, read);
      if j.status.Terminal() then
        // The rejected transition is logged and swallowed by _record_failure.
        To(s, a, Finished(Some(pc.task.job), pc.task.leasedAt.Some?, true))
      else if c.backend == InMemory then
        To(Write(s, pc.task.job, MoveJob(j, Failed, now)), a, SaveError(pc.task))
      else
        To(Write(s, pc.task.job,
                 WithError(MoveJob(j, Failed, now), EVALUATION_FAILED, now).(claimedAt := None)),
           a, AnnounceFailure(pc.task))
    case StoreError(_) =>
      To(Write(s, pc.task.job, WithError(s.jobs[pc.task.job], EVALUATION_FAILED, s.now)),
         a, AnnounceFailure(pc.task))
    case ReportFailed(_) =>
      To(s, a, Finished(Some(pc.task.job), pc.task.leasedAt.Some?, true)).(
        audit := s.audit + [JobFailed(pc.task.job)],
        counters := s.counters.(failed := s.counters.failed + 1))
    case Return(_) =>
      // EvaluationWorker.run does not catch what process_claimed re-raises; the queue loop does.
      To(s, a, if pc.claimed && pc.raised then Stopped else Idle)
  }

  function Apply(c: Config, s: State, l: Label): State
    requires Enabled(c, s, l)
  {
    if l.Tick? then s.(now := l.to)
    else if l.Crash? then To(s, l.a, Crashed(s.actors[l.a]))
    else if Submits(l) then SubmitStep(c, s, l)
    else if Polls(l) then PollStep(c, s, l)
    else if Starts(l) then StartStep(c, s, l)
    else SettleStep(c, s, l)
  }

  ghost predicate Step(c: Config, s: State, l: Label, s': State)
  {
    Enabled(c, s, l) && s' == Apply(c, s, l)
  }

  ghost predicate IsPath(c: Config, states: seq<State>, labels: seq<Label>)
  {
    |states| == |labels| + 1 && forall i: nat :: i < |labels| ==> Step(c, states[i], labels[i], states[i+1])
  }

  // The steps labels lead from s to s'.
  ghost predicate Leads(c: Config, s: State, labels: seq<Label>, s': State)
  {
    exists states :: IsPath(c, states, labels) && states[0] == s && states[|labels|] == s'
  }

  lemma LeadsNowhere(c: Config, s: State)
    ensures Leads(c, s, [], s)
  {
    assert IsPath(c, [s], []);
    assert [s][0] == s;
  }

  lemma LeadsOne(c: Config, s: State, l: Label)
    requires Enabled(c, s, l)
    ensures Leads(c, s, [l], Apply(c, s, l))
  {
    var states := [s, Apply(c, s, l)];
    assert IsPath(c, states, [l]);
    assert states[|[l]|] == Apply(c, s, l);
  }

  lemma LeadsThen(c: Config, s: State, first: seq<Label>, s1: State, second: seq<Label>, s2: State)
    requires Leads(c, s, first, s1) && Leads(c, s1, second, s2)
    ensures Leads(c, s, first + second, s2)
  {
    var before :| IsPath(c, before, first) && before[0] == s && before[|first|] == s1;
    var after :| IsPath(c, after, second) && after[0] == s1 && after[|second|] == s2;
    PathsJoin(c, before, first, after, second);
    assert (before + after[1..])[|first + second|] == s2;
  }

  lemma PathsJoin(c: Config, before: seq<State>, first: seq<Label>, after: seq<State>, second: seq<Label>)
    requires IsPath(c, before, first) && IsPath(c, after, second) && before[|first|] == after[0]
    ensures IsPath(c, before + after[1..], first + second)
  {
    var states, labels := before + after[1..], first + second;
    forall i: nat | i < |labels| ensures Step(c, states[i], labels[i], states[i+1]) {
      if i < |first| {
        assert Step(c, before[i], first[i], before[i+1]);
        assert states[i] == before[i] && states[i+1] == before[i+1] && labels[i] == first[i];
      } else {
        var j := i - |first|;
        assert Step(c, after[j], second[j], after[j+1]);
        assert states[i] == after[j] && states[i+1] == after[j+1] && labels[i] == second[j];
      }
    }
  }

  lemma LeadsFirst(c: Config, s: State, l: Label, rest: seq<Label>, s': State)
    requires Enabled(c, s, l) && Leads(c, Apply(c, s, l), rest, s')
    ensures Leads(c, s, [l] + rest, s')
  {
    LeadsOne(c, s, l);
    LeadsThen(c, s, [l], Apply(c, s, l), rest, s');
  }

  // A round of a polling worker up to its claim; n is the number of jobs recovered.
  function PollLabels(a: nat, n: nat, skipped: set<nat>): seq<Label>
  {
    [BeginPoll(a)] + ([RecoverStale(a, skipped)] + ReportLabels(a, n))
  }

  function ReportLabels(a: nat, n: nat): seq<Label>
  {
    if n > 0 then [ReportRecovered(a)] else []
  }

  ghost predicate OthersStay(s: State, s': State, a: nat)
  {
    |s'.actors| == |s.actors| && forall b :: 0 <= b < |s.actors| && b != a ==> s'.actors[b] == s.actors[b]
  }

  // What recovery leaves to worker a.
  ghost predicate Recovered(s: State, s': State, a: nat, cutoff: Time, skipped: set<nat>)
  {
    && a < |s'.actors| && s'.actors[a] == Poll && OthersStay(s, s', a)
    && s'.jobs == RecoverAll(s.jobs, cutoff, s.now, skipped) && s'.now == s.now && s'.audit == s.audit
    && s'.counters == s.counters.(recovered := s.counters.recovered + CountStale(s.jobs, cutoff, skipped))
  }

  lemma SweepLeads(c: Config, s: State, a: nat, cutoff: Time, skipped: set<nat>, n: nat) returns (s': State)
    requires a < |s.actors| && s.actors[a] == Sweep(cutoff) && (c.backend == Postgres(true) || skipped == {})
    requires n == CountStale(s.jobs, cutoff, skipped)
    ensures Leads(c, s, [RecoverStale(a, skipped)] + ReportLabels(a, n), s')
    ensures Recovered(s, s', a, cutoff, skipped)
  {
    s' := Apply(c, s, RecoverStale(a, skipped));
    LeadsOne(c, s, RecoverStale(a, skipped));
    if n > 0 {
      LeadsOne(c, s', ReportRecovered(a));
      LeadsThen(c, s, [RecoverStale(a, skipped)], s', [ReportRecovered(a)], Apply(c, s', ReportRecovered(a)));
      s' := Apply(c, s', ReportRecovered(a));
    } else {
      assert [RecoverStale(a, skipped)] + [] == [RecoverStale(a, skipped)];
    }
  }

  lemma PollBegins(c: Config, s: State, a: nat)
    requires a < |s.actors| && s.actors[a].Idle?
    ensures Enabled(c, s, BeginPoll(a))
    ensures var s1 := Apply(c, s, BeginPoll(a));
            && a < |s1.actors| && s1.actors[a] == Sweep(s.now - c.staleAfter) && OthersStay(s, s1, a)
            && s1.jobs == s.jobs && s1.now == s.now && s1.audit == s.audit && s1.counters == s.counters
  {
  }

  lemma RecoveredFrom(s: State, s1: State, s': State, a: nat, cutoff: Time, skipped: set<nat>)
    requires OthersStay(s, s1, a) && Recovered(s1, s', a, cutoff, skipped)
    requires s1.jobs == s.jobs && s1.now == s.now && s1.audit == s.audit && s1.counters == s.counters
    ensures Recovered(s, s', a, cutoff, skipped)
  {
  }

  lemma PollLeads(c: Config, s: State, a: nat, skipped: set<nat>, n: nat) returns (s': State)
    requires a < |s.actors| && s.actors[a].Idle? && (c.backend == Postgres(true) || skipped == {})
    requires n == CountStale(s.jobs, s.now - c.staleAfter, skipped)
    ensures Leads(c, s, PollLabels(a, n, skipped), s')
    ensures Recovered(s, s', a, s.now - c.staleAfter, skipped)
  {
    PollBegins(c, s, a);
    var s1 := Apply(c, s, BeginPoll(a));
    s' := SweepLeads(c, s1, a, s.now - c.staleAfter, skipped, n);
    RecoveredFrom(s, s1, s', a, s.now - c.staleAfter, skipped);
    LeadsFirst(c, s, BeginPoll(a), [RecoverStale(a, skipped)] + ReportLabels(a, n), s');
  }

  ghost predicate IsRun(c: Config, states: seq<State>, labels: seq<Label>)
  {
    IsPath(c, states, labels) && Init(states[0])
  }
}
