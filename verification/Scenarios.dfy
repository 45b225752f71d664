// Runs from the start that reach the states the other modules speak of, for either store, any scoring
// function and any stale_job_seconds.
module Scenarios {
  import opened Prelude
  import opened Jobs
  import opened Store
  import opened Protocol
  import opened Invariants
  import opened Lease
  import opened Holders
  import opened Failures

  // The run from s0 to s.
  ghost predicate RunTo(c: Config, states: seq<State>, labels: seq<Label>, s0: State, s: State)
  {
    IsRun(c, states, labels) && states[0] == s0 && states[|labels|] == s
  }

  ghost predicate Reachable(c: Config, s0: State, s: State)
  {
    exists states, labels :: RunTo(c, states, labels, s0, s)
  }

  lemma LeadsOnRun(c: Config, s0: State, labels: seq<Label>, s: State) returns (states: seq<State>)
    requires Init(s0) && Leads(c, s0, labels, s)
    ensures RunTo(c, states, labels, s0, s)
  {
    states :| IsPath(c, states, labels) && states[0] == s0 && states[|labels|] == s;
  }

  lemma ReachedBy(c: Config, s0: State, labels: seq<Label>, s: State)
    requires Init(s0) && Leads(c, s0, labels, s)
    ensures Reachable(c, s0, s)
  {
    var states := LeadsOnRun(c, s0, labels, s);
  }

  lemma ReachedOn(c: Config, s0: State, s: State, labels: seq<Label>, s': State)
    requires Reachable(c, s0, s) && Leads(c, s, labels, s')
    ensures Reachable(c, s0, s')
  {
    var states, before :| RunTo(c, states, before, s0, s);
    assert Leads(c, s0, before, s);
    LeadsThen(c, s0, before, s, labels, s');
    ReachedBy(c, s0, before + labels, s');
  }

  lemma ReachedOneMore(c: Config, s0: State, s: State, l: Label)
    requires Reachable(c, s0, s) && Enabled(c, s, l)
    ensures Reachable(c, s0, Apply(c, s, l))
  {
    LeadsOne(c, s, l);
    ReachedOn(c, s0, s, [l], Apply(c, s, l));
  }

  lemma ReachedByPolling(c: Config, s0: State, s: State, a: nat) returns (s': State)
    requires Reachable(c, s0, s) && a < |s.actors| && s.actors[a].Idle?
    ensures Reachable(c, s0, s') && Recovered(s, s', a, s.now - c.staleAfter, {})
  {
    var n := CountStale(s.jobs, s.now - c.staleAfter);
    s' := PollLeads(c, s, a, {}, n);
    ReachedOn(c, s0, s, PollLabels(a, n, {}), s');
  }

  // ----- One job, submitted -----

  ghost predicate EveryoneElseIdle(s: State, a: nat)
  {
    forall b: nat :: b < |s.actors| && b != a ==> s.actors[b] == Idle
  }

  ghost predicate OneSubmitted(s: State)
  {
    && |s.actors| >= 2 && EveryoneElseIdle(s, |s.actors|) && s.queue == [0]
    && exists request, id, t :: s.jobs == [NewJob(id, request, DEFAULT_MAX_ATTEMPTS, t)]
  }

  lemma CreatedFirst(c: Config, s: State, id: JobId, request: Request)
    requires Init(s) && |s.actors| >= 2
    ensures Enabled(c, s, Create(0, id, request, DEFAULT_MAX_ATTEMPTS))
    ensures var s' := Apply(c, s, Create(0, id, request, DEFAULT_MAX_ATTEMPTS));
            && s'.jobs == [NewJob(id, request, DEFAULT_MAX_ATTEMPTS, s.now)] && s'.queue == []
            && |s'.actors| == |s.actors| && s'.actors[0] == Enqueuing(0) && EveryoneElseIdle(s', 0)
  {
  }

  lemma EnqueuedFirst(c: Config, s: State)
    requires |s.actors| >= 2 && s.actors[0] == Enqueuing(0) && EveryoneElseIdle(s, 0) && s.queue == []
    ensures Enabled(c, s, Put(0)) && Enabled(c, Apply(c, s, Put(0)), ReportQueued(0))
    ensures var s' := Apply(c, Apply(c, s, Put(0)), ReportQueued(0));
            s'.jobs == s.jobs && s'.queue == [0] && |s'.actors| == |s.actors| && EveryoneElseIdle(s', |s'.actors|)
  {
  }

  // Nothing but polling and submitting, at one instant.
  ghost predicate Calm(labels: seq<Label>)
  {
    forall i :: 0 <= i < |labels| ==> SplitLabel(labels[i]) && AtOnce(labels[i])
  }

  ghost predicate AtOnce(l: Label) { !l.Tick? && (l.ClaimNext? ==> l.read.None?) }

  lemma JobIsSubmitted(c: Config, s0: State) returns (labels: seq<Label>, s: State)
    requires Init(s0) && |s0.actors| >= 2
    ensures Leads(c, s0, labels, s) && Calm(labels) && OneSubmitted(s)
  {
    var l := Create(0, "j", Request("t", "p", "q", "a", None), DEFAULT_MAX_ATTEMPTS);
    CreatedFirst(c, s0, l.id, l.request);
    var s1 := Apply(c, s0, l);
    EnqueuedFirst(c, s1);
    var s2 := Apply(c, s1, Put(0));
    s := Apply(c, s2, ReportQueued(0));
    LeadsOne(c, s2, ReportQueued(0));
    LeadsFirst(c, s1, Put(0), [ReportQueued(0)], s);
    LeadsFirst(c, s0, l, [Put(0)] + [ReportQueued(0)], s);
    labels := [l] + ([Put(0)] + [ReportQueued(0)]);
  }

  // ----- A late worker -----

  // Worker 0 evaluates the only job under its first claim, and everyone else is idle.
  ghost predicate FirstAttempt(s: State)
  {
    && |s.actors| >= 2 && s.actors[0].Evaluate? && EveryoneElseIdle(s, 0) && |s.jobs| == 1
    && AtWork(s, 0) && s.actors[0].task.job == 0 && s.jobs[0].attemptCount == 1 && s.jobs[0].maxAttempts == 3
  }

  lemma OnlyJobIsClaimed(c: Config, s: State)
    requires ReadyToClaim(s)
    ensures Enabled(c, s, ClaimNext(0, Some(0)))
    ensures var s' := Apply(c, s, ClaimNext(0, Some(0)));
            Enabled(c, s', ReportRunning(0)) && FirstAttempt(Apply(c, s', ReportRunning(0)))
  {
    NextClaimIsOldest(s.jobs);
  }

  // Worker 0 is about to claim the only job, and everyone else is idle.
  ghost predicate ReadyToClaim(s: State)
  {
    && |s.actors| >= 2 && s.actors[0].Poll? && EveryoneElseIdle(s, 0)
    && |s.jobs| == 1 && Claimable(s.jobs[0]) && s.jobs[0].attemptCount == 0 && s.jobs[0].maxAttempts == 3
  }

  lemma NothingToRecover(s: State, s1: State, cutoff: Time)
    requires OneSubmitted(s) && Recovered(s, s1, 0, cutoff, {})
    ensures ReadyToClaim(s1)
  {
  }

  lemma ClaimAndReportLead(c: Config, s: State) returns (s': State)
    requires ReadyToClaim(s)
    ensures Leads(c, s, [ClaimNext(0, Some(0)), ReportRunning(0)], s') && FirstAttempt(s')
  {
    OnlyJobIsClaimed(c, s);
    var s1 := Apply(c, s, ClaimNext(0, Some(0)));
    s' := Apply(c, s1, ReportRunning(0));
    LeadsOne(c, s1, ReportRunning(0));
    LeadsFirst(c, s, ClaimNext(0, Some(0)), [ReportRunning(0)], s');
    assert [ClaimNext(0, Some(0))] + [ReportRunning(0)] == [ClaimNext(0, Some(0)), ReportRunning(0)];
  }

  lemma PollingIsCalm(a: nat, n: nat)
    ensures Calm(PollLabels(a, n, {}))
  {
  }

  lemma CalmThen(first: seq<Label>, second: seq<Label>)
    requires Calm(first) && Calm(second)
    ensures Calm(first + second)
  {
  }

  lemma PollToClaim(c: Config, s: State) returns (labels: seq<Label>, s': State)
    requires OneSubmitted(s)
    ensures Leads(c, s, labels, s') && Calm(labels) && ReadyToClaim(s')
  {
    var n := CountStale(s.jobs, s.now - c.staleAfter);
    s' := PollLeads(c, s, 0, {}, n);
    labels := PollLabels(0, n, {});
    PollingIsCalm(0, n);
    NothingToRecover(s, s', s.now - c.staleAfter);
  }

  lemma OnlyJobIsAttempted(c: Config, s: State) returns (labels: seq<Label>, s': State)
    requires OneSubmitted(s)
    ensures Leads(c, s, labels, s') && Calm(labels) && FirstAttempt(s')
  {
    var first, s1 := PollToClaim(c, s);
    s' := ClaimAndReportLead(c, s1);
    var rest := [ClaimNext(0, Some(0)), ReportRunning(0)];
    LeadsThen(c, s, first, s1, rest, s');
    CalmThen(first, rest);
    labels := first + rest;
  }

  lemma JobIsClaimed(c: Config, s0: State) returns (labels: seq<Label>, s: State)
    requires Init(s0) && |s0.actors| >= 2
    ensures Leads(c, s0, labels, s) && Calm(labels) && FirstAttempt(s)
  {
    var first, s1 := JobIsSubmitted(c, s0);
    var second;
    second, s := OnlyJobIsAttempted(c, s1);
    LeadsThen(c, s0, first, s1, second, s);
    CalmThen(first, second);
    labels := first + second;
  }

  lemma TimePasses(c: Config, s: State, to: Time)
    requires FirstAttempt(s) && to >= s.now && to > s.actors[0].task.leasedAt.value + c.staleAfter
    ensures Enabled(c, s, Tick(to))
    ensures FirstAttempt(Apply(c, s, Tick(to))) && Late(c, Apply(c, s, Tick(to)), 0)
  {
  }

  // A worker can be late with attempts left, while another is idle.
  lemma LateWorkerIsReachable(c: Config, s0: State) returns (s: State)
    requires Init(s0) && |s0.actors| >= 2
    ensures Reachable(c, s0, s) && FirstAttempt(s) && Late(c, s, 0) && !Exhausted(s.jobs[0])
  {
    var labels, s1 := JobIsClaimed(c, s0);
    ReachedBy(c, s0, labels, s1);
    var late := s1.actors[0].task.leasedAt.value + c.staleAfter + 1;
    var to := if late > s1.now then late else s1.now;
    TimePasses(c, s1, to);
    ReachedOneMore(c, s0, s1, Tick(to));
    s := Apply(c, s1, Tick(to));
  }

  lemma OnlyJobIsNext(jobs: seq<Job>)
    requires |jobs| == 1 && Claimable(jobs[0])
    ensures NextClaim(jobs) == Some(0)
  {
    NextClaimIsOldest(jobs);
  }

  // And then the next round of another worker does put two live workers on one job.
  lemma SharedJobIsReachable(c: Config, s0: State) returns (s: State)
    requires Init(s0) && |s0.actors| >= 2
    ensures Reachable(c, s0, s) && !Exclusive(s)
  {
    var s1 := LateWorkerIsReachable(c, s0);
    var recovered := RecoverAll(s1.jobs, s1.now - c.staleAfter, s1.now);
    OnlyJobIsNext(recovered);
    NextClaimIsOldest(recovered);
    s := LateWorkerIsJoined(c, s1, 0, 1, {}, Some(0));
    ReachedOn(c, s0, s1, PollLabels(1, CountStale(s1.jobs, s1.now - c.staleAfter), {}) + [ClaimNext(1, Some(0))], s);
    TwoAtWork(s, 0, 1);
  }

  lemma TwoAtWork(s: State, a: nat, b: nat)
    requires a < |s.actors| && a != b && Working(s.actors[a]) && Joins(s, b, s.actors[a].task.job)
    ensures !Exclusive(s)
  {
  }

  // ----- A late success -----

  lemma RequeuedJobFails(c: Config, s: State)
    requires |s.actors| >= 2 && s.actors[0].Evaluate? && s.actors[0].task.job == 0 && |s.jobs| == 1
    requires s.jobs[0].status == Queued && !Exhausted(s.jobs[0])
    ensures Enabled(c, s, EvaluateOk(0))
    ensures var s1 := Apply(c, s, EvaluateOk(0));
            && Enabled(c, s1, SetSucceeded(0))
            && var s2 := Apply(c, s1, SetSucceeded(0));
               Enabled(c, s2, SetFailed(0)) && FailedEarly(Apply(c, s2, SetFailed(0)).jobs, 0)
  {
  }

  // A job fails with attempts left although its evaluation succeeded.
  lemma EarlyFailureIsReachable(c: Config, s0: State) returns (s: State)
    requires Init(s0) && |s0.actors| >= 2
    ensures Reachable(c, s0, s) && FailedEarly(s.jobs, 0)
  {
    var s1 := LateWorkerIsReachable(c, s0);
    var s2 := ReachedByPolling(c, s0, s1, 1);
    assert s2.actors[0] == s1.actors[0];
    RequeuedJobFails(c, s2);
    ReachedOneMore(c, s0, s2, EvaluateOk(0));
    var s3 := Apply(c, s2, EvaluateOk(0));
    ReachedOneMore(c, s0, s3, SetSucceeded(0));
    var s4 := Apply(c, s3, SetSucceeded(0));
    ReachedOneMore(c, s0, s4, SetFailed(0));
    s := Apply(c, s4, SetFailed(0));
  }

  // ----- process on a claimed job -----

  // Tasks were claimed at this very instant, if at all.
  ghost predicate LeasesAreNew(s: State)
  {
    forall a: nat :: a < |s.actors| && HasTask(s.actors[a]) && s.actors[a].task.leasedAt.Some? ==>
      s.actors[a].task.leasedAt.value == s.now
  }

  // The task of actor a, if it has one, was claimed now, or it is the task it had.
  ghost predicate TaskIsNew(s: State, pc: Pc, pc': Pc)
  {
    HasTask(pc') && pc'.task.leasedAt.Some? ==> pc'.task.leasedAt.value == s.now || (HasTask(pc) && pc.task == pc'.task)
  }

  lemma SettlerKeepsTask(c: Config, s: State, l: Label)
    requires Settles(l) && Enabled(c, s, l)
    ensures |SettleStep(c, s, l).actors| == |s.actors| && SettleStep(c, s, l).now == s.now
    ensures TaskIsNew(s, s.actors[l.a], SettleStep(c, s, l).actors[l.a])
  {
  }

  lemma PollerClaimsNow(c: Config, s: State, l: Label)
    requires Polls(l) && AtOnce(l) && Enabled(c, s, l)
    ensures |PollStep(c, s, l).actors| == |s.actors| && PollStep(c, s, l).now == s.now
    ensures TaskIsNew(s, s.actors[l.a], PollStep(c, s, l).actors[l.a])
  {
  }

  lemma StarterKeepsTask(c: Config, s: State, l: Label)
    requires Starts(l) && Enabled(c, s, l)
    ensures |StartStep(c, s, l).actors| == |s.actors| && StartStep(c, s, l).now == s.now
    ensures TaskIsNew(s, s.actors[l.a], StartStep(c, s, l).actors[l.a])
  {
  }

  lemma MoverHasNewTask(c: Config, s: State, l: Label)
    requires AtOnce(l) && Enabled(c, s, l)
    ensures |Apply(c, s, l).actors| == |s.actors| && Apply(c, s, l).now == s.now
    ensures TaskIsNew(s, s.actors[l.a], Apply(c, s, l).actors[l.a])
  {
    if Settles(l) {
      SettlerKeepsTask(c, s, l);
    } else if Polls(l) {
      PollerClaimsNow(c, s, l);
    } else if Starts(l) {
      StarterKeepsTask(c, s, l);
    }
  }

  lemma LeasesStayNew(c: Config, s: State, l: Label, s': State)
    requires LeasesAreNew(s) && AtOnce(l) && Step(c, s, l, s')
    ensures LeasesAreNew(s')
  {
    OtherActorsStay(c, s, l);
    MoverHasNewTask(c, s, l);
  }

  lemma {:induction false} RunAtOnceIsTimely(c: Config, states: seq<State>, labels: seq<Label>, i: nat)
    requires c.staleAfter >= 0 && IsRun(c, states, labels) && i < |states|
    requires forall m :: 0 <= m < |labels| ==> AtOnce(labels[m])
    ensures LeasesAreNew(states[i]) && Timely(c, states[i])
  {
    if i > 0 {
      RunAtOnceIsTimely(c, states, labels, i - 1);
      assert Step(c, states[i-1], labels[i-1], states[i]);
      LeasesStayNew(c, states[i-1], labels[i-1], states[i]);
    }
  }

  // Actor 1 calls process on the job that worker 0 has just claimed.
  lemma ProcessBarges(c: Config, s: State)
    requires FirstAttempt(s)
    ensures Enabled(c, s, Call(1, 0)) && Enabled(c, Apply(c, s, Call(1, 0)), Read(1))
    ensures var s2 := Apply(c, Apply(c, s, Call(1, 0)), Read(1));
            && s2.actors[0] == s.actors[0] && s2.jobs == s.jobs
            && |s2.actors| == |s.actors| && s2.actors[1].Start? && s2.actors[1].task.job == 0
  {
  }

  lemma BargedJobFails(c: Config, s: State)
    requires |s.actors| >= 2 && s.actors[1].Start? && s.actors[1].task.job == 0 && |s.jobs| == 1
    requires AtWork(s, 0) && s.actors[0].task.job == 0 && !Exhausted(s.jobs[0])
    ensures Enabled(c, s, SetRunning(1)) && Enabled(c, Apply(c, s, SetRunning(1)), SetFailed(1))
    ensures var s' := Apply(c, Apply(c, s, SetRunning(1)), SetFailed(1));
            && s'.actors[0] == s.actors[0] && FailedEarly(s'.jobs, 0) && !HoldsLease(s'.jobs, s'.actors[0].task)
  {
  }

  lemma ReadLeads(c: Config, s: State) returns (s': State)
    requires FirstAttempt(s)
    ensures Leads(c, s, [Call(1, 0)] + [Read(1)], s')
    ensures s'.jobs == s.jobs && |s'.actors| == |s.actors| && s'.actors[0] == s.actors[0]
    ensures s'.actors[1].Start? && s'.actors[1].task.job == 0
  {
    ProcessBarges(c, s);
    var s1 := Apply(c, s, Call(1, 0));
    s' := Apply(c, s1, Read(1));
    LeadsOne(c, s1, Read(1));
    LeadsFirst(c, s, Call(1, 0), [Read(1)], s');
  }

  lemma FailLeads(c: Config, s: State) returns (s': State)
    requires |s.actors| >= 2 && s.actors[1].Start? && s.actors[1].task.job == 0 && |s.jobs| == 1
    requires AtWork(s, 0) && s.actors[0].task.job == 0 && !Exhausted(s.jobs[0])
    ensures Leads(c, s, [SetRunning(1)] + [SetFailed(1)], s')
    ensures |s'.actors| >= 2 && s'.actors[0] == s.actors[0] && FailedEarly(s'.jobs, 0)
    ensures !HoldsLease(s'.jobs, s'.actors[0].task)
  {
    BargedJobFails(c, s);
    var s1 := Apply(c, s, SetRunning(1));
    s' := Apply(c, s1, SetFailed(1));
    LeadsOne(c, s1, SetFailed(1));
    LeadsFirst(c, s, SetRunning(1), [SetFailed(1)], s');
  }

  lemma CallLeads(c: Config, s: State) returns (rest: seq<Label>, s': State)
    requires FirstAttempt(s)
    ensures Leads(c, s, [Call(1, 0)] + rest, s') && Calm(rest)
    ensures |s'.actors| >= 2 && s'.actors[0] == s.actors[0] && FailedEarly(s'.jobs, 0)
    ensures !HoldsLease(s'.jobs, s'.actors[0].task)
  {
    var s1 := ReadLeads(c, s);
    s' := FailLeads(c, s1);
    LeadsThen(c, s, [Call(1, 0)] + [Read(1)], s1, [SetRunning(1)] + [SetFailed(1)], s');
    rest := [Read(1)] + ([SetRunning(1)] + [SetFailed(1)]);
    assert [Call(1, 0)] + rest == [Call(1, 0)] + [Read(1)] + ([SetRunning(1)] + [SetFailed(1)]);
  }

  // One call of process among polling workers is enough to break a lease: all are timely all along, at one
  // instant, and yet worker 0, still at work, has lost its job, which is failed with attempts left.
  lemma ProcessBreaksALease(c: Config, s0: State) returns (states: seq<State>, labels: seq<Label>, n: nat)
    requires Init(s0) && |s0.actors| >= 2 && c.staleAfter >= 0
    ensures n < |labels| && |states| == |labels| + 1 && RunTo(c, states, labels, s0, states[|labels|])
    ensures labels[n] == Call(1, 0) && forall m :: 0 <= m < |labels| && m != n ==> SplitLabel(labels[m])
    ensures forall m :: 0 <= m < |states| ==> Timely(c, states[m])
    ensures var s := states[|labels|];
            && |s.actors| >= 2 && s.actors[0].Evaluate? && s.actors[0].task.job == 0
            && FailedEarly(s.jobs, 0) && !HoldsLease(s.jobs, s.actors[0].task)
  {
    var before, s1 := JobIsClaimed(c, s0);
    var rest, s := CallLeads(c, s1);
    LeadsThen(c, s0, before, s1, [Call(1, 0)] + rest, s);
    n, labels := |before|, before + ([Call(1, 0)] + rest);
    states := LeadsOnRun(c, s0, labels, s);
    forall m | 0 <= m < |labels| ensures AtOnce(labels[m]) && (m != n ==> SplitLabel(labels[m])) {
      assert labels[m] == if m < n then before[m] else if m == n then Call(1, 0) else rest[m - n - 1];
    }
    forall m | 0 <= m < |states| ensures Timely(c, states[m]) { RunAtOnceIsTimely(c, states, labels, m); }
  }

  // ----- What a success leaves -----

  lemma ResultIsPending(c: Config, s: State)
    requires c.backend == InMemory && FirstAttempt(s)
    ensures Enabled(c, s, EvaluateOk(0)) && Enabled(c, Apply(c, s, EvaluateOk(0)), SetSucceeded(0))
    ensures var s' := Apply(c, Apply(c, s, EvaluateOk(0)), SetSucceeded(0));
            |s'.jobs| == 1 && s'.jobs[0].status == Succeeded && s'.jobs[0].result == s.jobs[0].result
  {
  }

  // In memory a job is succeeded and has no result for a moment.
  lemma PendingResultIsReachable(c: Config, s0: State) returns (s: State)
    requires c.backend == InMemory && Init(s0) && |s0.actors| >= 2
    ensures Reachable(c, s0, s) && |s.jobs| == 1 && s.jobs[0].status == Succeeded && s.jobs[0].result.None?
  {
    var labels, s1 := JobIsClaimed(c, s0);
    ReachedBy(c, s0, labels, s1);
    NoResultYet(c, s0, s1);
    ResultIsPending(c, s1);
    ReachedOneMore(c, s0, s1, EvaluateOk(0));
    ReachedOneMore(c, s0, Apply(c, s1, EvaluateOk(0)), SetSucceeded(0));
    s := Apply(c, Apply(c, s1, EvaluateOk(0)), SetSucceeded(0));
  }

  lemma NoResultYet(c: Config, s0: State, s: State)
    requires Reachable(c, s0, s) && FirstAttempt(s)
    ensures s.jobs[0].result.None?
  {
    var states, labels :| RunTo(c, states, labels, s0, s);
    RunInv(c, states, labels, |labels|);
    assert ScoredBy(c.score, s.jobs[0]);
  }

  lemma OnlyJobIsClaimedAgain(c: Config, s: State)
    requires |s.actors| >= 2 && s.actors[1].Poll? && |s.jobs| == 1 && Claimable(s.jobs[0])
    ensures Enabled(c, s, ClaimNext(1, Some(0)))
    ensures var s1 := Apply(c, s, ClaimNext(1, Some(0)));
            && Enabled(c, s1, ReportRunning(1))
            && var s2 := Apply(c, s1, ReportRunning(1));
               && |s2.actors| == |s.actors| && s2.actors[1].Evaluate? && s2.actors[1].task.job == 0 && |s2.jobs| == 1
               && s2.jobs[0] == ClaimJob(s.jobs[0], s.now)
  {
    OnlyJobIsNext(s.jobs);
    NextClaimIsOldest(s.jobs);
  }

  lemma ClaimedJobSucceeds(c: Config, s: State)
    requires |s.actors| >= 2 && s.actors[1].Evaluate? && s.actors[1].task.job == 0 && |s.jobs| == 1
    requires s.jobs[0].status == Running && s.jobs[0].claimedAt.Some?
    ensures Enabled(c, s, EvaluateOk(1)) && Enabled(c, Apply(c, s, EvaluateOk(1)), SetSucceeded(1))
    ensures var s' := Apply(c, Apply(c, s, EvaluateOk(1)), SetSucceeded(1));
            && |s'.jobs| == 1 && s'.jobs[0].status == Succeeded && s'.jobs[0].errorMessage == s.jobs[0].errorMessage
            && (s'.jobs[0].claimedAt.Some? <==> c.backend == InMemory)
  {
  }

  // A succeeded job that carries the message of an earlier recovery, and in memory its claim time.
  lemma MarkedSuccessIsReachable(c: Config, s0: State) returns (s: State)
    requires Init(s0) && |s0.actors| >= 2
    ensures Reachable(c, s0, s) && |s.jobs| == 1 && s.jobs[0].status == Succeeded
    ensures s.jobs[0].errorMessage == Some(WORKER_STOPPED)
    ensures s.jobs[0].claimedAt.Some? <==> c.backend == InMemory
  {
    var s1 := LateWorkerIsReachable(c, s0);
    var s2 := ReachedByPolling(c, s0, s1, 1);
    assert s2.jobs[0].errorMessage == Some(WORKER_STOPPED);
    OnlyJobIsClaimedAgain(c, s2);
    ReachedOneMore(c, s0, s2, ClaimNext(1, Some(0)));
    var s3 := Apply(c, s2, ClaimNext(1, Some(0)));
    ReachedOneMore(c, s0, s3, ReportRunning(1));
    var s4 := Apply(c, s3, ReportRunning(1));
    ClaimedJobSucceeds(c, s4);
    ReachedOneMore(c, s0, s4, EvaluateOk(1));
    ReachedOneMore(c, s0, Apply(c, s4, EvaluateOk(1)), SetSucceeded(1));
    s := Apply(c, Apply(c, s4, EvaluateOk(1)), SetSucceeded(1));
  }

  // ----- An abandoned job -----

  // The consumer has fetched the only job, which is queued.
  ghost predicate Fetched(s: State)
  {
    && |s.actors| >= 2 && s.actors[0].Start? && s.actors[0].task.job == 0 && EveryoneElseIdle(s, 0)
    && |s.jobs| == 1 && s.jobs[0].status == Queued && s.jobs[0].claimedAt.None? && s.queue == []
  }

  lemma ConsumerFetches(c: Config, s: State)
    requires OneSubmitted(s)
    ensures Enabled(c, s, Take(0)) && Enabled(c, Apply(c, s, Take(0)), Read(0))
    ensures Fetched(Apply(c, Apply(c, s, Take(0)), Read(0)))
  {
  }

  lemma ConsumerCrashes(c: Config, s: State)
    requires Fetched(s)
    ensures Enabled(c, s, SetRunning(0)) && Enabled(c, Apply(c, s, SetRunning(0)), Crash(0))
    ensures Abandoned(Apply(c, Apply(c, s, SetRunning(0)), Crash(0)), 0)
  {
  }

  // A consumer crashes at work, and its job is abandoned: recovery will never move it.
  lemma AbandonedJobIsReachable(c: Config, s0: State) returns (s: State)
    requires Init(s0) && |s0.actors| >= 2
    ensures Reachable(c, s0, s) && Abandoned(s, 0)
  {
    var labels, s1 := JobIsSubmitted(c, s0);
    ReachedBy(c, s0, labels, s1);
    ConsumerFetches(c, s1);
    ReachedOneMore(c, s0, s1, Take(0));
    var s2 := Apply(c, s1, Take(0));
    ReachedOneMore(c, s0, s2, Read(0));
    var s3 := Apply(c, s2, Read(0));
    ConsumerCrashes(c, s3);
    ReachedOneMore(c, s0, s3, SetRunning(0));
    var s4 := Apply(c, s3, SetRunning(0));
    ReachedOneMore(c, s0, s4, Crash(0));
    s := Apply(c, s4, Crash(0));
  }
}
