// The two models of the programs agree: an actor of module Protocol that nobody disturbs does to jobs,
// audit and counters what the methods of module JobService do.
module Undisturbed {
  import opened Prelude
  import opened Jobs
  import opened Store
  import opened Protocol
  import opened JobService

  function EffectsOf(s: State): Effects
  {
    Effects(s.jobs, s.audit, s.counters)
  }

  // All of the steps are actor a's own, at one instant and without a crash.
  ghost predicate Alone(a: nat, labels: seq<Label>)
  {
    forall i :: 0 <= i < |labels| ==> !labels[i].Tick? && !labels[i].Crash? && labels[i].a == a
  }

  // Undisturbed from s the actor comes to the end of its task, with the effects e.
  ghost predicate Ends(c: Config, s: State, a: nat, task: Task, e: Effects, raised: bool, labels: seq<Label>, s': State)
  {
    && Leads(c, s, labels, s') && Alone(a, labels) && EffectsOf(s') == e && s'.now == s.now
    && a < |s'.actors| && s'.actors[a] == Finished(Some(task.job), task.leasedAt.Some?, raised)
  }

  lemma EndsFirst(c: Config, s: State, a: nat, l: Label, task: Task, e: Effects, raised: bool, rest: seq<Label>,
                  s': State)
    requires !l.Tick? && !l.Crash? && l.a == a && Enabled(c, s, l)
    requires Ends(c, Apply(c, s, l), a, task, e, raised, rest, s') && Apply(c, s, l).now == s.now
    ensures Ends(c, s, a, task, e, raised, [l] + rest, s')
  {
    LeadsFirst(c, s, l, rest, s');
  }

  // set_failed on an open job: both lock sections.
  lemma ErrorIsSaved(c: Config, s: State, a: nat, task: Task)
    requires c.backend == InMemory && a < |s.actors| && s.actors[a] == Fail(task)
    requires task.job < |s.jobs| && !s.jobs[task.job].status.Terminal()
    ensures Enabled(c, s, SetFailed(a)) && Enabled(c, Apply(c, s, SetFailed(a)), StoreError(a))
    ensures var s2 := Apply(c, Apply(c, s, SetFailed(a)), StoreError(a));
            && |s2.actors| == |s.actors| && s2.actors[a] == AnnounceFailure(task) && s2.now == s.now
            && s2.jobs
               == s.jobs[task.job := WithError(MoveJob(s.jobs[task.job], Failed, s.now), EVALUATION_FAILED, s.now)]
            && s2.audit == s.audit && s2.counters == s.counters
  {
  }

  lemma FailureIsReported(c: Config, s: State, a: nat, task: Task)
    requires a < |s.actors| && s.actors[a] == AnnounceFailure(task)
    ensures Enabled(c, s, ReportFailed(a))
    ensures var s' := Apply(c, s, ReportFailed(a));
            && |s'.actors| == |s.actors| && s'.actors[a] == Finished(Some(task.job), task.leasedAt.Some?, true)
            && s'.now == s.now && s'.jobs == s.jobs && s'.audit == s.audit + [JobFailed(task.job)]
            && s'.counters == s.counters.(failed := s.counters.failed + 1)
  {
  }

  lemma AcceptedFailureEnds(c: Config, s: State, a: nat, task: Task) returns (labels: seq<Label>, s': State)
    requires c.backend == InMemory && a < |s.actors| && s.actors[a] == Fail(task)
    requires task.job < |s.jobs| && !s.jobs[task.job].status.Terminal()
    ensures Ends(c, s, a, task, FailureRecorded(EffectsOf(s), task.job, s.now), true, labels, s')
  {
    ErrorIsSaved(c, s, a, task);
    var s1 := Apply(c, s, SetFailed(a));
    var s2 := Apply(c, s1, StoreError(a));
    FailureIsReported(c, s2, a, task);
    s' := Apply(c, s2, ReportFailed(a));
    LeadsOne(c, s2, ReportFailed(a));
    LeadsFirst(c, s1, StoreError(a), [ReportFailed(a)], s');
    labels := [StoreError(a)] + [ReportFailed(a)];
    LeadsFirst(c, s, SetFailed(a), labels, s');
    labels := [SetFailed(a)] + labels;
  }

  lemma FailureEnds(c: Config, s: State, a: nat, task: Task) returns (labels: seq<Label>, s': State)
    requires c.backend == InMemory && a < |s.actors| && s.actors[a] == Fail(task) && task.job < |s.jobs|
    ensures Ends(c, s, a, task, FailureRecorded(EffectsOf(s), task.job, s.now), true, labels, s')
  {
    if s.jobs[task.job].status.Terminal() {
      s' := Apply(c, s, SetFailed(a));
      LeadsOne(c, s, SetFailed(a));
      labels := [SetFailed(a)];
    } else {
      labels, s' := AcceptedFailureEnds(c, s, a, task);
    }
  }

  // set_succeeded on a running job: both lock sections.
  lemma ResultIsSaved(c: Config, s: State, a: nat, task: Task, v: Evaluation)
    requires c.backend == InMemory && a < |s.actors| && s.actors[a] == Succeed(task, v)
    requires task.job < |s.jobs| && s.jobs[task.job].status == Running
    ensures Enabled(c, s, SetSucceeded(a)) && Enabled(c, Apply(c, s, SetSucceeded(a)), StoreResult(a))
    ensures var s2 := Apply(c, Apply(c, s, SetSucceeded(a)), StoreResult(a));
            && |s2.actors| == |s.actors| && s2.actors[a] == AnnounceSuccess(task, v) && s2.now == s.now
            && s2.jobs == s.jobs[task.job := WithResult(MoveJob(s.jobs[task.job], Succeeded, s.now), v, s.now)]
            && s2.audit == s.audit && s2.counters == s.counters
  {
  }

  lemma SuccessIsReported(c: Config, s: State, a: nat, task: Task, v: Evaluation)
    requires a < |s.actors| && s.actors[a] == AnnounceSuccess(task, v)
    ensures Enabled(c, s, ReportSucceeded(a))
    ensures var s' := Apply(c, s, ReportSucceeded(a));
            && |s'.actors| == |s.actors| && s'.actors[a] == Finished(Some(task.job), task.leasedAt.Some?, false)
            && s'.now == s.now && s'.jobs == s.jobs && s'.audit == s.audit + [JobSucceeded(task.job, v.score)]
            && s'.counters == s.counters.(succeeded := s.counters.succeeded + 1)
  {
  }

  lemma AcceptedSuccessEnds(c: Config, s: State, a: nat, task: Task, v: Evaluation)
    returns (labels: seq<Label>, s': State)
    requires c.backend == InMemory && a < |s.actors| && s.actors[a] == Succeed(task, v)
    requires task.job < |s.jobs| && s.jobs[task.job].status == Running
    ensures Ends(c, s, a, task, Processed(EffectsOf(s), task.job, Scored(v), s.now), false, labels, s')
  {
    ResultIsSaved(c, s, a, task, v);
    var s1 := Apply(c, s, SetSucceeded(a));
    var s2 := Apply(c, s1, StoreResult(a));
    SuccessIsReported(c, s2, a, task, v);
    s' := Apply(c, s2, ReportSucceeded(a));
    LeadsOne(c, s2, ReportSucceeded(a));
    LeadsFirst(c, s1, StoreResult(a), [ReportSucceeded(a)], s');
    labels := [StoreResult(a)] + [ReportSucceeded(a)];
    LeadsFirst(c, s, SetSucceeded(a), labels, s');
    labels := [SetSucceeded(a)] + labels;
  }

  lemma SuccessEnds(c: Config, s: State, a: nat, task: Task, v: Evaluation) returns (labels: seq<Label>, s': State)
    requires c.backend == InMemory && a < |s.actors| && s.actors[a] == Succeed(task, v) && task.job < |s.jobs|
    ensures Ends(c, s, a, task, Processed(EffectsOf(s), task.job, Scored(v), s.now),
                 s.jobs[task.job].status != Running, labels, s')
  {
    if s.jobs[task.job].status == Running {
      labels, s' := AcceptedSuccessEnds(c, s, a, task, v);
    } else {
      labels, s' := FailureEnds(c, Apply(c, s, SetSucceeded(a)), a, task);
      EndsFirst(c, s, a, SetSucceeded(a), task, Processed(EffectsOf(s), task.job, Scored(v), s.now), true, labels, s');
      labels := [SetSucceeded(a)] + labels;
    }
  }

  // What evaluator.score gives agrees with the scoring function of the protocol.
  ghost predicate ScoresAs(c: Config, r: Request, outcome: Evaluated)
  {
    outcome.Scored? ==> outcome.evaluation == c.score(r)
  }

  // Both programs from the moment the job is theirs.
  lemma ReportAndFinishEnds(c: Config, s: State, a: nat, task: Task, outcome: Evaluated)
    returns (labels: seq<Label>, s': State)
    requires c.backend == InMemory && a < |s.actors| && s.actors[a] == AnnounceRunning(task) && task.job < |s.jobs|
    requires ScoresAs(c, task.request, outcome)
    ensures Ends(c, s, a, task, Processed(RunningReported(EffectsOf(s), task.job), task.job, outcome, s.now),
                 !(outcome.Scored? && s.jobs[task.job].status == Running), labels, s')
  {
    var e := Processed(RunningReported(EffectsOf(s), task.job), task.job, outcome, s.now);
    var raised := !(outcome.Scored? && s.jobs[task.job].status == Running);
    var s1 := Apply(c, s, ReportRunning(a));
    var l := if outcome.Scored? then EvaluateOk(a) else EvaluateError(a);
    var s2 := Apply(c, s1, l);
    if outcome.Scored? {
      labels, s' := SuccessEnds(c, s2, a, task, outcome.evaluation);
    } else {
      labels, s' := FailureEnds(c, s2, a, task);
    }
    EndsFirst(c, s1, a, l, task, e, raised, labels, s');
    EndsFirst(c, s, a, ReportRunning(a), task, e, raised, [l] + labels, s');
    labels := [ReportRunning(a)] + ([l] + labels);
  }

  // process from set_running on.
  lemma StartEnds(c: Config, s: State, a: nat, task: Task, outcome: Evaluated)
    returns (labels: seq<Label>, s': State, raised: bool)
    requires c.backend == InMemory && a < |s.actors| && s.actors[a] == Start(task) && task.job < |s.jobs|
    requires ScoresAs(c, task.request, outcome)
    ensures Ends(c, s, a, task, ProcessedFrom(EffectsOf(s), task.job, outcome, s.now), raised, labels, s')
    ensures !raised <==> outcome.Scored? && s.jobs[task.job].status == Queued
  {
    var s1 := Apply(c, s, SetRunning(a));
    if s.jobs[task.job].status == Queued {
      labels, s' := ReportAndFinishEnds(c, s1, a, task, outcome);
      raised := !outcome.Scored?;
    } else {
      labels, s' := FailureEnds(c, s1, a, task);
      raised := true;
    }
    EndsFirst(c, s, a, SetRunning(a), task, ProcessedFrom(EffectsOf(s), task.job, outcome, s.now), raised, labels, s');
    labels := [SetRunning(a)] + labels;
  }

  // process, called while the actor is idle.
  lemma ProcessIsARun(c: Config, s: State, a: nat, k: nat, outcome: Evaluated)
    requires c.backend == InMemory && a < |s.actors| && s.actors[a].Idle? && k < |s.jobs|
    requires ScoresAs(c, s.jobs[k].request, outcome)
    ensures exists labels, s', raised ::
              && Ends(c, s, a, Task(k, s.jobs[k].request, None), ProcessedFrom(EffectsOf(s), k, outcome, s.now),
                      raised, labels, s')
              && (!raised <==> outcome.Scored? && s.jobs[k].status == Queued)
  {
    var task := Task(k, s.jobs[k].request, None);
    var e := ProcessedFrom(EffectsOf(s), k, outcome, s.now);
    var s1 := Apply(c, s, Call(a, k));
    var labels, s', raised := StartEnds(c, Apply(c, s1, Read(a)), a, task, outcome);
    EndsFirst(c, s1, a, Read(a), task, e, raised, labels, s');
    EndsFirst(c, s, a, Call(a, k), task, e, raised, [Read(a)] + labels, s');
  }

  // ----- A round of a polling worker -----

  // The actor does one round with the effects e, and is back in its loop or has ended it.
  ghost predicate RoundEnds(c: Config, s: State, a: nat, e: Effects, goesOn: bool, labels: seq<Label>, s': State)
  {
    && Leads(c, s, labels, s') && Alone(a, labels) && EffectsOf(s') == e
    && a < |s'.actors| && s'.actors[a] == (if goesOn then Idle else Stopped)
  }

  // The work on a claimed job and the return to the loop.
  lemma ClaimedIsARun(c: Config, s: State, a: nat, task: Task, outcome: Evaluated)
    returns (labels: seq<Label>, s': State)
    requires c.backend == InMemory && a < |s.actors| && s.actors[a] == AnnounceRunning(task) && task.job < |s.jobs|
    requires ScoresAs(c, task.request, outcome) && task.leasedAt.Some? && s.jobs[task.job].status == Running
    ensures RoundEnds(c, s, a, Processed(RunningReported(EffectsOf(s), task.job), task.job, outcome, s.now),
                      outcome.Scored?, labels, s')
  {
    var s1;
    labels, s1 := ReportAndFinishEnds(c, s, a, task, outcome);
    s' := Apply(c, s1, Return(a));
    LeadsOne(c, s1, Return(a));
    LeadsThen(c, s, labels, s1, [Return(a)], s');
    labels := labels + [Return(a)];
  }

  // Claim and process.
  lemma WorkIsARun(c: Config, s: State, a: nat, evaluate: Request -> Evaluated, e: Effects, goesOn: bool)
    returns (labels: seq<Label>, s': State)
    requires c.backend == InMemory && a < |s.actors| && s.actors[a].Poll?
    requires forall r :: ScoresAs(c, r, evaluate(r))
    requires e == Worked(EffectsOf(s), evaluate, s.now) && goesOn == WorkGoesOn(EffectsOf(s), evaluate)
    ensures RoundEnds(c, s, a, e, goesOn, labels, s')
  {
    var choice := NextClaim(s.jobs);
    var l := ClaimNext(a, choice);
    var s1 := Apply(c, s, l);
    if choice.None? {
      LeadsNowhere(c, s1);
      labels, s' := [], s1;
    } else {
      var task := Task(choice.value, s.jobs[choice.value].request, Some(s.now));
      labels, s' := ClaimedIsARun(c, s1, a, task, evaluate(task.request));
    }
    LeadsFirst(c, s, l, labels, s');
    labels := [l] + labels;
  }

  lemma RoundEndsAfter(c: Config, s: State, a: nat, first: seq<Label>, s1: State, e: Effects, goesOn: bool,
                       second: seq<Label>, s2: State)
    requires Leads(c, s, first, s1) && Alone(a, first) && RoundEnds(c, s1, a, e, goesOn, second, s2)
    ensures RoundEnds(c, s, a, e, goesOn, first + second, s2)
  {
    LeadsThen(c, s, first, s1, second, s2);
  }

  // e and goesOn are what a claim and its processing come to from there.
  ghost predicate ComesTo(s: State, evaluate: Request -> Evaluated, e: Effects, goesOn: bool)
  {
    e == Worked(EffectsOf(s), evaluate, s.now) && goesOn == WorkGoesOn(EffectsOf(s), evaluate)
  }

  // The actor has polled.
  ghost predicate AtClaim(c: Config, s: State, a: nat, labels: seq<Label>, s1: State)
  {
    Leads(c, s, labels, s1) && Alone(a, labels) && a < |s1.actors| && s1.actors[a].Poll?
  }

  lemma RoundFromClaim(c: Config, s: State, a: nat, evaluate: Request -> Evaluated, e: Effects, goesOn: bool,
                       first: seq<Label>, s1: State) returns (labels: seq<Label>, s': State)
    requires c.backend == InMemory && AtClaim(c, s, a, first, s1) && ComesTo(s1, evaluate, e, goesOn)
    requires forall r :: ScoresAs(c, r, evaluate(r))
    ensures RoundEnds(c, s, a, e, goesOn, labels, s')
  {
    var second;
    second, s' := WorkIsARun(c, s1, a, evaluate, e, goesOn);
    labels := first + second;
    RoundEndsAfter(c, s, a, first, s1, e, goesOn, second, s');
  }

  lemma RoundToClaim(c: Config, s: State, a: nat) returns (labels: seq<Label>, s1: State)
    requires a < |s.actors| && s.actors[a].Idle?
    ensures AtClaim(c, s, a, labels, s1) && Recovered(s, s1, a, s.now - c.staleAfter, {})
  {
    var n := CountStale(s.jobs, s.now - c.staleAfter);
    s1 := PollLeads(c, s, a, {}, n);
    labels := PollLabels(a, n, {});
    AloneInPoll(a, n);
  }

  // One round of EvaluationWorker.run. The actor goes on exactly when no processing raised.
  lemma RoundIsARun(c: Config, s: State, a: nat, evaluate: Request -> Evaluated, e: Effects, goesOn: bool)
    returns (labels: seq<Label>, s': State)
    requires c.backend == InMemory && a < |s.actors| && s.actors[a].Idle?
    requires forall r :: ScoresAs(c, r, evaluate(r))
    requires e == Round(EffectsOf(s), c.staleAfter, evaluate, s.now)
    requires goesOn == RoundGoesOn(EffectsOf(s), c.staleAfter, evaluate, s.now)
    ensures RoundEnds(c, s, a, e, goesOn, labels, s')
  {
    var first, s1 := RoundToClaim(c, s, a);
    WorkAfterPolling(s, s1, a, c.staleAfter, evaluate, e, goesOn);
    labels, s' := RoundFromClaim(c, s, a, evaluate, e, goesOn, first, s1);
  }

  lemma AloneInPoll(a: nat, n: nat)
    ensures Alone(a, PollLabels(a, n, {}))
  {
  }

  lemma WorkAfterPolling(s: State, s1: State, a: nat, staleAfter: Time, evaluate: Request -> Evaluated, e: Effects,
                         goesOn: bool)
    requires Recovered(s, s1, a, s.now - staleAfter, {})
    requires e == Round(EffectsOf(s), staleAfter, evaluate, s.now)
    requires goesOn == RoundGoesOn(EffectsOf(s), staleAfter, evaluate, s.now)
    ensures ComesTo(s1, evaluate, e, goesOn)
  {
    PolledEffects(s, s1, a, staleAfter);
  }

  lemma PolledEffects(s: State, s1: State, a: nat, staleAfter: Time)
    requires Recovered(s, s1, a, s.now - staleAfter, {})
    ensures EffectsOf(s1) == Polled(EffectsOf(s), staleAfter, s.now) && s1.now == s.now
  {
  }
}
