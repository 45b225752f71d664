// What FAILED means. A job fails exhausted, by recovery, or by a set_failed that finds it open; the second
// can happen with attempts left, and exactly when is said here.
module Failures {
  import opened Prelude
  import opened Jobs
  import opened Protocol
  import opened Invariants
  import opened Lifecycle

  // ----- Failing with attempts left -----

  ghost predicate FailedEarly(jobs: seq<Job>, k: nat)
  {
    k < |jobs| && jobs[k].status == Failed && !Exhausted(jobs[k])
  }

  // The step is a set_failed, from a failure handler, on a job that is open and has attempts left.
  ghost predicate FailsEarly(s: State, l: Label, k: nat)
  {
    && l.SetFailed? && l.a < |s.actors| && s.actors[l.a].Fail? && s.actors[l.a].task.job == k
    && k < |s.jobs| && !s.jobs[k].status.Terminal() && !Exhausted(s.jobs[k])
  }

  lemma SetFailedFailsEarlyIff(c: Config, s: State, l: Label, k: nat)
    requires l.SetFailed? && Enabled(c, s, l) && k < |s.jobs|
    ensures FailedEarly(SettleStep(c, s, l).jobs, k) <==> FailedEarly(s.jobs, k) || FailsEarly(s, l, k)
  {
  }

  lemma SettlingFailsEarlyIff(c: Config, s: State, l: Label, k: nat)
    requires ActorsOk(c, s) && Settles(l) && Enabled(c, s, l) && k < |s.jobs|
    ensures FailedEarly(SettleStep(c, s, l).jobs, k) <==> FailedEarly(s.jobs, k) || FailsEarly(s, l, k)
  {
    if l.SetFailed? {
      SetFailedFailsEarlyIff(c, s, l, k);
    } else {
      assert ActorOk(c, s, l.a);
    }
  }

  lemma PollingFailsNothingEarly(c: Config, s: State, l: Label, k: nat)
    requires Polls(l) && Enabled(c, s, l)
    ensures FailedEarly(PollStep(c, s, l).jobs, k) <==> FailedEarly(s.jobs, k)
  {
    if l.ClaimNext? && l.choice.Some? { ClaimIsClaimable(c, s, l); }
  }

  // A step leaves a job failed with attempts left if and only if it was so before, or the step is a
  // set_failed that found it open with attempts left.
  lemma StepFailsEarlyIff(c: Config, s: State, l: Label, s': State, k: nat)
    requires ActorsOk(c, s) && Step(c, s, l, s')
    ensures FailedEarly(s'.jobs, k) <==> FailedEarly(s.jobs, k) || FailsEarly(s, l, k)
  {
    if Settles(l) {
      if k < |s.jobs| { SettlingFailsEarlyIff(c, s, l, k); } else { SettleKeepsSizes(c, s, l); }
    } else if Polls(l) {
      PollingFailsNothingEarly(c, s, l, k);
    }
  }

  ghost predicate FailedEarlyBefore(states: seq<State>, labels: seq<Label>, i: nat, k: nat)
    requires i <= |labels| && i <= |states|
  {
    exists m: nat :: m < i && FailsEarly(states[m], labels[m], k)
  }

  lemma FailedEarlyOneMore(states: seq<State>, labels: seq<Label>, i: nat, k: nat)
    requires 0 < i <= |labels| && i <= |states|
    ensures FailedEarlyBefore(states, labels, i, k)
            <==> FailedEarlyBefore(states, labels, i - 1, k) || FailsEarly(states[i-1], labels[i-1], k)
  {
  }

  // Over every run: a job is failed with attempts left if and only if some set_failed found it open with
  // attempts left. Without such a step FAILED means that the attempts are used up.
  lemma {:induction false} FailedEarlyIff(c: Config, states: seq<State>, labels: seq<Label>, i: nat, k: nat)
    requires IsRun(c, states, labels) && i < |states|
    ensures FailedEarly(states[i].jobs, k) <==> FailedEarlyBefore(states, labels, i, k)
  {
    if i > 0 {
      FailedEarlyIff(c, states, labels, i - 1, k);
      FailedEarlyOneMore(states, labels, i, k);
      FailsEarlyAtIff(c, states, labels, i - 1, k);
    }
  }

  lemma FailsEarlyAtIff(c: Config, states: seq<State>, labels: seq<Label>, i: nat, k: nat)
    requires IsRun(c, states, labels) && i < |labels|
    ensures FailedEarly(states[i+1].jobs, k) <==> FailedEarly(states[i].jobs, k) || FailsEarly(states[i], labels[i], k)
  {
    RunInv(c, states, labels, i);
    assert Step(c, states[i], labels[i], states[i+1]);
    StepFailsEarlyIff(c, states[i], labels[i], states[i+1], k);
  }

  // A success is about to be recorded. It is accepted if the job is running. Otherwise failure handling
  // follows, and that fails the job if and only if recovery has put it back in the queue; the job then has
  // attempts left. A settled job it leaves alone.
  lemma LateSuccessFailsTheJob(c: Config, s: State, a: nat)
    requires Inv(c, s) && a < |s.actors| && s.actors[a].Succeed?
    ensures Enabled(c, s, SetSucceeded(a))
    ensures var k, s1 := s.actors[a].task.job, Apply(c, s, SetSucceeded(a));
            && k < |s.jobs|
            && (s1.jobs[k].status == Succeeded <==> s.jobs[k].status == Running || s.jobs[k].status == Succeeded)
            && (s.jobs[k].status != Running ==> s1.jobs == s.jobs && Enabled(c, s1, SetFailed(a)))
            && (FailsEarly(s1, SetFailed(a), k) <==> s.jobs[k].status == Queued)
            && (s.jobs[k].status.Terminal() ==> Apply(c, s1, SetFailed(a)).jobs == s.jobs)
  {
    assert ActorOk(c, s, a);
    assert WithinBudget(s.jobs[s.actors[a].task.job]);
  }

  // Actor a takes no step of its own from state i to state j.
  ghost predicate Waits(labels: seq<Label>, a: nat, i: nat, j: nat)
    requires j <= |labels|
  {
    forall m :: i <= m < j ==> labels[m].Tick? || labels[m].a != a
  }

  lemma {:induction false} WaitingActorStays(c: Config, states: seq<State>, labels: seq<Label>, a: nat, i: nat, j: nat)
    requires IsRun(c, states, labels) && i <= j < |states| && a < |states[i].actors| && Waits(labels, a, i, j)
    ensures a < |states[j].actors| && states[j].actors[a] == states[i].actors[a]
    decreases j
  {
    if i < j {
      WaitingActorStays(c, states, labels, a, i, j - 1);
      assert Step(c, states[j-1], labels[j-1], states[j]);
      OtherActorsStay(c, states[j-1], labels[j-1]);
    }
  }

  lemma RejectedStart(c: Config, s: State, l: Label)
    requires l.SetRunning? && Enabled(c, s, l) && s.jobs[s.actors[l.a].task.job].status != Queued
    ensures var s' := StartStep(c, s, l);
            && s'.jobs == s.jobs && |s'.actors| == |s.actors| && s'.actors[l.a] == Fail(s.actors[l.a].task)
  {
  }

  // The job of actor a in failure handling: failed if it is open, and otherwise nothing is written.
  lemma FailureHandled(c: Config, s: State, l: Label, k: nat)
    requires l.SetFailed? && Enabled(c, s, l) && k == s.actors[l.a].task.job
    ensures var s' := SettleStep(c, s, l);
            if s.jobs[k].status.Terminal() then s'.jobs == s.jobs
            else k < |s'.jobs| && s'.jobs[k].status == Failed && s'.jobs[k].attemptCount == s.jobs[k].attemptCount
  {
  }

  // In any run: process finds its job not QUEUED when it calls set_running at state i, and its failure handling
  // calls set_failed at state j, whatever the others do in between. The job is then failed if and only if it is
  // open, running under somebody's claim or requeued; a settled job is left as it is.
  lemma ProcessFailsARunningJob(c: Config, states: seq<State>, labels: seq<Label>, i: nat, j: nat, a: nat)
    requires IsRun(c, states, labels) && i < j < |labels| && Waits(labels, a, i + 1, j)
    requires labels[i].SetRunning? && labels[i].a == a && labels[j].SetFailed? && labels[j].a == a
    requires a < |states[i].actors| && states[i].actors[a].Start? && states[i].actors[a].task.job < |states[i].jobs|
    requires states[i].jobs[states[i].actors[a].task.job].status != Queued
    ensures var k := states[i].actors[a].task.job;
            && k < |states[j].jobs| && k < |states[j+1].jobs|
            && (if states[j].jobs[k].status.Terminal() then states[j+1].jobs == states[j].jobs
                else states[j+1].jobs[k].status == Failed)
            && (states[i].jobs[k].status.Terminal() ==> states[j+1].jobs[k].status == states[i].jobs[k].status)
            && (states[j+1].jobs[k].status == Succeeded <==> states[j].jobs[k].status == Succeeded)
  {
    var k := states[i].actors[a].task.job;
    assert Step(c, states[i], labels[i], states[i+1]);
    RejectedStart(c, states[i], labels[i]);
    WaitingActorStays(c, states, labels, a, i + 1, j);
    FailureHandledAt(c, states, labels, j, k);
    JobsEndure(c, states, labels, i, j, k);
  }

  lemma FailureHandledAt(c: Config, states: seq<State>, labels: seq<Label>, j: nat, k: nat)
    requires IsRun(c, states, labels) && j < |labels| && labels[j].SetFailed?
    requires labels[j].a < |states[j].actors| && states[j].actors[labels[j].a].Fail?
    requires states[j].actors[labels[j].a].task.job == k
    ensures k < |states[j].jobs|
    ensures if states[j].jobs[k].status.Terminal() then states[j+1].jobs == states[j].jobs
            else k < |states[j+1].jobs| && states[j+1].jobs[k].status == Failed
  {
    assert Step(c, states[j], labels[j], states[j+1]);
    FailureHandled(c, states[j], labels[j], k);
  }

  // ----- Messages -----

  // A timed-out job has failed and used up its attempts; a failed job was timed out, or carries the
  // message of failure handling, or an actor owes it that message.
  ghost predicate MessageOk(s: State, k: nat)
    requires k < |s.jobs|
  {
    var j := s.jobs[k];
    && (j.errorMessage == Some(TIMED_OUT) ==> j.status == Failed && Exhausted(j))
    && (j.errorMessage == Some(EVALUATION_FAILED) ==> j.status == Failed)
    && (j.status == Failed ==>
          || j.errorMessage == Some(TIMED_OUT) || j.errorMessage == Some(EVALUATION_FAILED)
          || exists a: nat :: a < |s.actors| && OwesError(s, a, k))
  }

  ghost predicate MessagesOk(s: State)
  {
    forall k: nat :: k < |s.jobs| ==> MessageOk(s, k)
  }

  // Outside set_failed's second section, what becomes of one job and of the debts it is owed.
  ghost predicate JobMoves(s: State, s': State, k: nat)
    requires k < |s.jobs| && k < |s'.jobs|
  {
    var j, j' := s.jobs[k], s'.jobs[k];
    || (j'.status == j.status && j'.errorMessage == j.errorMessage)
    || (j.status != Failed && j'.errorMessage == j.errorMessage && j'.status != Failed)
    || (j'.status == Failed && Exhausted(j') && j'.errorMessage == Some(TIMED_OUT))
    || (j'.status == Queued && j'.errorMessage == Some(WORKER_STOPPED))
    || (j'.status == Failed && j'.errorMessage == Some(EVALUATION_FAILED))
    || (j'.status == Failed && j.status != Failed && j'.errorMessage == j.errorMessage
        && exists a: nat :: a < |s'.actors| && OwesError(s', a, k))
  }

  lemma MessagesDiffer()
    ensures TIMED_OUT != EVALUATION_FAILED && TIMED_OUT != WORKER_STOPPED && WORKER_STOPPED != EVALUATION_FAILED
  {
    assert TIMED_OUT[11] != EVALUATION_FAILED[11];
    assert TIMED_OUT[18] != WORKER_STOPPED[18];
    assert |WORKER_STOPPED| != |EVALUATION_FAILED|;
  }

  // Debts are paid only by writing the message.
  ghost predicate DebtsMove(s: State, s': State, k: nat)
    requires k < |s'.jobs|
  {
    forall a: nat :: a < |s.actors| && OwesError(s, a, k) ==>
      s'.jobs[k].errorMessage == Some(EVALUATION_FAILED) || (a < |s'.actors| && OwesError(s', a, k))
  }

  lemma MovedMessageOk(s: State, s': State, k: nat)
    requires k < |s.jobs| && k < |s'.jobs| && MessageOk(s, k) && JobMoves(s, s', k) && DebtsMove(s, s', k)
    requires s.jobs[k].status == Failed ==> s'.jobs[k].status == Failed
    requires s'.jobs[k].attemptCount >= s.jobs[k].attemptCount && s'.jobs[k].maxAttempts == s.jobs[k].maxAttempts
    ensures MessageOk(s', k)
  {
    MessagesDiffer();
    if s.jobs[k].status == Failed && s.jobs[k].errorMessage == s'.jobs[k].errorMessage
       && s.jobs[k].errorMessage != Some(TIMED_OUT) && s.jobs[k].errorMessage != Some(EVALUATION_FAILED) {
      var a: nat :| a < |s.actors| && OwesError(s, a, k);
      assert OwesError(s', a, k);
    }
  }

  lemma SuccessMoves(c: Config, s: State, l: Label, k: nat)
    requires ActorsOk(c, s) && (l.SetSucceeded? || l.StoreResult? || l.ReportSucceeded? || l.Return?)
              && Enabled(c, s, l)
    requires k < |s.jobs|
    ensures var s' := SettleStep(c, s, l); |s'.jobs| == |s.jobs| && JobMoves(s, s', k) && DebtsMove(s, s', k)
  {
    assert ActorOk(c, s, l.a);
  }

  lemma FailureMoves(c: Config, s: State, l: Label, k: nat)
    requires ActorsOk(c, s) && (l.SetFailed? || l.StoreError? || l.ReportFailed?) && Enabled(c, s, l) && k < |s.jobs|
    ensures var s' := SettleStep(c, s, l); |s'.jobs| == |s.jobs| && JobMoves(s, s', k) && DebtsMove(s, s', k)
  {
    assert ActorOk(c, s, l.a);
    var s' := SettleStep(c, s, l);
    if l.SetFailed? && s'.actors[l.a].SaveError? && s.actors[l.a].task.job == k {
      assert OwesError(s', l.a, k);
    }
  }

  lemma PollMoves(c: Config, s: State, l: Label, k: nat)
    requires Polls(l) && Enabled(c, s, l) && k < |s.jobs|
    ensures var s' := PollStep(c, s, l); |s'.jobs| == |s.jobs| && JobMoves(s, s', k) && DebtsMove(s, s', k)
  {
    if l.ClaimNext? && l.choice.Some? { ClaimIsClaimable(c, s, l); }
  }

  lemma OtherMoves(c: Config, s: State, l: Label, k: nat)
    requires Enabled(c, s, l) && !Settles(l) && !Polls(l) && k < |s.jobs|
    ensures var s' := Apply(c, s, l); k < |s'.jobs| && JobMoves(s, s', k) && DebtsMove(s, s', k)
  {
    NonSettlingActorOwes(c, s, l, k);
  }

  lemma NonSettlingActorOwes(c: Config, s: State, l: Label, k: nat)
    requires Enabled(c, s, l) && !Settles(l)
    ensures |Apply(c, s, l).actors| == |s.actors|
    ensures forall a: nat :: a < |s.actors| && OwesError(s, a, k) ==> OwesError(Apply(c, s, l), a, k)
  {
    OtherActorsStay(c, s, l);
    if !l.Tick? { NonSettlingActor(c, s, l); }
  }

  lemma SettlingMoves(c: Config, s: State, l: Label, k: nat)
    requires ActorsOk(c, s) && Settles(l) && Enabled(c, s, l) && k < |s.jobs|
    ensures var s' := SettleStep(c, s, l); |s'.jobs| == |s.jobs| && JobMoves(s, s', k) && DebtsMove(s, s', k)
  {
    if l.SetFailed? || l.StoreError? || l.ReportFailed? {
      FailureMoves(c, s, l, k);
    } else {
      SuccessMoves(c, s, l, k);
    }
  }

  lemma StepMoves(c: Config, s: State, l: Label, k: nat)
    requires ActorsOk(c, s) && Enabled(c, s, l) && k < |s.jobs|
    ensures var s' := Apply(c, s, l); k < |s'.jobs| && JobMoves(s, s', k) && DebtsMove(s, s', k)
  {
    if Settles(l) {
      SettlingMoves(c, s, l, k);
    } else if Polls(l) {
      PollMoves(c, s, l, k);
    } else {
      OtherMoves(c, s, l, k);
    }
  }

  lemma StepMessageOk(c: Config, s: State, l: Label, k: nat)
    requires JobsOk(c, s) && ActorsOk(c, s) && MessagesOk(s) && Enabled(c, s, l) && k < |s.jobs|
    ensures k < |Apply(c, s, l).jobs| && MessageOk(Apply(c, s, l), k)
  {
    StepMoves(c, s, l, k);
    StepEvolves(c, s, l);
    assert Evolves(s.jobs[k], Apply(c, s, l).jobs[k]) && MessageOk(s, k);
    MovedMessageOk(s, Apply(c, s, l), k);
  }

  lemma StepMessagesOk(c: Config, s: State, l: Label, s': State)
    requires JobsOk(c, s) && ActorsOk(c, s) && MessagesOk(s) && Step(c, s, l, s')
    ensures MessagesOk(s')
  {
    StepEvolves(c, s, l);
    forall k: nat | k < |s'.jobs| ensures MessageOk(s', k) {
      if k < |s.jobs| { StepMessageOk(c, s, l, k); }
    }
  }

  lemma {:induction false} RunMessagesOk(c: Config, states: seq<State>, labels: seq<Label>, i: nat)
    requires IsRun(c, states, labels) && i < |states|
    ensures MessagesOk(states[i])
  {
    if i > 0 {
      RunMessagesOk(c, states, labels, i - 1);
      RunInv(c, states, labels, i - 1);
      assert Step(c, states[i-1], labels[i-1], states[i]);
      StepMessagesOk(c, states[i-1], labels[i-1], states[i]);
    }
  }

  // Over every run: the time-out message means failed and out of attempts; a failed job without it carries
  // the message of failure handling or is owed it; and a job that failed with attempts left never has the
  // time-out message.
  lemma MessagesTellTheFailure(c: Config, states: seq<State>, labels: seq<Label>, i: nat, k: nat)
    requires IsRun(c, states, labels) && i < |states| && k < |states[i].jobs|
    ensures var s, j := states[i], states[i].jobs[k];
            && (j.errorMessage == Some(TIMED_OUT) ==> j.status == Failed && Exhausted(j))
            && (j.status == Failed && j.errorMessage != Some(TIMED_OUT) ==>
                  j.errorMessage == Some(EVALUATION_FAILED) || exists a: nat :: a < |s.actors| && OwesError(s, a, k))
            && (FailedEarly(s.jobs, k) ==> j.errorMessage != Some(TIMED_OUT))
  {
    RunMessagesOk(c, states, labels, i);
    assert MessageOk(states[i], k);
  }
}
