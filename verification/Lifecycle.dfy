// What happens to a job over a whole run: it settles once, keeps its request, records only its own
// score, stays within its budget and changes status a bounded number of times.
module Lifecycle {
  import opened Prelude
  import opened Jobs
  import opened Store
  import opened Protocol
  import opened Invariants

  // ----- From one state of a run to a later one -----

  lemma RunStep(c: Config, states: seq<State>, labels: seq<Label>, i: nat)
    requires IsRun(c, states, labels) && i < |labels|
    ensures Inv(c, states[i]) && JobsEvolve(states[i].jobs, states[i+1].jobs)
    ensures JobsChangeLegally(c, states[i], labels[i], states[i+1].jobs)
  {
    RunInv(c, states, labels, i);
    assert Step(c, states[i], labels[i], states[i+1]);
    StepEvolves(c, states[i], labels[i]);
  }

  // Queued and running jobs may move on; a settled job keeps its status, a recorded result stays,
  // and the request a job was created with never changes.
  lemma JobsEndure(c: Config, states: seq<State>, labels: seq<Label>, i: nat, j: nat, k: nat)
    requires IsRun(c, states, labels) && i <= j < |states| && k < |states[i].jobs|
    ensures k < |states[j].jobs| && SameIdentity(states[i].jobs[k], states[j].jobs[k])
    ensures states[i].jobs[k].status.Terminal() ==> states[j].jobs[k].status == states[i].jobs[k].status
    ensures states[i].jobs[k].result.Some? ==> states[j].jobs[k].result == states[i].jobs[k].result
  {
    forall m | 0 < m < |states| ensures JobsEvolve(states[m-1].jobs, states[m].jobs) {
      RunStepEvolves(c, states, labels, m - 1);
    }
    EvolvingJobsEndure(states, i, j, k);
  }

  lemma {:induction false} EvolvingJobsEndure(states: seq<State>, i: nat, j: nat, k: nat)
    requires forall m :: 0 < m < |states| ==> JobsEvolve(states[m-1].jobs, states[m].jobs)
    requires i <= j < |states| && k < |states[i].jobs|
    ensures k < |states[j].jobs| && SameIdentity(states[i].jobs[k], states[j].jobs[k])
    ensures states[i].jobs[k].status.Terminal() ==> states[j].jobs[k].status == states[i].jobs[k].status
    ensures states[i].jobs[k].result.Some? ==> states[j].jobs[k].result == states[i].jobs[k].result
    decreases j
  {
    if i < j {
      EvolvingJobsEndure(states, i, j - 1, k);
      assert Evolves(states[j-1].jobs[k], states[j].jobs[k]);
    }
  }

  lemma RunStepEvolves(c: Config, states: seq<State>, labels: seq<Label>, i: nat)
    requires IsRun(c, states, labels) && i < |labels|
    ensures JobsEvolve(states[i].jobs, states[i+1].jobs)
  {
    RunStep(c, states, labels, i);
  }

  // The step from state i moves job k to succeeded.
  ghost predicate SucceedsAt(states: seq<State>, i: nat, k: nat)
  {
    && i + 1 < |states| && k < |states[i].jobs| && k < |states[i+1].jobs|
    && states[i].jobs[k].status != Succeeded && states[i+1].jobs[k].status == Succeeded
  }

  // However many workers, crashes, requeues and late writes: a job succeeds at most once,
  // and never after it failed.
  lemma SucceedsAtMostOnce(c: Config, states: seq<State>, labels: seq<Label>, i: nat, j: nat, k: nat)
    requires IsRun(c, states, labels) && SucceedsAt(states, i, k)
    ensures SucceedsAt(states, j, k) ==> i == j
    ensures forall m :: 0 <= m <= i && k < |states[m].jobs| ==> states[m].jobs[k].status != Failed
  {
    if SucceedsAt(states, j, k) {
      if i < j { JobsEndure(c, states, labels, i + 1, j, k); }
      if j < i { JobsEndure(c, states, labels, j + 1, i, k); }
    }
    forall m | 0 <= m <= i && k < |states[m].jobs| ensures states[m].jobs[k].status != Failed {
      JobsEndure(c, states, labels, m, i + 1, k);
    }
  }

  // Step m submits job k.
  ghost predicate SubmitsAt(states: seq<State>, labels: seq<Label>, m: nat, k: nat)
  {
    && m < |labels| && m + 1 < |states| && labels[m].Create?
    && |states[m].jobs| == k && |states[m+1].jobs| == k + 1 && Fresh(states[m+1].jobs[k], states[m].now)
  }

  // Job k was created by step m, and still carries what that submission gave it.
  ghost predicate SubmittedBy(states: seq<State>, labels: seq<Label>, i: nat, m: nat, k: nat)
    requires i < |states| && k < |states[i].jobs|
  {
    && m < i && SubmitsAt(states, labels, m, k)
    && SubmittedAs(states[i].jobs[k], labels[m].id, labels[m].request, labels[m].maxAttempts, states[m].now)
  }

  lemma Creates(c: Config, s: State, l: Label)
    requires Enabled(c, s, l) && |Apply(c, s, l).jobs| > |s.jobs|
    ensures l.Create? && |Apply(c, s, l).jobs| == |s.jobs| + 1
    ensures var j := Apply(c, s, l).jobs[|s.jobs|];
            Fresh(j, s.now) && SubmittedAs(j, l.id, l.request, l.maxAttempts, s.now)
  {
  }

  lemma NewJobIsSubmitted(c: Config, states: seq<State>, labels: seq<Label>, m: nat, k: nat)
    requires IsRun(c, states, labels) && m < |labels| && |states[m].jobs| <= k < |states[m+1].jobs|
    ensures SubmittedBy(states, labels, m + 1, m, k)
  {
    assert Step(c, states[m], labels[m], states[m+1]);
    Creates(c, states[m], labels[m]);
  }

  lemma SubmissionIsKept(c: Config, states: seq<State>, labels: seq<Label>, i: nat, m: nat, k: nat)
    requires IsRun(c, states, labels) && i + 1 < |states|
    requires k < |states[i].jobs| && SubmittedBy(states, labels, i, m, k)
    ensures k < |states[i+1].jobs| && SubmittedBy(states, labels, i + 1, m, k)
  {
    RunStep(c, states, labels, i);
    assert Evolves(states[i].jobs[k], states[i+1].jobs[k]);
  }

  lemma {:induction false} SubmissionOf(c: Config, states: seq<State>, labels: seq<Label>, i: nat, k: nat)
    returns (m: nat)
    requires IsRun(c, states, labels) && i < |states| && k < |states[i].jobs|
    ensures SubmittedBy(states, labels, i, m, k)
  {
    assert i > 0 by { assert states[0].jobs == []; }
    if k < |states[i-1].jobs| {
      m := SubmissionOf(c, states, labels, i - 1, k);
      SubmissionIsKept(c, states, labels, i - 1, m, k);
    } else {
      m := i - 1;
      NewJobIsSubmitted(c, states, labels, m, k);
    }
  }

  // Job k of any state was created, queued and untouched, by one submission, and carries that submission's id,
  // request, tenant, project, budget and instant.
  lemma EveryJobWasSubmitted(c: Config, states: seq<State>, labels: seq<Label>, i: nat, k: nat)
    requires IsRun(c, states, labels) && i < |states| && k < |states[i].jobs|
    ensures exists m: nat :: m < i && SubmitsAt(states, labels, m, k)
              && SubmittedAs(states[i].jobs[k], labels[m].id, labels[m].request, labels[m].maxAttempts, states[m].now)
  {
    var m := SubmissionOf(c, states, labels, i, k);
  }

  // Whichever attempt wrote it, a recorded result is the score of the submitted request.
  lemma RecordedResultIsTheScore(c: Config, states: seq<State>, labels: seq<Label>, i: nat, k: nat)
    requires IsRun(c, states, labels) && i < |states| && k < |states[i].jobs| && states[i].jobs[k].result.Some?
    ensures exists m :: 0 <= m < i && labels[m].Create? && |states[m].jobs| == k
              && states[i].jobs[k].status == Succeeded
              && states[i].jobs[k].result == Some(c.score(labels[m].request))
  {
    EveryJobWasSubmitted(c, states, labels, i, k);
    RunInv(c, states, labels, i);
    assert ScoredBy(c.score, states[i].jobs[k]);
  }

  // ----- Budget -----

  // The attempt numbers claimed on job k, in claim order.
  ghost function ClaimsOf(claims: seq<(nat, int)>, k: nat): seq<int>
  {
    if claims == [] then []
    else
      var n := |claims| - 1;
      ClaimsOf(claims[..n], k) + (if claims[n].0 == k then [claims[n].1] else [])
  }

  // ClaimsOf is 1, 2, ..., n.
  ghost predicate CountsUpTo(s: seq<int>, n: int)
  {
    |s| == n && forall i :: 0 <= i < |s| ==> s[i] == i + 1
  }

  lemma ClaimsOfAppend(claims: seq<(nat, int)>, e: (nat, int), k: nat)
    ensures ClaimsOf(claims + [e], k) == ClaimsOf(claims, k) + (if e.0 == k then [e.1] else [])
  {
    assert (claims + [e])[..|claims|] == claims;
  }

  ghost predicate ClaimsJob(l: Label, k: nat) { l.ClaimNext? && l.choice == Some(k) }

  lemma ClaimAttempts(c: Config, s: State, l: Label, k: nat)
    requires Enabled(c, s, l) && l.ClaimNext? && l.choice.Some?
    ensures l.choice.value < |s.jobs| && |PollStep(c, s, l).jobs| == |s.jobs|
    ensures k < |s.jobs| ==>
              PollStep(c, s, l).jobs[k].attemptCount == s.jobs[k].attemptCount + (if ClaimsJob(l, k) then 1 else 0)
    ensures PollStep(c, s, l).claims == s.claims + [(l.choice.value, s.jobs[l.choice.value].attemptCount + 1)]
  {
    ClaimIsClaimable(c, s, l);
  }

  lemma OtherAttempts(c: Config, s: State, l: Label, k: nat)
    requires JobsOk(c, s) && ActorsOk(c, s) && Enabled(c, s, l) && !(l.ClaimNext? && l.choice.Some?)
    ensures Apply(c, s, l).claims == s.claims && |s.jobs| <= |Apply(c, s, l).jobs|
    ensures k < |s.jobs| ==> Apply(c, s, l).jobs[k].attemptCount == s.jobs[k].attemptCount
    ensures |s.jobs| <= k < |Apply(c, s, l).jobs| ==> Apply(c, s, l).jobs[k].attemptCount == 0
  {
    if Settles(l) {
      SettleAttempts(c, s, l, k);
    } else if Polls(l) {
      PollAttempts(c, s, l, k);
    }
  }

  lemma SettleAttempts(c: Config, s: State, l: Label, k: nat)
    requires Settles(l) && Enabled(c, s, l)
    ensures SettleStep(c, s, l).claims == s.claims && |SettleStep(c, s, l).jobs| == |s.jobs|
    ensures k < |s.jobs| ==> SettleStep(c, s, l).jobs[k].attemptCount == s.jobs[k].attemptCount
  {
  }

  lemma PollAttempts(c: Config, s: State, l: Label, k: nat)
    requires Polls(l) && !(l.ClaimNext? && l.choice.Some?) && Enabled(c, s, l)
    ensures PollStep(c, s, l).claims == s.claims && |PollStep(c, s, l).jobs| == |s.jobs|
    ensures k < |s.jobs| ==> PollStep(c, s, l).jobs[k].attemptCount == s.jobs[k].attemptCount
  {
  }

  ghost predicate ClaimsCounted(s: State, k: nat)
  {
    CountsUpTo(ClaimsOf(s.claims, k), if k < |s.jobs| then s.jobs[k].attemptCount else 0)
  }

  lemma OneMoreClaim(before: seq<(nat, int)>, row: nat, n: int, k: nat, count: int)
    requires CountsUpTo(ClaimsOf(before, k), count) && (k == row ==> n == count + 1)
    ensures CountsUpTo(ClaimsOf(before + [(row, n)], k), if k == row then count + 1 else count)
  {
    ClaimsOfAppend(before, (row, n), k);
  }

  lemma StepClaimsCounted(c: Config, s: State, l: Label, k: nat)
    requires JobsOk(c, s) && ActorsOk(c, s) && Enabled(c, s, l) && ClaimsCounted(s, k)
    ensures ClaimsCounted(Apply(c, s, l), k)
  {
    if l.ClaimNext? && l.choice.Some? {
      ClaimAttempts(c, s, l, k);
      var row := l.choice.value;
      OneMoreClaim(s.claims, row, s.jobs[row].attemptCount + 1, k, if k < |s.jobs| then s.jobs[k].attemptCount else 0);
    } else {
      OtherAttempts(c, s, l, k);
    }
  }

  // The claims made on a job are attempts 1, 2, ..., attempt_count: each number exactly once.
  // In particular no (job, attempt) pair is claimed twice.
  lemma {:induction false} ClaimsCountAttempts(c: Config, states: seq<State>, labels: seq<Label>, i: nat, k: nat)
    requires IsRun(c, states, labels) && i < |states|
    ensures ClaimsCounted(states[i], k)
  {
    if i > 0 {
      ClaimsCountAttempts(c, states, labels, i - 1, k);
      RunInv(c, states, labels, i - 1);
      assert Step(c, states[i-1], labels[i-1], states[i]);
      StepClaimsCounted(c, states[i-1], labels[i-1], k);
    }
  }

  // No queued job is stranded: it is unclaimed and has an attempt left, so a claim comes back
  // empty-handed exactly when no job is queued.
  lemma NoStrandedJobs(c: Config, states: seq<State>, labels: seq<Label>, i: nat)
    requires IsRun(c, states, labels) && i < |states|
    ensures forall k :: 0 <= k < |states[i].jobs| ==>
              var j := states[i].jobs[k];
              0 <= j.attemptCount <= j.maxAttempts
              && (j.status == Queued ==> j.claimedAt.None? && j.attemptCount < j.maxAttempts)
    ensures NextClaim(states[i].jobs).None? <==>
              forall k :: 0 <= k < |states[i].jobs| ==> states[i].jobs[k].status != Queued
  {
    RunInv(c, states, labels, i);
    forall k | 0 <= k < |states[i].jobs| ensures WithinBudget(states[i].jobs[k]) {}
    NextClaimIsOldest(states[i].jobs);
  }

  // ----- Termination -----

  // The status changes of job k in the first j steps.
  ghost function ChangesOf(states: seq<State>, j: nat, k: nat): int
    requires j < |states|
  {
    if j == 0 then 0
    else ChangesOf(states, j - 1, k) + (if StatusChanges(states[j-1], states[j], k) then 1 else 0)
  }

  ghost predicate StatusChanges(s: State, s': State, k: nat)
  {
    k < |s.jobs| && k < |s'.jobs| && s.jobs[k].status != s'.jobs[k].status
  }

  // Over the whole run a job changes status at most twice for every attempt it was given.
  lemma {:induction false} JobChangesAtMostTwicePerAttempt(
      c: Config, states: seq<State>, labels: seq<Label>, j: nat, k: nat)
    requires IsRun(c, states, labels) && j < |states|
    ensures k >= |states[j].jobs| ==> ChangesOf(states, j, k) == 0
    ensures k < |states[j].jobs| ==>
              ChangesOf(states, j, k) <= 2 * states[j].jobs[k].maxAttempts - ChangesLeft(states[j].jobs[k])
    ensures k < |states[j].jobs| ==> 0 <= ChangesLeft(states[j].jobs[k])
  {
    RunInv(c, states, labels, j);
    if j > 0 {
      JobChangesAtMostTwicePerAttempt(c, states, labels, j - 1, k);
      RunStep(c, states, labels, j - 1);
      if k < |states[j-1].jobs| {
        assert WithinBudget(states[j-1].jobs[k]) && Evolves(states[j-1].jobs[k], states[j].jobs[k]);
        EvolvingKeepsBudget(states[j-1].jobs[k], states[j].jobs[k]);
      }
    }
  }

  ghost function TotalChanges(states: seq<State>, j: nat): int
    requires j < |states|
  {
    if j == 0 then 0
    else TotalChanges(states, j - 1) + ChangedJobs(states[j-1].jobs, states[j].jobs)
  }

  // How many of the jobs of before have another status in after.
  ghost function ChangedJobs(before: seq<Job>, after: seq<Job>): int
  {
    if before == [] then 0
    else
      var n := |before| - 1;
      ChangedJobs(before[..n], after) + (if n < |after| && before[n].status != after[n].status then 1 else 0)
  }

  ghost function Granted(j: Job): int { 2 * j.maxAttempts }

  lemma {:induction false} ChangedJobsBounded(before: seq<Job>, after: seq<Job>)
    requires JobsEvolve(before, after) && forall k :: 0 <= k < |before| ==> WithinBudget(before[k])
    ensures ChangedJobs(before, after) + Tally(after[..|before|], ChangesLeft) <= Tally(before, ChangesLeft)
  {
    if before != [] {
      var n := |before| - 1;
      ChangedJobsBounded(before[..n], after);
      EvolvingKeepsBudget(before[n], after[n]);
      TallyOneMore(before, n);
      TallyOneMore(after, n);
      assert before[..n+1] == before;
    }
  }

  lemma TallyOneMore(jobs: seq<Job>, n: nat)
    requires n < |jobs|
    ensures Tally(jobs[..n+1], ChangesLeft) == Tally(jobs[..n], ChangesLeft) + ChangesLeft(jobs[n])
  {
    assert jobs[..n+1] == jobs[..n] + [jobs[n]];
    TallyAppend(jobs[..n], jobs[n], ChangesLeft);
  }

  lemma {:induction false} GrantedIsFixed(before: seq<Job>, after: seq<Job>)
    requires JobsEvolve(before, after)
    ensures Tally(after[..|before|], Granted) == Tally(before, Granted)
  {
    if before != [] {
      var n := |before| - 1;
      GrantedIsFixed(before[..n], after);
      assert Evolves(before[n], after[n]);
      assert after[..|before|] == after[..n] + [after[n]];
      assert before == before[..n] + [before[n]];
      TallyAppend(after[..n], after[n], Granted);
      TallyAppend(before[..n], before[n], Granted);
    }
  }

  // What one step adds to the changes made it takes from the changes left, but for what a new job is granted.
  lemma SumsStep(before: seq<Job>, after: seq<Job>)
    requires JobsEvolve(before, after) && |after| <= |before| + 1
    requires forall k :: 0 <= k < |before| ==> WithinBudget(before[k])
    requires |after| > |before| ==> ChangesLeft(after[|before|]) == Granted(after[|before|])
    ensures ChangedJobs(before, after) + Tally(after, ChangesLeft) - Tally(after, Granted)
              <= Tally(before, ChangesLeft) - Tally(before, Granted)
  {
    ChangedJobsBounded(before, after);
    GrantedIsFixed(before, after);
    var n := |before|;
    if |after| > n {
      assert after == after[..n] + [after[n]];
      TallyAppend(after[..n], after[n], ChangesLeft);
      TallyAppend(after[..n], after[n], Granted);
    } else {
      assert after[..n] == after;
    }
  }

  lemma SumsStepAt(c: Config, states: seq<State>, labels: seq<Label>, i: nat)
    requires IsRun(c, states, labels) && i < |labels|
    ensures ChangedJobs(states[i].jobs, states[i+1].jobs)
               + Tally(states[i+1].jobs, ChangesLeft) - Tally(states[i+1].jobs, Granted)
              <= Tally(states[i].jobs, ChangesLeft) - Tally(states[i].jobs, Granted)
  {
    RunStep(c, states, labels, i);
    OneNewJobAt(c, states, labels, i);
    forall k | 0 <= k < |states[i].jobs| ensures WithinBudget(states[i].jobs[k]) {}
    SumsStep(states[i].jobs, states[i+1].jobs);
  }

  // Summed over all jobs: a run with finitely many submissions has finitely many status changes,
  // at most twice the attempts granted.
  lemma {:induction false} TotalChangesAreBounded(c: Config, states: seq<State>, labels: seq<Label>, j: nat)
    requires IsRun(c, states, labels) && j < |states|
    ensures TotalChanges(states, j) + Tally(states[j].jobs, ChangesLeft) <= Tally(states[j].jobs, Granted)
  {
    if j > 0 {
      TotalChangesAreBounded(c, states, labels, j - 1);
      SumsStepAt(c, states, labels, j - 1);
    }
  }

  lemma OneNewJobAt(c: Config, states: seq<State>, labels: seq<Label>, i: nat)
    requires IsRun(c, states, labels) && i < |labels|
    ensures |states[i].jobs| <= |states[i+1].jobs| <= |states[i].jobs| + 1
  {
    assert Step(c, states[i], labels[i], states[i+1]);
    OneNewJob(c, states[i], labels[i]);
  }

  lemma OneNewJob(c: Config, s: State, l: Label)
    requires Enabled(c, s, l)
    ensures |s.jobs| <= |Apply(c, s, l).jobs| <= |s.jobs| + 1
  {
  }

  // ----- Processing settles the job -----

  // The number of own steps an actor with a task takes at most before process or process_claimed ends.
  function StepsToFinish(pc: Pc): (n: nat)
    ensures n <= 7
  {
    match pc
    case Start(_) => 7
    case AnnounceRunning(_) => 6
    case Evaluate(_) => 5
    case Succeed(_, _) => 4
    case Fail(_) => 3
    case SaveResult(_, _) => 2
    case SaveError(_) => 2
    case AnnounceSuccess(_, _) => 1
    case AnnounceFailure(_) => 1
    case _ => 0
  }

  // Once process or process_claimed has returned or raised, its job is settled, whatever
  // other workers and recovery did meanwhile and whatever status it started in.
  lemma ProcessedJobIsSettled(c: Config, states: seq<State>, labels: seq<Label>, i: nat, a: nat)
    requires IsRun(c, states, labels) && i < |states| && a < |states[i].actors|
    requires states[i].actors[a].Finished? && states[i].actors[a].handled.Some?
    ensures var k := states[i].actors[a].handled.value;
            k < |states[i].jobs| && states[i].jobs[k].status.Terminal()
  {
    RunInv(c, states, labels, i);
    assert ActorOk(c, states[i], a);
  }

  ghost predicate CloserToTheEnd(pc: Pc, pc': Pc)
    requires HasTask(pc)
  {
    && StepsToFinish(pc') < StepsToFinish(pc)
    && ((HasTask(pc') && pc'.task == pc.task) || (pc'.Finished? && pc'.handled == Some(pc.task.job)))
  }

  lemma SettlingProgresses(c: Config, s: State, l: Label)
    requires Enabled(c, s, l) && Settles(l) && HasTask(s.actors[l.a])
    ensures |SettleStep(c, s, l).actors| == |s.actors|
    ensures CloserToTheEnd(s.actors[l.a], SettleStep(c, s, l).actors[l.a])
  {
  }

  // An actor with a task can always move (ProcessingIsNeverStuck), and every own step short of a
  // crash brings it closer to the end of that task.
  lemma ProcessingProgresses(c: Config, s: State, l: Label)
    requires Enabled(c, s, l) && !l.Tick? && !l.Crash? && HasTask(s.actors[l.a])
    ensures CloserToTheEnd(s.actors[l.a], Apply(c, s, l).actors[l.a])
  {
    if Settles(l) {
      SettlingProgresses(c, s, l);
    }
  }

  // The steps actor a itself takes from state i to state j.
  ghost function OwnSteps(labels: seq<Label>, a: nat, i: nat, j: nat): nat
    requires i <= j <= |labels|
    decreases j
  {
    if i == j then 0
    else OwnSteps(labels, a, i, j - 1) + (if IsOwn(labels[j-1], a) then 1 else 0)
  }

  ghost predicate IsOwn(l: Label, a: nat) { !l.Tick? && l.a == a }

  // left counts what is left before each step; every own step takes some.
  lemma {:induction false} OwnStepsRunOut(labels: seq<Label>, a: nat, left: seq<nat>, i: nat, j: nat)
    requires i <= j <= |labels| && |left| == |labels| + 1
    requires forall m: nat :: i <= m < j ==> left[m+1] + (if IsOwn(labels[m], a) then 1 else 0) <= left[m]
    ensures OwnSteps(labels, a, i, j) + left[j] <= left[i]
    decreases j
  {
    if i < j {
      OwnStepsRunOut(labels, a, left, i, j - 1);
    }
  }

  lemma OwnStepProgresses(c: Config, s: State, l: Label, a: nat)
    requires Enabled(c, s, l) && a < |s.actors| && HasTask(s.actors[a])
    ensures |Apply(c, s, l).actors| == |s.actors|
    ensures var pc, pc' := s.actors[a], Apply(c, s, l).actors[a];
            if l.Tick? || l.a != a then pc' == pc else pc'.Crashed? || CloserToTheEnd(pc, pc')
  {
    OtherActorsStay(c, s, l);
    if !l.Tick? && l.a == a && !l.Crash? {
      ProcessingProgresses(c, s, l);
    }
  }

  ghost predicate AtTask(states: seq<State>, a: nat, m: nat)
  {
    m < |states| && a < |states[m].actors| && HasTask(states[m].actors[a])
  }

  ghost predicate AtTaskThroughout(states: seq<State>, a: nat, i: nat, j: nat)
  {
    forall m: nat :: i <= m <= j ==> AtTask(states, a, m)
  }

  lemma OwnStepAt(c: Config, states: seq<State>, labels: seq<Label>, a: nat, i: nat)
    requires IsRun(c, states, labels) && i < |labels| && AtTask(states, a, i) && AtTask(states, a, i + 1)
    ensures StepsToFinish(states[i+1].actors[a]) + (if IsOwn(labels[i], a) then 1 else 0)
              <= StepsToFinish(states[i].actors[a])
  {
    assert Step(c, states[i], labels[i], states[i+1]);
    OwnStepProgresses(c, states[i], labels[i], a);
  }

  ghost function StepsLeft(states: seq<State>, a: nat): (left: seq<nat>)
    ensures |left| == |states|
  {
    seq(|states|, m requires 0 <= m < |states| =>
      if a < |states[m].actors| then StepsToFinish(states[m].actors[a]) else 0)
  }

  // While an actor works on a task it takes at most StepsToFinish own steps, so at most seven after
  // reading the job: it cannot work on it for ever, whatever the others do.
  lemma ProcessingEnds(c: Config, states: seq<State>, labels: seq<Label>, a: nat, i: nat, j: nat)
    requires IsRun(c, states, labels) && i <= j < |states|
    requires AtTaskThroughout(states, a, i, j) && AtTask(states, a, i) && AtTask(states, a, j)
    ensures OwnSteps(labels, a, i, j) + StepsToFinish(states[j].actors[a]) <= StepsToFinish(states[i].actors[a]) <= 7
  {
    var left := StepsLeft(states, a);
    forall m: nat | i <= m < j ensures left[m+1] + (if IsOwn(labels[m], a) then 1 else 0) <= left[m] {
      assert AtTask(states, a, m) && AtTask(states, a, m + 1);
      OwnStepAt(c, states, labels, a, m);
    }
    OwnStepsRunOut(labels, a, left, i, j);
  }

  lemma ProcessingIsNeverStuck(c: Config, s: State, a: nat)
    requires Inv(c, s) && a < |s.actors| && HasTask(s.actors[a])
    ensures exists l :: Enabled(c, s, l) && !l.Tick? && !l.Crash? && l.a == a
  {
    assert ActorOk(c, s, a);
    var l := match s.actors[a]
      case Start(_) => SetRunning(a)
      case AnnounceRunning(_) => ReportRunning(a)
      case Evaluate(_) => EvaluateOk(a)
      case Succeed(_, _) => SetSucceeded(a)
      case SaveResult(_, _) => StoreResult(a)
      case AnnounceSuccess(_, _) => ReportSucceeded(a)
      case Fail(_) => SetFailed(a)
      case SaveError(_) => StoreError(a)
      case _ => ReportFailed(a);
    assert Enabled(c, s, l);
  }

  // ----- The two lock sections of set_succeeded -----

  // A job is succeeded and lacks its result exactly while one actor stands, alive, between the two
  // lock sections of set_succeeded for it; with single transactions that never happens.
  lemma ResultIsOwedByExactlyOne(c: Config, states: seq<State>, labels: seq<Label>, i: nat, k: nat)
    requires IsRun(c, states, labels) && i < |states| && k < |states[i].jobs|
    ensures var s := states[i];
            (s.jobs[k].status == Succeeded && s.jobs[k].result.None?)
            <==> exists a :: 0 <= a < |s.actors| && s.actors[a].SaveResult? && s.actors[a].task.job == k
    ensures var s := states[i];
            forall a, b :: (0 <= a < |s.actors| && 0 <= b < |s.actors|
              && s.actors[a].SaveResult? && s.actors[a].task.job == k
              && s.actors[b].SaveResult? && s.actors[b].task.job == k) ==> a == b
    ensures c.backend.Postgres? && states[i].jobs[k].status == Succeeded ==>
              states[i].jobs[k].result == Some(c.score(states[i].jobs[k].request))
  {
    RunInv(c, states, labels, i);
    var s := states[i];
    if s.jobs[k].status == Succeeded && s.jobs[k].result.None? {
      var a :| 0 <= a < |s.actors| && OwesResult(s, a, k);
      assert ActorOk(c, s, a);
    }
    forall a | 0 <= a < |s.actors| && s.actors[a].SaveResult? && s.actors[a].task.job == k
      ensures Owns(s, a, k) && s.jobs[k].status == Succeeded && s.jobs[k].result.None?
    {
      assert ActorOk(c, s, a);
      assert OwesResult(s, a, k);
    }
    assert ScoredBy(c.score, s.jobs[k]);
  }
}
