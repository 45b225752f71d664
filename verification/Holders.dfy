// Who works on a running job. Somebody always does, live or crashed, and a job that runs through process
// is out of the reach of recovery.
module Holders {
  import opened Jobs
  import opened Protocol
  import opened Invariants
  import opened Lifecycle

  // ----- Every running job is held -----

  // Actor a is at work on job k, or was when it crashed.
  ghost predicate Holds(s: State, a: nat, k: nat)
  {
    a < |s.actors| && Working(At(s.actors[a])) && At(s.actors[a]).task.job == k
  }

  ghost predicate Held(s: State, k: nat)
  {
    exists a: nat :: Holds(s, a, k)
  }

  ghost predicate RunningIsHeld(s: State)
  {
    forall k: nat :: k < |s.jobs| && s.jobs[k].status == Running ==> Held(s, k)
  }

  // An actor at work leaves its job only by settling it.
  lemma SettlingLetsGo(c: Config, s: State, l: Label, k: nat)
    requires Settles(l) && Enabled(c, s, l) && Holds(s, l.a, k)
    ensures var s' := SettleStep(c, s, l);
            Holds(s', l.a, k) || (k < |s'.jobs| && s'.jobs[k].status.Terminal())
  {
  }

  lemma StartingHolds(c: Config, s: State, l: Label, k: nat)
    requires Starts(l) && Enabled(c, s, l) && Holds(s, l.a, k)
    ensures Holds(StartStep(c, s, l), l.a, k)
  {
  }

  lemma HolderStays(c: Config, s: State, l: Label, a: nat, k: nat)
    requires Enabled(c, s, l) && Holds(s, a, k) && k < |s.jobs|
    requires k < |Apply(c, s, l).jobs| && Apply(c, s, l).jobs[k].status == Running
    ensures Holds(Apply(c, s, l), a, k)
  {
    OtherActorsStay(c, s, l);
    if !l.Tick? && l.a == a {
      if Settles(l) {
        SettlingLetsGo(c, s, l, k);
      } else if Starts(l) {
        StartingHolds(c, s, l, k);
      }
    }
  }

  // Only a claim and set_running make a job run, and both leave their actor at work on it.
  lemma SetRunningHolds(c: Config, s: State, l: Label, k: nat)
    requires Starts(l) && Enabled(c, s, l) && k < |s.jobs| && s.jobs[k].status != Running
    requires k < |StartStep(c, s, l).jobs| && StartStep(c, s, l).jobs[k].status == Running
    ensures Holds(StartStep(c, s, l), l.a, k)
  {
  }

  lemma ClaimHolds(c: Config, s: State, l: Label, k: nat)
    requires Polls(l) && Enabled(c, s, l) && k < |s.jobs| && s.jobs[k].status != Running
    requires k < |PollStep(c, s, l).jobs| && PollStep(c, s, l).jobs[k].status == Running
    ensures Holds(PollStep(c, s, l), l.a, k)
  {
  }

  lemma SettlingStartsNothing(c: Config, s: State, l: Label, k: nat)
    requires Settles(l) && Enabled(c, s, l) && k < |s.jobs| && s.jobs[k].status != Running
    ensures k < |SettleStep(c, s, l).jobs| && SettleStep(c, s, l).jobs[k].status != Running
  {
  }

  lemma NewlyRunningIsHeld(c: Config, s: State, l: Label, k: nat)
    requires Enabled(c, s, l) && k < |Apply(c, s, l).jobs| && Apply(c, s, l).jobs[k].status == Running
    requires k < |s.jobs| ==> s.jobs[k].status != Running
    ensures Held(Apply(c, s, l), k)
  {
    if k < |s.jobs| {
      if Settles(l) {
        SettlingStartsNothing(c, s, l, k);
      } else if Polls(l) {
        ClaimHolds(c, s, l, k);
      } else if Starts(l) {
        SetRunningHolds(c, s, l, k);
      }
    }
  }

  lemma StepRunningIsHeld(c: Config, s: State, l: Label, s': State)
    requires RunningIsHeld(s) && Step(c, s, l, s')
    ensures RunningIsHeld(s')
  {
    forall k: nat | k < |s'.jobs| && s'.jobs[k].status == Running ensures Held(s', k) {
      if k < |s.jobs| && s.jobs[k].status == Running {
        var a: nat :| Holds(s, a, k);
        HolderStays(c, s, l, a, k);
      } else {
        NewlyRunningIsHeld(c, s, l, k);
      }
    }
  }

  lemma {:induction false} RunRunningIsHeld(c: Config, states: seq<State>, labels: seq<Label>, i: nat)
    requires IsRun(c, states, labels) && i < |states|
    ensures RunningIsHeld(states[i])
  {
    if i > 0 {
      RunRunningIsHeld(c, states, labels, i - 1);
      assert Step(c, states[i-1], labels[i-1], states[i]);
      StepRunningIsHeld(c, states[i-1], labels[i-1], states[i]);
    }
  }

  // In every run each running job is held by an actor, live or crashed, that is at work on it.
  lemma RunningJobsAreHeld(c: Config, states: seq<State>, labels: seq<Label>, i: nat, k: nat)
    requires IsRun(c, states, labels) && i < |states| && k < |states[i].jobs| && states[i].jobs[k].status == Running
    ensures exists a: nat :: a < |states[i].actors| && Working(At(states[i].actors[a]))
             && At(states[i].actors[a]).task.job == k
  {
    RunRunningIsHeld(c, states, labels, i);
    var a: nat :| Holds(states[i], a, k);
  }

  // With everyone idle or stopped and none crashed at work no job is running.
  lemma NothingRunsAtRest(c: Config, states: seq<State>, labels: seq<Label>, i: nat, k: nat)
    requires IsRun(c, states, labels) && i < |states| && k < |states[i].jobs|
    requires forall a: nat :: a < |states[i].actors| ==> !Working(At(states[i].actors[a]))
    ensures states[i].jobs[k].status != Running
  {
    RunRunningIsHeld(c, states, labels, i);
  }

  // ----- Recovery and jobs that run through process -----

  // Recovery moves a job if and only if the job is running under a claim from before the cutoff and its row
  // is not skipped.
  lemma RecoveryMovesIff(c: Config, s: State, l: Label, k: nat)
    requires l.RecoverStale? && Enabled(c, s, l) && k < |s.jobs|
    ensures k < |PollStep(c, s, l).jobs|
    ensures PollStep(c, s, l).jobs[k] != s.jobs[k] <==>
              && s.jobs[k].status == Running && s.jobs[k].claimedAt.Some?
              && s.jobs[k].claimedAt.value < s.actors[l.a].cutoff && k !in l.skipped
  {
  }

  // A job that set_running made run: without a claim time.
  predicate RunsUnclaimed(j: Job) { j.status == Running && j.claimedAt.None? }

  // The final write on job k, by an actor at work on it.
  ghost predicate SettlesJob(s: State, l: Label, k: nat)
  {
    (l.SetSucceeded? || l.SetFailed?) && l.a < |s.actors| && HasTask(s.actors[l.a]) && s.actors[l.a].task.job == k
  }

  lemma SettlingMovesIff(c: Config, s: State, l: Label, k: nat)
    requires ActorsOk(c, s) && Settles(l) && Enabled(c, s, l) && k < |s.jobs| && s.jobs[k].status == Running
    ensures k < |SettleStep(c, s, l).jobs|
    ensures if SettlesJob(s, l, k) then SettleStep(c, s, l).jobs[k].status.Terminal()
            else SettleStep(c, s, l).jobs[k] == s.jobs[k]
  {
    if l.SetSucceeded? || l.SetFailed? {
      FinalWriteMovesIff(c, s, l, k);
    } else {
      assert ActorOk(c, s, l.a);
    }
  }

  lemma FinalWriteMovesIff(c: Config, s: State, l: Label, k: nat)
    requires (l.SetSucceeded? || l.SetFailed?) && Enabled(c, s, l) && k < |s.jobs| && s.jobs[k].status == Running
    ensures k < |SettleStep(c, s, l).jobs|
    ensures if SettlesJob(s, l, k) then SettleStep(c, s, l).jobs[k].status.Terminal()
            else SettleStep(c, s, l).jobs[k] == s.jobs[k]
  {
  }

  // Nothing but the final write of an actor at work on it moves such a job.
  lemma UnclaimedMovesIff(c: Config, s: State, l: Label, k: nat)
    requires ActorsOk(c, s) && Enabled(c, s, l) && k < |s.jobs| && RunsUnclaimed(s.jobs[k])
    ensures k < |Apply(c, s, l).jobs|
    ensures if SettlesJob(s, l, k) then Apply(c, s, l).jobs[k].status.Terminal()
            else Apply(c, s, l).jobs[k] == s.jobs[k]
  {
    if Settles(l) {
      SettlingMovesIff(c, s, l, k);
    } else if l.ClaimNext? && l.choice.Some? {
      ClaimIsClaimable(c, s, l);
    }
  }

  ghost predicate SettledBetween(states: seq<State>, labels: seq<Label>, i: nat, j: nat, k: nat)
    requires j <= |labels| && j <= |states|
  {
    exists m: nat :: i <= m < j && SettlesJob(states[m], labels[m], k)
  }

  lemma SettledOneMore(states: seq<State>, labels: seq<Label>, i: nat, j: nat, k: nat)
    requires i < j <= |labels| && j <= |states|
    ensures SettledBetween(states, labels, i, j, k)
            <==> SettledBetween(states, labels, i, j - 1, k) || SettlesJob(states[j-1], labels[j-1], k)
  {
  }

  lemma UnclaimedMovesAt(c: Config, states: seq<State>, labels: seq<Label>, i: nat, k: nat)
    requires IsRun(c, states, labels) && i < |labels| && k < |states[i].jobs| && RunsUnclaimed(states[i].jobs[k])
    ensures k < |states[i+1].jobs|
    ensures SettlesJob(states[i], labels[i], k) ==> states[i+1].jobs[k].status.Terminal()
    ensures !SettlesJob(states[i], labels[i], k) ==> states[i+1].jobs[k] == states[i].jobs[k]
  {
    RunInv(c, states, labels, i);
    assert Step(c, states[i], labels[i], states[i+1]);
    UnclaimedMovesIff(c, states[i], labels[i], k);
  }

  // The job at state i, and at a later state j: settled or untouched, by whether it was settled in between.
  ghost predicate WaitedFrom(states: seq<State>, labels: seq<Label>, i: nat, j: nat, k: nat)
  {
    && j < |states| && j <= |labels| && i <= j && k < |states[i].jobs| && k < |states[j].jobs|
    && (SettledBetween(states, labels, i, j, k) ==> states[j].jobs[k].status.Terminal())
    && (!SettledBetween(states, labels, i, j, k) ==> states[j].jobs[k] == states[i].jobs[k])
  }

  lemma SettledStaysSettled(c: Config, states: seq<State>, labels: seq<Label>, i: nat, j: nat, k: nat)
    requires IsRun(c, states, labels) && j < |labels|
    requires WaitedFrom(states, labels, i, j, k) && SettledBetween(states, labels, i, j, k)
    ensures WaitedFrom(states, labels, i, j + 1, k)
  {
    SettledOneMore(states, labels, i, j + 1, k);
    JobsEndure(c, states, labels, j, j + 1, k);
  }

  lemma WaitingGoesOn(c: Config, states: seq<State>, labels: seq<Label>, i: nat, j: nat, k: nat)
    requires IsRun(c, states, labels) && j < |labels|
    requires WaitedFrom(states, labels, i, j, k) && RunsUnclaimed(states[i].jobs[k])
    requires !SettledBetween(states, labels, i, j, k)
    ensures WaitedFrom(states, labels, i, j + 1, k)
  {
    SettledOneMore(states, labels, i, j + 1, k);
    UnclaimedMovesAt(c, states, labels, j, k);
  }

  lemma {:induction false} UnclaimedWaits(c: Config, states: seq<State>, labels: seq<Label>, i: nat, j: nat, k: nat)
    requires IsRun(c, states, labels) && i <= j < |states| && k < |states[i].jobs| && RunsUnclaimed(states[i].jobs[k])
    ensures WaitedFrom(states, labels, i, j, k)
    decreases j
  {
    if i < j {
      UnclaimedWaits(c, states, labels, i, j - 1, k);
      if SettledBetween(states, labels, i, j - 1, k) {
        SettledStaysSettled(c, states, labels, i, j - 1, k);
      } else {
        WaitingGoesOn(c, states, labels, i, j - 1, k);
      }
    }
  }

  // Over a run: the job is unchanged, recovery or not, up to the first final write by an actor at work on
  // it, and settled after.
  lemma UnclaimedJobWaitsForItsActors(c: Config, states: seq<State>, labels: seq<Label>, i: nat, j: nat, k: nat)
    requires IsRun(c, states, labels) && i <= j < |states| && k < |states[i].jobs| && RunsUnclaimed(states[i].jobs[k])
    ensures k < |states[j].jobs|
    ensures SettledBetween(states, labels, i, j, k) ==> states[j].jobs[k].status.Terminal()
    ensures !SettledBetween(states, labels, i, j, k) ==> states[j].jobs[k] == states[i].jobs[k]
  {
    UnclaimedWaits(c, states, labels, i, j, k);
  }

  // ----- Abandoned jobs -----

  // The actor has the job in hand or is about to fetch or enqueue it.
  predicate Touches(pc: Pc, k: nat)
  {
    ((pc.Enqueuing? || pc.Lookup?) && pc.job == k) || (HasTask(pc) && pc.task.job == k)
  }

  // It runs without a claim, its id is not queued, and no live actor has it.
  ghost predicate Abandoned(s: State, k: nat)
  {
    && k < |s.jobs| && RunsUnclaimed(s.jobs[k]) && k !in s.queue
    && forall a: nat :: a < |s.actors| ==> !Touches(s.actors[a], k)
  }

  lemma MoverDoesNotTouch(c: Config, s: State, l: Label, k: nat)
    requires Abandoned(s, k) && !l.Tick? && !(l.Call? && l.job == k) && Enabled(c, s, l)
    ensures |Apply(c, s, l).actors| == |s.actors| && !Touches(Apply(c, s, l).actors[l.a], k)
  {
    assert !Touches(s.actors[l.a], k);
    if Polls(l) {
      PollerDoesNotTouch(c, s, l, k);
    } else if Settles(l) {
      SettlerDoesNotTouch(c, s, l, k);
    } else if Starts(l) {
      StarterDoesNotTouch(c, s, l, k);
    } else if Submits(l) {
      SubmitterDoesNotTouch(c, s, l, k);
    }
  }

  lemma SubmitterDoesNotTouch(c: Config, s: State, l: Label, k: nat)
    requires Abandoned(s, k) && Submits(l) && Enabled(c, s, l)
    ensures |SubmitStep(c, s, l).actors| == |s.actors| && !Touches(SubmitStep(c, s, l).actors[l.a], k)
  {
    assert !Touches(s.actors[l.a], k);
  }

  lemma StarterDoesNotTouch(c: Config, s: State, l: Label, k: nat)
    requires Abandoned(s, k) && Starts(l) && !(l.Call? && l.job == k) && Enabled(c, s, l)
    ensures |StartStep(c, s, l).actors| == |s.actors| && !Touches(StartStep(c, s, l).actors[l.a], k)
  {
    assert !Touches(s.actors[l.a], k);
  }

  lemma PollerDoesNotTouch(c: Config, s: State, l: Label, k: nat)
    requires Abandoned(s, k) && Polls(l) && Enabled(c, s, l)
    ensures |PollStep(c, s, l).actors| == |s.actors| && !Touches(PollStep(c, s, l).actors[l.a], k)
  {
  }

  lemma SettlerDoesNotTouch(c: Config, s: State, l: Label, k: nat)
    requires Abandoned(s, k) && Settles(l) && Enabled(c, s, l)
    ensures |SettleStep(c, s, l).actors| == |s.actors| && !Touches(SettleStep(c, s, l).actors[l.a], k)
  {
    assert !Touches(s.actors[l.a], k);
  }

  lemma QueueStaysWithout(c: Config, s: State, l: Label, k: nat)
    requires Abandoned(s, k) && Enabled(c, s, l)
    ensures k !in Apply(c, s, l).queue
  {
    if l.Put? { assert !Touches(s.actors[l.a], k); }
  }

  lemma AbandonedStays(c: Config, s: State, l: Label, k: nat)
    requires ActorsOk(c, s) && Abandoned(s, k) && !(l.Call? && l.job == k) && Enabled(c, s, l)
    ensures Abandoned(Apply(c, s, l), k) && Apply(c, s, l).jobs[k] == s.jobs[k]
  {
    var s' := Apply(c, s, l);
    OtherActorsStay(c, s, l);
    QueueStaysWithout(c, s, l, k);
    UnclaimedMovesIff(c, s, l, k);
    if !l.Tick? {
      assert !Touches(s.actors[l.a], k);
      MoverDoesNotTouch(c, s, l, k);
    }
    assert !SettlesJob(s, l, k);
    forall a: nat | a < |s'.actors| ensures !Touches(s'.actors[a], k) {
      assert !Touches(s.actors[a], k);
    }
  }

  // A job that ran through process and whose actors have all crashed stays running, unchanged, for the rest
  // of the run, however often recovery runs, unless somebody calls process on it again.
  lemma {:induction false} AbandonedForGood(c: Config, states: seq<State>, labels: seq<Label>, i: nat, j: nat, k: nat)
    requires IsRun(c, states, labels) && i <= j < |states| && Abandoned(states[i], k)
    requires forall m :: i <= m < j ==> !(labels[m].Call? && labels[m].job == k)
    ensures Abandoned(states[j], k) && states[j].jobs[k] == states[i].jobs[k]
    decreases j
  {
    if i < j {
      AbandonedForGood(c, states, labels, i, j - 1, k);
      AbandonedAt(c, states, labels, j - 1, k);
    }
  }

  lemma AbandonedAt(c: Config, states: seq<State>, labels: seq<Label>, i: nat, k: nat)
    requires IsRun(c, states, labels) && i < |labels| && Abandoned(states[i], k)
              && !(labels[i].Call? && labels[i].job == k)
    ensures Abandoned(states[i+1], k) && states[i+1].jobs[k] == states[i].jobs[k]
  {
    RunInv(c, states, labels, i);
    assert Step(c, states[i], labels[i], states[i+1]);
    AbandonedStays(c, states[i], labels[i], k);
  }
}
