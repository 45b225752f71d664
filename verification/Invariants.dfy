// What every reachable state of the protocol satisfies, for both stores, any number of actors,
// crashes at any point and any scoring function.
module Invariants {
  import opened Prelude
  import opened Jobs
  import opened Store
  import opened Protocol

  // Where an actor is, or was when it crashed.
  function At(pc: Pc): Pc
  {
    if pc.Crashed? then pc.was else pc
  }

  // The actor has moved a job to its final status and has not finished reporting it.
  predicate Settling(pc: Pc)
  {
    pc.SaveResult? || pc.AnnounceSuccess? || pc.SaveError? || pc.AnnounceFailure?
  }

  // The actor has a job running and has not settled it. A crashed actor does not work.
  predicate Working(pc: Pc) { pc.AnnounceRunning? || pc.Evaluate? || pc.Succeed? || pc.Fail? }

  predicate HasTask(pc: Pc)
  {
    pc.Start? || pc.AnnounceRunning? || pc.Evaluate? || pc.Succeed? || pc.Fail? || Settling(pc)
  }

  ghost predicate TaskOk(jobs: seq<Job>, t: Task)
  {
    t.job < |jobs| && t.request == jobs[t.job].request
  }

  // What an actor at pc may rely on.
  ghost predicate PcOk(c: Config, jobs: seq<Job>, pc: Pc)
  {
    && !pc.Crashed?
    && (HasTask(pc) ==> TaskOk(jobs, pc.task))
    && (pc.Enqueuing? || pc.AnnounceQueued? ==> pc.job < |jobs|)
    && (pc.Succeed? || pc.SaveResult? || pc.AnnounceSuccess? ==> pc.result == c.score(pc.task.request))
    && (pc.SaveResult? || pc.AnnounceSuccess? ==> jobs[pc.task.job].status == Succeeded)
    && (pc.AnnounceSuccess? ==> jobs[pc.task.job].result == Some(pc.result))
    && (pc.SaveError? || pc.AnnounceFailure? ==> jobs[pc.task.job].status == Failed)
    && (pc.SaveResult? || pc.SaveError? ==> c.backend == InMemory)
    && (pc.Finished? && pc.handled.Some? ==> pc.handled.value < |jobs| && jobs[pc.handled.value].status.Terminal())
  }

  ghost predicate JobsOk(c: Config, s: State)
  {
    forall k :: 0 <= k < |s.jobs| ==> WithinBudget(s.jobs[k]) && ScoredBy(c.score, s.jobs[k])
  }

  // No actor is lost between two lock sections.
  ghost predicate ActorOk(c: Config, s: State, a: nat)
    requires a < |s.actors|
  {
    && PcOk(c, s.jobs, At(s.actors[a]))
    && (s.actors[a].Crashed? ==> !s.actors[a].was.SaveResult? && !s.actors[a].was.SaveError?)
  }

  ghost predicate ActorsOk(c: Config, s: State)
  {
    forall a :: 0 <= a < |s.actors| ==> ActorOk(c, s, a)
  }

  ghost predicate Owns(s: State, a: nat, k: nat)
    requires a < |s.actors|
  {
    Settling(At(s.actors[a])) && At(s.actors[a]).task.job == k
  }

  // The actor owes the job its result: it is between the two lock sections of set_succeeded.
  ghost predicate OwesResult(s: State, a: nat, k: nat)
    requires a < |s.actors|
  {
    At(s.actors[a]).SaveResult? && At(s.actors[a]).task.job == k
  }

  // The actor owes the job its message: it is between the two lock sections of set_failed.
  ghost predicate OwesError(s: State, a: nat, k: nat)
    requires a < |s.actors|
  {
    At(s.actors[a]).SaveError? && At(s.actors[a]).task.job == k
  }

  // A job is settled by one actor only, and a succeeded job without a result is owed one.
  ghost predicate OwnersOk(s: State)
  {
    && (forall a, b, k :: 0 <= a < |s.actors| && 0 <= b < |s.actors| && Owns(s, a, k) && Owns(s, b, k) ==> a == b)
    && (forall a, k :: 0 <= a < |s.actors| && 0 <= k < |s.jobs| && OwesResult(s, a, k) ==> s.jobs[k].result.None?)
    && (forall k :: 0 <= k < |s.jobs| && s.jobs[k].status == Succeeded && s.jobs[k].result.None? ==>
          exists a :: 0 <= a < |s.actors| && OwesResult(s, a, k))
  }

  ghost predicate Inv(c: Config, s: State)
  {
    JobsOk(c, s) && ActorsOk(c, s) && OwnersOk(s)
  }

  ghost predicate JobsEvolve(before: seq<Job>, after: seq<Job>)
  {
    |before| <= |after| && forall k :: 0 <= k < |before| ==> Evolves(before[k], after[k])
  }

  ghost predicate LegalWrite(c: Config, j: Job, j': Job)
  {
    Evolves(j, j') && ScoredBy(c.score, j')
  }

  ghost predicate JobsChangeLegally(c: Config, s: State, l: Label, after: seq<Job>)
  {
    && |s.jobs| <= |after|
    && (forall k :: 0 <= k < |s.jobs| ==> LegalWrite(c, s.jobs[k], after[k]))
    && (forall k :: |s.jobs| <= k < |after| ==> l.Create? && after[k] == NewJob(l.id, l.request, l.maxAttempts, s.now))
  }

  lemma ClaimIsClaimable(c: Config, s: State, l: Label)
    requires Enabled(c, s, l) && l.ClaimNext? && l.choice.Some?
    ensures l.choice.value < |s.jobs| && Claimable(s.jobs[l.choice.value])
  {
  }

  // One job is written, and legally so.
  lemma OneWriteEvolves(c: Config, s: State, l: Label, after: seq<Job>, k: nat)
    requires JobsOk(c, s) && k < |s.jobs| && |after| == |s.jobs| && LegalWrite(c, s.jobs[k], after[k])
    requires forall i :: 0 <= i < |s.jobs| && i != k ==> after[i] == s.jobs[i]
    ensures JobsChangeLegally(c, s, l, after)
  {
    forall i | 0 <= i < |s.jobs| ensures LegalWrite(c, s.jobs[i], after[i]) {
      assert ScoredBy(c.score, s.jobs[i]);
    }
  }

  lemma NoWriteEvolves(c: Config, s: State, l: Label)
    requires JobsOk(c, s)
    ensures JobsChangeLegally(c, s, l, s.jobs)
  {
    forall i | 0 <= i < |s.jobs| ensures LegalWrite(c, s.jobs[i], s.jobs[i]) {
      assert ScoredBy(c.score, s.jobs[i]);
    }
  }

  lemma SucceedingWrites(c: Config, s: State, l: Label)
    requires JobsOk(c, s) && ActorsOk(c, s) && Enabled(c, s, l) && (l.SetSucceeded? || l.StoreResult?)
    ensures var k, after := s.actors[l.a].task.job, SettleStep(c, s, l).jobs;
            && k < |s.jobs| && |after| == |s.jobs| && LegalWrite(c, s.jobs[k], after[k])
            && forall i :: 0 <= i < |s.jobs| && i != k ==> after[i] == s.jobs[i]
  {
    assert ActorOk(c, s, l.a);
    assert ScoredBy(c.score, s.jobs[s.actors[l.a].task.job]);
  }

  lemma FailingWrites(c: Config, s: State, l: Label)
    requires JobsOk(c, s) && ActorsOk(c, s) && Enabled(c, s, l) && (l.SetFailed? || l.StoreError?)
    ensures var k, after := s.actors[l.a].task.job, SettleStep(c, s, l).jobs;
            && k < |s.jobs| && |after| == |s.jobs| && LegalWrite(c, s.jobs[k], after[k])
            && forall i :: 0 <= i < |s.jobs| && i != k ==> after[i] == s.jobs[i]
  {
    assert ActorOk(c, s, l.a);
    assert ScoredBy(c.score, s.jobs[s.actors[l.a].task.job]);
  }

  lemma SettleEvolves(c: Config, s: State, l: Label)
    requires JobsOk(c, s) && ActorsOk(c, s) && Enabled(c, s, l) && Settles(l)
    ensures JobsChangeLegally(c, s, l, SettleStep(c, s, l).jobs)
  {
    if l.SetSucceeded? || l.StoreResult? {
      SucceedingWrites(c, s, l);
      OneWriteEvolves(c, s, l, SettleStep(c, s, l).jobs, s.actors[l.a].task.job);
    } else if l.SetFailed? || l.StoreError? {
      FailingWrites(c, s, l);
      OneWriteEvolves(c, s, l, SettleStep(c, s, l).jobs, s.actors[l.a].task.job);
    } else {
      NoWriteEvolves(c, s, l);
    }
  }

  lemma RecoveryEvolves(c: Config, s: State, l: Label, cutoff: Time, now: Time, skipped: set<nat>)
    requires JobsOk(c, s)
    ensures JobsChangeLegally(c, s, l, RecoverAll(s.jobs, cutoff, now, skipped))
  {
    forall i | 0 <= i < |s.jobs| ensures LegalWrite(c, s.jobs[i], RecoverAll(s.jobs, cutoff, now, skipped)[i]) {
      assert ScoredBy(c.score, s.jobs[i]);
    }
  }

  lemma PollEvolves(c: Config, s: State, l: Label)
    requires JobsOk(c, s) && ActorsOk(c, s) && Enabled(c, s, l) && Polls(l)
    ensures JobsChangeLegally(c, s, l, PollStep(c, s, l).jobs)
  {
    if l.RecoverStale? {
      RecoveryEvolves(c, s, l, s.actors[l.a].cutoff, Stamp(s, l.read), l.skipped);
    } else if l.ClaimNext? && l.choice.Some? {
      ClaimEvolves(c, s, l);
    } else {
      NoWriteEvolves(c, s, l);
    }
  }

  lemma ClaimEvolves(c: Config, s: State, l: Label)
    requires JobsOk(c, s) && Enabled(c, s, l) && l.ClaimNext? && l.choice.Some?
    ensures JobsChangeLegally(c, s, l, PollStep(c, s, l).jobs)
  {
    ClaimIsClaimable(c, s, l);
    assert ScoredBy(c.score, s.jobs[l.choice.value]);
    OneWriteEvolves(c, s, l, PollStep(c, s, l).jobs, l.choice.value);
  }

  lemma StartEvolves(c: Config, s: State, l: Label)
    requires JobsOk(c, s) && Enabled(c, s, l) && Starts(l)
    ensures JobsChangeLegally(c, s, l, StartStep(c, s, l).jobs)
  {
    if l.SetRunning? {
      var k := s.actors[l.a].task.job;
      assert ScoredBy(c.score, s.jobs[k]);
      OneWriteEvolves(c, s, l, StartStep(c, s, l).jobs, k);
    } else {
      NoWriteEvolves(c, s, l);
    }
  }

  lemma SubmitEvolves(c: Config, s: State, l: Label)
    requires JobsOk(c, s) && Enabled(c, s, l) && Submits(l)
    ensures JobsChangeLegally(c, s, l, SubmitStep(c, s, l).jobs)
  {
    NoWriteEvolves(c, s, l);
  }

  // Every step changes every job legally, and a job it adds is new.
  lemma StepEvolves(c: Config, s: State, l: Label)
    requires JobsOk(c, s) && ActorsOk(c, s) && Enabled(c, s, l)
    ensures JobsChangeLegally(c, s, l, Apply(c, s, l).jobs)
    ensures JobsEvolve(s.jobs, Apply(c, s, l).jobs)
  {
    if Settles(l) {
      SettleEvolves(c, s, l);
    } else if Polls(l) {
      PollEvolves(c, s, l);
    } else if Starts(l) {
      StartEvolves(c, s, l);
    } else if Submits(l) {
      SubmitEvolves(c, s, l);
    } else {
      NoWriteEvolves(c, s, l);
    }
  }

  lemma StepJobsOk(c: Config, s: State, l: Label)
    requires JobsOk(c, s) && ActorsOk(c, s) && Enabled(c, s, l)
    ensures JobsOk(c, Apply(c, s, l))
  {
    StepEvolves(c, s, l);
    var s' := Apply(c, s, l);
    forall k | 0 <= k < |s'.jobs| ensures WithinBudget(s'.jobs[k]) && ScoredBy(c.score, s'.jobs[k]) {
      if k < |s.jobs| { EvolvingKeepsBudget(s.jobs[k], s'.jobs[k]); }
    }
  }

  // A step moves only the actor that takes it.
  lemma OtherActorsStay(c: Config, s: State, l: Label)
    requires Enabled(c, s, l)
    ensures |Apply(c, s, l).actors| == |s.actors|
    ensures forall b :: 0 <= b < |s.actors| && (l.Tick? || b != l.a) ==> Apply(c, s, l).actors[b] == s.actors[b]
  {
  }

  lemma PcOkLasts(c: Config, before: seq<Job>, after: seq<Job>, pc: Pc)
    requires PcOk(c, before, pc) && JobsEvolve(before, after)
    ensures PcOk(c, after, pc)
  {
    if HasTask(pc) {
      assert Evolves(before[pc.task.job], after[pc.task.job]);
    }
    if pc.Finished? && pc.handled.Some? {
      assert Evolves(before[pc.handled.value], after[pc.handled.value]);
    }
  }

  lemma SucceedingActorOk(c: Config, s: State, l: Label)
    requires JobsOk(c, s) && ActorsOk(c, s) && (l.SetSucceeded? || l.StoreResult? || l.ReportSucceeded?)
              && Enabled(c, s, l)
    ensures |SettleStep(c, s, l).actors| == |s.actors| && ActorOk(c, SettleStep(c, s, l), l.a)
  {
    assert ActorOk(c, s, l.a);
    assert WithinBudget(s.jobs[s.actors[l.a].task.job]);
  }

  lemma SetFailedActorOk(c: Config, s: State, l: Label)
    requires ActorsOk(c, s) && l.SetFailed? && Enabled(c, s, l)
    ensures |SettleStep(c, s, l).actors| == |s.actors| && ActorOk(c, SettleStep(c, s, l), l.a)
  {
    assert ActorOk(c, s, l.a);
  }

  lemma FailedActorOk(c: Config, s: State, l: Label)
    requires ActorsOk(c, s) && (l.StoreError? || l.ReportFailed?) && Enabled(c, s, l)
    ensures |SettleStep(c, s, l).actors| == |s.actors| && ActorOk(c, SettleStep(c, s, l), l.a)
  {
    assert ActorOk(c, s, l.a);
  }

  lemma SettlingActorOk(c: Config, s: State, l: Label)
    requires JobsOk(c, s) && ActorsOk(c, s) && Enabled(c, s, l) && Settles(l)
    ensures |SettleStep(c, s, l).actors| == |s.actors| && ActorOk(c, SettleStep(c, s, l), l.a)
  {
    if l.SetSucceeded? || l.StoreResult? || l.ReportSucceeded? {
      SucceedingActorOk(c, s, l);
    } else if l.SetFailed? {
      SetFailedActorOk(c, s, l);
    } else if !l.Return? {
      FailedActorOk(c, s, l);
    }
  }

  lemma PollingActorOk(c: Config, s: State, l: Label)
    requires JobsOk(c, s) && ActorsOk(c, s) && Enabled(c, s, l) && Polls(l)
    ensures |PollStep(c, s, l).actors| == |s.actors| && ActorOk(c, PollStep(c, s, l), l.a)
  {
    if l.ClaimNext? && l.choice.Some? {
      ClaimIsClaimable(c, s, l);
    }
  }

  lemma SubmittingActorOk(c: Config, s: State, l: Label)
    requires ActorsOk(c, s) && Enabled(c, s, l) && Submits(l)
    ensures |SubmitStep(c, s, l).actors| == |s.actors| && ActorOk(c, SubmitStep(c, s, l), l.a)
  {
    assert ActorOk(c, s, l.a);
  }

  lemma StartingActorOk(c: Config, s: State, l: Label)
    requires ActorsOk(c, s) && Enabled(c, s, l) && Starts(l)
    ensures |StartStep(c, s, l).actors| == |s.actors| && ActorOk(c, StartStep(c, s, l), l.a)
  {
    assert ActorOk(c, s, l.a);
  }

  lemma MovingActorOk(c: Config, s: State, l: Label)
    requires JobsOk(c, s) && ActorsOk(c, s) && Enabled(c, s, l) && !l.Tick?
    ensures |Apply(c, s, l).actors| == |s.actors| && ActorOk(c, Apply(c, s, l), l.a)
  {
    if l.Crash? {
      assert ActorOk(c, s, l.a);
    } else if Submits(l) {
      SubmittingActorOk(c, s, l);
    } else if Polls(l) {
      PollingActorOk(c, s, l);
    } else if Starts(l) {
      StartingActorOk(c, s, l);
    } else {
      SettlingActorOk(c, s, l);
    }
  }

  lemma StepActorsOk(c: Config, s: State, l: Label)
    requires JobsOk(c, s) && ActorsOk(c, s) && Enabled(c, s, l)
    ensures ActorsOk(c, Apply(c, s, l))
  {
    StepEvolves(c, s, l);
    OtherActorsStay(c, s, l);
    var s' := Apply(c, s, l);
    forall b | 0 <= b < |s'.actors| ensures ActorOk(c, s', b) {
      if l.Tick? || b != l.a {
        assert ActorOk(c, s, b);
        PcOkLasts(c, s.jobs, s'.jobs, At(s.actors[b]));
      } else {
        MovingActorOk(c, s, l);
      }
    }
  }

  // ----- Ownership -----

  ghost predicate SettlesNothing(pc: Pc, pc': Pc)
  {
    At(pc') == At(pc) || (!Settling(At(pc)) && !Settling(At(pc')))
  }

  lemma StartingActor(c: Config, s: State, l: Label)
    requires Enabled(c, s, l) && Starts(l)
    ensures |StartStep(c, s, l).actors| == |s.actors|
    ensures SettlesNothing(s.actors[l.a], StartStep(c, s, l).actors[l.a])
  {
  }

  lemma PollingActor(c: Config, s: State, l: Label)
    requires Enabled(c, s, l) && Polls(l)
    ensures |PollStep(c, s, l).actors| == |s.actors|
    ensures SettlesNothing(s.actors[l.a], PollStep(c, s, l).actors[l.a])
  {
  }

  lemma NonSettlingActor(c: Config, s: State, l: Label)
    requires Enabled(c, s, l) && !Settles(l) && !l.Tick?
    ensures |Apply(c, s, l).actors| == |s.actors|
    ensures SettlesNothing(s.actors[l.a], Apply(c, s, l).actors[l.a])
  {
    if Starts(l) {
      StartingActor(c, s, l);
    } else if Polls(l) {
      PollingActor(c, s, l);
    }
  }

  // Outside set_succeeded and set_failed no job is settled by an actor, and no result is written.
  lemma NonSettlingKeepsOwners(c: Config, s: State, l: Label)
    requires Enabled(c, s, l) && !Settles(l)
    ensures var s' := Apply(c, s, l);
            && |s'.actors| == |s.actors|
            && (forall a, k :: 0 <= a < |s.actors| ==> Owns(s', a, k) == Owns(s, a, k))
            && (forall a, k :: 0 <= a < |s.actors| ==> OwesResult(s', a, k) == OwesResult(s, a, k))
  {
    OtherActorsStay(c, s, l);
    if !l.Tick? {
      NonSettlingActor(c, s, l);
    }
  }

  // No result is written, no job succeeds, and a new job is queued.
  ghost predicate ResultsKept(before: seq<Job>, after: seq<Job>)
  {
    && |before| <= |after|
    && (forall k :: 0 <= k < |before| ==> after[k].result == before[k].result)
    && (forall k :: 0 <= k < |before| && after[k].status == Succeeded ==> before[k].status == Succeeded)
    && (forall k :: |before| <= k < |after| ==> after[k].status == Queued)
  }

  lemma PollingKeepsResults(c: Config, s: State, l: Label)
    requires Enabled(c, s, l) && Polls(l)
    ensures ResultsKept(s.jobs, PollStep(c, s, l).jobs)
  {
    if l.ClaimNext? && l.choice.Some? {
      ClaimIsClaimable(c, s, l);
    }
  }

  lemma NonSettlingKeepsResults(c: Config, s: State, l: Label)
    requires Enabled(c, s, l) && !Settles(l)
    ensures ResultsKept(s.jobs, Apply(c, s, l).jobs)
  {
    if Polls(l) {
      PollingKeepsResults(c, s, l);
    }
  }

  lemma NonSettlingOwnersOk(c: Config, s: State, l: Label)
    requires Inv(c, s) && Enabled(c, s, l) && !Settles(l)
    ensures OwnersOk(Apply(c, s, l))
  {
    NonSettlingKeepsOwners(c, s, l);
    NonSettlingKeepsResults(c, s, l);
    var s' := Apply(c, s, l);
    forall k | 0 <= k < |s'.jobs| && s'.jobs[k].status == Succeeded && s'.jobs[k].result.None?
      ensures exists a :: 0 <= a < |s'.actors| && OwesResult(s', a, k)
    {
      var a :| 0 <= a < |s.actors| && OwesResult(s, a, k);
      assert OwesResult(s', a, k);
    }
    forall a, k | 0 <= a < |s'.actors| && 0 <= k < |s'.jobs| && OwesResult(s', a, k)
      ensures s'.jobs[k].result.None?
    {
      assert OwesResult(s, a, k);
      assert ActorOk(c, s, a);
    }
  }

  // An owner's job is settled, so whoever moves an unsettled job becomes its only owner.
  lemma OwnedIsTerminal(c: Config, s: State, a: nat, k: nat)
    requires ActorsOk(c, s) && a < |s.actors| && Owns(s, a, k)
    ensures k < |s.jobs| && s.jobs[k].status.Terminal()
  {
    assert ActorOk(c, s, a);
  }

  lemma NewOwner(c: Config, s: State, l: Label, k: nat)
    requires ActorsOk(c, s) && Enabled(c, s, l) && Settles(l)
    requires |SettleStep(c, s, l).actors| == |s.actors|
    requires Owns(SettleStep(c, s, l), l.a, k) && !Owns(s, l.a, k)
    ensures k < |s.jobs| && !s.jobs[k].status.Terminal()
  {
  }

  lemma SettlingOwnersUnique(c: Config, s: State, l: Label, a: nat, b: nat, k: nat)
    requires Inv(c, s) && Enabled(c, s, l) && Settles(l)
    requires a < |s.actors| && b < |s.actors| && a != b && b != l.a
    requires |SettleStep(c, s, l).actors| == |s.actors|
    requires Owns(SettleStep(c, s, l), a, k)
    ensures !Owns(SettleStep(c, s, l), b, k)
  {
    if Owns(SettleStep(c, s, l), b, k) {
      assert a != l.a ==> SettleStep(c, s, l).actors[a] == s.actors[a];
      assert Owns(s, b, k);
      OwnedIsTerminal(c, s, b, k);
      if !Owns(s, a, k) {
        NewOwner(c, s, l, k);
      }
    }
  }

  lemma SettlingOwesNothing(c: Config, s: State, l: Label, a: nat, k: nat)
    requires Inv(c, s) && Enabled(c, s, l) && Settles(l)
    requires a < |s.actors| && k < |s.jobs|
    requires |SettleStep(c, s, l).actors| == |s.actors| && |SettleStep(c, s, l).jobs| == |s.jobs|
    requires OwesResult(SettleStep(c, s, l), a, k)
    ensures SettleStep(c, s, l).jobs[k].result.None?
  {
    assert ActorOk(c, s, l.a);
    assert ScoredBy(c.score, s.jobs[k]);
    if a != l.a {
      assert Owns(s, a, k) && OwesResult(s, a, k);
      OwnedIsTerminal(c, s, a, k);
      if Owns(s, l.a, k) { assert false; }
    }
  }

  lemma SettlingKeepsDebts(c: Config, s: State, l: Label, k: nat)
    requires Inv(c, s) && Enabled(c, s, l) && Settles(l) && k < |s.jobs|
    requires |SettleStep(c, s, l).actors| == |s.actors| && |SettleStep(c, s, l).jobs| == |s.jobs|
    requires var j := SettleStep(c, s, l).jobs[k]; j.status == Succeeded && j.result.None?
    ensures exists a :: 0 <= a < |s.actors| && OwesResult(SettleStep(c, s, l), a, k)
  {
    var s' := SettleStep(c, s, l);
    assert ActorOk(c, s, l.a);
    if s.jobs[k].status == Succeeded {
      assert s.jobs[k].result.None?;
      var a :| 0 <= a < |s.actors| && OwesResult(s, a, k);
      assert OwesResult(s', a, k);
    } else {
      assert OwesResult(s', l.a, k);
    }
  }

  lemma SettleKeepsSizes(c: Config, s: State, l: Label)
    requires Enabled(c, s, l) && Settles(l)
    ensures |SettleStep(c, s, l).actors| == |s.actors| && |SettleStep(c, s, l).jobs| == |s.jobs|
  {
  }

  lemma SettlingOwnersOk(c: Config, s: State, l: Label)
    requires Inv(c, s) && Enabled(c, s, l) && Settles(l)
    ensures OwnersOk(SettleStep(c, s, l))
  {
    var s' := SettleStep(c, s, l);
    SettleKeepsSizes(c, s, l);
    forall a, b, k | 0 <= a < |s.actors| && 0 <= b < |s.actors| && Owns(s', a, k) && Owns(s', b, k)
      ensures a == b
    {
      if a != b {
        if b != l.a { SettlingOwnersUnique(c, s, l, a, b, k); } else { SettlingOwnersUnique(c, s, l, b, a, k); }
      }
    }
    forall a, k | 0 <= a < |s.actors| && 0 <= k < |s.jobs| && OwesResult(s', a, k)
      ensures s'.jobs[k].result.None?
    { SettlingOwesNothing(c, s, l, a, k); }
    forall k | 0 <= k < |s.jobs| && s'.jobs[k].status == Succeeded && s'.jobs[k].result.None?
      ensures exists a :: 0 <= a < |s'.actors| && OwesResult(s', a, k)
    { SettlingKeepsDebts(c, s, l, k); }
  }

  lemma InitInv(c: Config, s: State)
    requires Init(s)
    ensures Inv(c, s)
  {
  }

  lemma StepInv(c: Config, s: State, l: Label)
    requires Inv(c, s) && Enabled(c, s, l)
    ensures Inv(c, Apply(c, s, l))
  {
    StepJobsOk(c, s, l);
    StepActorsOk(c, s, l);
    if Settles(l) { SettlingOwnersOk(c, s, l); } else { NonSettlingOwnersOk(c, s, l); }
  }

  // Every state of every run satisfies the invariant.
  lemma {:induction false} RunInv(c: Config, states: seq<State>, labels: seq<Label>, i: nat)
    requires IsRun(c, states, labels) && i < |states|
    ensures Inv(c, states[i])
  {
    if i == 0 {
      InitInv(c, states[0]);
    } else {
      RunInv(c, states, labels, i - 1);
      assert Step(c, states[i-1], labels[i-1], states[i]);
      StepInv(c, states[i-1], labels[i-1]);
    }
  }
}
