// Every interleaved run of the in-memory store, with its two lock sections per final write, is a run of
// the Postgres store, where each final write is one transaction.
module Refinement {
  import opened Prelude
  import opened Jobs
  import opened Store
  import opened Protocol
  import opened Invariants

  // Where the actor is if both lock sections count as one, done at the first.
  function AsOne(pc: Pc): Pc
  {
    match pc
    case SaveResult(t, r) => AnnounceSuccess(t, r)
    case SaveError(t) => AnnounceFailure(t)
    case _ => pc
  }

  // The same job in both stores. Time stamps of updates differ, and so does the claim time of a settled
  // job, which only Postgres clears.
  ghost predicate SameJob(j: Job, q: Job)
  {
    && SameIdentity(j, q) && q.status == j.status && q.attemptCount == j.attemptCount
    && (!j.status.Terminal() ==> q.claimedAt == j.claimedAt)
  }

  // Results and messages agree except where an actor still owes its second lock section.
  ghost predicate SameOutcome(s: State, p: State, k: nat)
    requires k < |s.jobs| && k < |p.jobs|
  {
    && (p.jobs[k].result == s.jobs[k].result || exists a :: 0 <= a < |s.actors| && OwesResult(s, a, k))
    && (p.jobs[k].errorMessage == s.jobs[k].errorMessage || exists a :: 0 <= a < |s.actors| && OwesError(s, a, k))
  }

  ghost predicate DebtPaid(s: State, p: State, a: nat)
    requires a < |s.actors|
  {
    var pc := At(s.actors[a]);
    && (pc.SaveResult? ==> pc.task.job < |p.jobs| && p.jobs[pc.task.job].result == Some(pc.result))
    && (pc.SaveError? ==> pc.task.job < |p.jobs| && p.jobs[pc.task.job].errorMessage == Some(EVALUATION_FAILED))
  }

  ghost predicate SameRecords(s: State, p: State)
  {
    && p.now == s.now && p.queue == s.queue && p.audit == s.audit && p.counters == s.counters
    && p.claims == s.claims && p.enqueued == s.enqueued && p.requeues == s.requeues && p.timeouts == s.timeouts
  }

  ghost predicate SamePlaces(s: State, p: State)
  {
    |p.actors| == |s.actors| && forall a :: 0 <= a < |s.actors| ==> p.actors[a] == AsOne(s.actors[a])
  }

  ghost predicate SameJobs(s: State, p: State)
  {
    |p.jobs| == |s.jobs| && forall k :: 0 <= k < |s.jobs| ==> SameJob(s.jobs[k], p.jobs[k]) && SameOutcome(s, p, k)
  }

  ghost predicate Related(s: State, p: State)
  {
    && SameRecords(s, p) && SamePlaces(s, p) && SameJobs(s, p)
    && forall a :: 0 <= a < |s.actors| ==> DebtPaid(s, p, a)
  }

  // The second lock sections have no counterpart in Postgres.
  predicate SecondSection(l: Label) { l.StoreResult? || l.StoreError? }

  ghost predicate Pair(c: Config, s: State, p: State, l: Label)
  {
    c.backend == InMemory && Inv(c, s) && Related(s, p) && Enabled(c, s, l)
  }

  // Nobody outside the run locks rows, so nothing is skipped.
  function ToPostgres(c: Config): Config { c.(backend := Postgres(false)) }

  lemma CountsAgree(a: seq<Job>, b: seq<Job>, cutoff: Time, skipped: set<nat>)
    requires |a| == |b| && forall k :: 0 <= k < |a| ==> SameJob(a[k], b[k])
    ensures CountStale(a, cutoff, skipped) == CountStale(b, cutoff, skipped)
    ensures CountExhausted(a, cutoff, skipped) == CountExhausted(b, cutoff, skipped)
  {
    assert StalePositions(a, cutoff, skipped) == StalePositions(b, cutoff, skipped);
    assert ExhaustedPositions(a, cutoff, skipped) == ExhaustedPositions(b, cutoff, skipped);
  }

  lemma ChoiceIsOldest(s: State, p: State, choice: Option<nat>)
    requires SameJobs(s, p) && ClaimChoice(InMemory, s.jobs, choice)
    ensures ClaimChoice(Postgres(false), p.jobs, choice)
  {
    NextClaimIsOldest(s.jobs);
    forall k | 0 <= k < |s.jobs| ensures Claimable(p.jobs[k]) == Claimable(s.jobs[k])
    {
      assert SameJob(s.jobs[k], p.jobs[k]);
    }
    if choice.Some? {
      var k := choice.value;
      assert SameJob(s.jobs[k], p.jobs[k]);
      forall i | 0 <= i < |p.jobs| && Claimable(p.jobs[i]) ensures p.jobs[k].createdAt <= p.jobs[i].createdAt {
        assert SameJob(s.jobs[i], p.jobs[i]) && Claimable(s.jobs[i]);
      }
    }
  }

  lemma EnabledInPostgres(c: Config, s: State, p: State, l: Label)
    requires Pair(c, s, p, l) && !SecondSection(l)
    ensures Enabled(ToPostgres(c), p, l)
    ensures !l.Tick? ==> p.actors[l.a] == s.actors[l.a]
  {
    if l.ClaimNext? {
      ChoiceIsOldest(s, p, l.choice);
    }
    if l.Create? {
      forall k | 0 <= k < |p.jobs| ensures p.jobs[k].jobId != l.id { assert SameJob(s.jobs[k], p.jobs[k]); }
    }
  }

  // ----- One step: clock, queue, records and actors -----

  // The step of actor l.a leaves the records and the place of l.a the same.
  ghost predicate SameMove(s': State, p': State, l: Label)
  {
    && SameRecords(s', p')
    && (!l.Tick? ==> l.a < |s'.actors| && l.a < |p'.actors| && p'.actors[l.a] == AsOne(s'.actors[l.a]))
  }

  lemma PlainMove(c: Config, s: State, p: State, l: Label)
    requires Pair(c, s, p, l) && (l.Tick? || l.Crash? || Submits(l)) && Enabled(ToPostgres(c), p, l)
    ensures SameMove(Apply(c, s, l), Apply(ToPostgres(c), p, l), l)
  {
    EnabledInPostgres(c, s, p, l);
  }

  lemma SetRunningMove(c: Config, s: State, p: State, l: Label)
    requires l.SetRunning? && Enabled(c, s, l) && Enabled(ToPostgres(c), p, l)
    requires SameRecords(s, p) && p.actors[l.a] == s.actors[l.a]
    requires p.jobs[s.actors[l.a].task.job].status == s.jobs[s.actors[l.a].task.job].status
    ensures SameMove(StartStep(c, s, l), StartStep(ToPostgres(c), p, l), l)
  {
  }

  lemma ReadMove(c: Config, s: State, p: State, l: Label)
    requires l.Read? && Enabled(c, s, l) && Enabled(ToPostgres(c), p, l)
    requires SameRecords(s, p) && p.actors[l.a] == s.actors[l.a] && |p.jobs| == |s.jobs|
    requires s.actors[l.a].job < |s.jobs| ==> p.jobs[s.actors[l.a].job].request == s.jobs[s.actors[l.a].job].request
    ensures SameMove(StartStep(c, s, l), StartStep(ToPostgres(c), p, l), l)
  {
  }

  lemma OwnMove(c: Config, s: State, p: State, l: Label)
    requires Starts(l) && !l.SetRunning? && !l.Read? && Enabled(c, s, l) && Enabled(ToPostgres(c), p, l)
    requires SameRecords(s, p) && p.actors[l.a] == s.actors[l.a]
    ensures SameMove(StartStep(c, s, l), StartStep(ToPostgres(c), p, l), l)
  {
  }

  lemma StartMove(c: Config, s: State, p: State, l: Label)
    requires Pair(c, s, p, l) && Starts(l) && Enabled(ToPostgres(c), p, l)
    ensures SameMove(StartStep(c, s, l), StartStep(ToPostgres(c), p, l), l)
  {
    EnabledInPostgres(c, s, p, l);
    if l.SetRunning? {
      assert ActorOk(c, s, l.a);
      assert SameJob(s.jobs[s.actors[l.a].task.job], p.jobs[s.actors[l.a].task.job]);
      SetRunningMove(c, s, p, l);
    } else if l.Read? {
      if s.actors[l.a].job < |s.jobs| {
        assert SameJob(s.jobs[s.actors[l.a].job], p.jobs[s.actors[l.a].job]);
      }
      ReadMove(c, s, p, l);
    } else {
      OwnMove(c, s, p, l);
    }
  }

  // A polling step does the same on both sides if the counts agree and so does the job it claims.
  lemma SamePoll(c: Config, s: State, p: State, l: Label)
    requires Enabled(c, s, l) && Enabled(ToPostgres(c), p, l) && Polls(l)
    requires SameRecords(s, p) && p.actors[l.a] == s.actors[l.a]
    requires l.RecoverStale? ==>
               var cutoff := s.actors[l.a].cutoff;
               && CountStale(p.jobs, cutoff, l.skipped) == CountStale(s.jobs, cutoff, l.skipped)
               && CountExhausted(p.jobs, cutoff, l.skipped) == CountExhausted(s.jobs, cutoff, l.skipped)
    requires l.ClaimNext? && l.choice.Some? ==>
               var k := l.choice.value;
               && k < |s.jobs| && k < |p.jobs|
               && p.jobs[k].request == s.jobs[k].request && p.jobs[k].attemptCount == s.jobs[k].attemptCount
    ensures SameMove(PollStep(c, s, l), PollStep(ToPostgres(c), p, l), l)
  {
  }

  lemma PollMove(c: Config, s: State, p: State, l: Label)
    requires Pair(c, s, p, l) && Polls(l) && Enabled(ToPostgres(c), p, l)
    ensures SameMove(PollStep(c, s, l), PollStep(ToPostgres(c), p, l), l)
  {
    EnabledInPostgres(c, s, p, l);
    if l.RecoverStale? {
      CountsAgree(s.jobs, p.jobs, s.actors[l.a].cutoff, l.skipped);
    } else if l.ClaimNext? && l.choice.Some? {
      ClaimIsClaimable(c, s, l);
      assert SameJob(s.jobs[l.choice.value], p.jobs[l.choice.value]);
    }
    SamePoll(c, s, p, l);
  }

  lemma SetFailedMove(c: Config, s: State, p: State, l: Label)
    requires c.backend == InMemory && Enabled(c, s, l) && Enabled(ToPostgres(c), p, l) && l.SetFailed?
    requires SameRecords(s, p) && p.actors[l.a] == s.actors[l.a]
    requires p.jobs[s.actors[l.a].task.job].status == s.jobs[s.actors[l.a].task.job].status
    ensures SameMove(SettleStep(c, s, l), SettleStep(ToPostgres(c), p, l), l)
  {
  }

  // Both sides of a step after the final write, which only reports and returns.
  lemma ReportMove(c: Config, s: State, p: State, l: Label)
    requires c.backend == InMemory && Enabled(c, s, l) && Enabled(ToPostgres(c), p, l)
    requires l.ReportSucceeded? || l.ReportFailed? || l.Return?
    requires SameRecords(s, p) && p.actors[l.a] == s.actors[l.a]
    ensures SameMove(SettleStep(c, s, l), SettleStep(ToPostgres(c), p, l), l)
  {
  }

  lemma SettleMove(c: Config, s: State, p: State, l: Label)
    requires c.backend == InMemory && Enabled(c, s, l) && Enabled(ToPostgres(c), p, l) && Settles(l)
              && !SecondSection(l)
    requires SameRecords(s, p) && p.actors[l.a] == s.actors[l.a]
    requires HasTask(s.actors[l.a]) ==>
               var k := s.actors[l.a].task.job; k < |s.jobs| && k < |p.jobs| && p.jobs[k].status == s.jobs[k].status
    ensures SameMove(SettleStep(c, s, l), SettleStep(ToPostgres(c), p, l), l)
  {
    if l.SetFailed? {
      SetFailedMove(c, s, p, l);
    } else if !l.SetSucceeded? {
      ReportMove(c, s, p, l);
    }
  }

  lemma SettlingMove(c: Config, s: State, p: State, l: Label)
    requires Pair(c, s, p, l) && Settles(l) && !SecondSection(l) && Enabled(ToPostgres(c), p, l)
    ensures SameMove(SettleStep(c, s, l), SettleStep(ToPostgres(c), p, l), l)
  {
    EnabledInPostgres(c, s, p, l);
    if HasTask(s.actors[l.a]) {
      assert ActorOk(c, s, l.a);
      assert SameJob(s.jobs[s.actors[l.a].task.job], p.jobs[s.actors[l.a].task.job]);
    }
    SettleMove(c, s, p, l);
  }

  lemma MoverMoves(c: Config, s: State, p: State, l: Label)
    requires Pair(c, s, p, l) && !SecondSection(l) && Enabled(ToPostgres(c), p, l)
    ensures SameMove(Apply(c, s, l), Apply(ToPostgres(c), p, l), l)
  {
    if l.Tick? || l.Crash? || Submits(l) {
      PlainMove(c, s, p, l);
    } else if Starts(l) {
      StartMove(c, s, p, l);
    } else if Polls(l) {
      PollMove(c, s, p, l);
    } else {
      SettlingMove(c, s, p, l);
    }
  }

  lemma PlacesFromMove(s: State, p: State, s': State, p': State, l: Label)
    requires SamePlaces(s, p) && SameMove(s', p', l) && |s'.actors| == |s.actors| && |p'.actors| == |p.actors|
    requires forall b :: 0 <= b < |s.actors| && (l.Tick? || b != l.a)
                ==> s'.actors[b] == s.actors[b] && p'.actors[b] == p.actors[b]
    ensures SamePlaces(s', p')
  {
  }

  lemma MoveStep(c: Config, s: State, p: State, l: Label)
    requires Pair(c, s, p, l) && !SecondSection(l) && Enabled(ToPostgres(c), p, l)
    ensures SameRecords(Apply(c, s, l), Apply(ToPostgres(c), p, l))
    ensures SamePlaces(Apply(c, s, l), Apply(ToPostgres(c), p, l))
  {
    OtherActorsStay(c, s, l);
    OtherActorsStay(ToPostgres(c), p, l);
    MoverMoves(c, s, p, l);
    PlacesFromMove(s, p, Apply(c, s, l), Apply(ToPostgres(c), p, l), l);
  }

  // ----- One step: jobs -----

  // The same write to the same job, one that leaves result and message as they are.
  ghost predicate SameWrite(j: Job, j': Job, q: Job, q': Job)
  {
    && SameJob(j', q') && j'.result == j.result && q'.result == q.result
    && ((j'.errorMessage == j.errorMessage && q'.errorMessage == q.errorMessage) || q'.errorMessage == j'.errorMessage)
  }

  lemma SameRecovery(j: Job, q: Job, cutoff: Time, now: Time)
    requires SameJob(j, q)
    ensures SameWrite(j, RecoverJob(j, cutoff, now), q, RecoverJob(q, cutoff, now))
  {
  }

  lemma RecoverJobStep(c: Config, s: State, p: State, l: Label, k: nat)
    requires l.RecoverStale? && Enabled(c, s, l) && Enabled(ToPostgres(c), p, l)
    requires k < |s.jobs| && |p.jobs| == |s.jobs| && SameJob(s.jobs[k], p.jobs[k])
    requires p.now == s.now && p.actors[l.a] == s.actors[l.a]
    ensures k < |PollStep(c, s, l).jobs| && k < |PollStep(ToPostgres(c), p, l).jobs|
    ensures SameWrite(s.jobs[k], PollStep(c, s, l).jobs[k], p.jobs[k], PollStep(ToPostgres(c), p, l).jobs[k])
  {
    SameRecovery(s.jobs[k], p.jobs[k], s.actors[l.a].cutoff, s.now);
  }

  lemma ClaimJobStep(c: Config, s: State, p: State, l: Label, k: nat)
    requires l.ClaimNext? && l.choice.Some? && Enabled(c, s, l) && Enabled(ToPostgres(c), p, l)
    requires k < |s.jobs| && |p.jobs| == |s.jobs| && SameJob(s.jobs[k], p.jobs[k])
    requires p.now == s.now && p.actors[l.a] == s.actors[l.a] && l.choice.value < |s.jobs|
    ensures k < |PollStep(c, s, l).jobs| && k < |PollStep(ToPostgres(c), p, l).jobs|
    ensures SameWrite(s.jobs[k], PollStep(c, s, l).jobs[k], p.jobs[k], PollStep(ToPostgres(c), p, l).jobs[k])
  {
  }

  lemma StartJobStep(c: Config, s: State, p: State, l: Label, k: nat)
    requires Starts(l) && Enabled(c, s, l) && Enabled(ToPostgres(c), p, l)
    requires k < |s.jobs| && |p.jobs| == |s.jobs| && SameJob(s.jobs[k], p.jobs[k])
    requires p.now == s.now && p.actors[l.a] == s.actors[l.a]
    ensures k < |StartStep(c, s, l).jobs| && k < |StartStep(ToPostgres(c), p, l).jobs|
    ensures SameWrite(s.jobs[k], StartStep(c, s, l).jobs[k], p.jobs[k], StartStep(ToPostgres(c), p, l).jobs[k])
  {
  }

  lemma OtherJobStep(c: Config, s: State, l: Label, k: nat)
    requires !Settles(l) && !Starts(l) && !l.RecoverStale? && !(l.ClaimNext? && l.choice.Some?) && Enabled(c, s, l)
              && k < |s.jobs|
    ensures k < |Apply(c, s, l).jobs| && Apply(c, s, l).jobs[k] == s.jobs[k]
  {
  }

  lemma JobStep(c: Config, s: State, p: State, l: Label, k: nat)
    requires Enabled(c, s, l) && Enabled(ToPostgres(c), p, l) && !Settles(l)
    requires k < |s.jobs| && |p.jobs| == |s.jobs| && SameJob(s.jobs[k], p.jobs[k])
    requires p.now == s.now && (!l.Tick? ==> p.actors[l.a] == s.actors[l.a])
    requires l.ClaimNext? && l.choice.Some? ==> l.choice.value < |s.jobs|
    ensures k < |Apply(c, s, l).jobs| && k < |Apply(ToPostgres(c), p, l).jobs|
    ensures SameWrite(s.jobs[k], Apply(c, s, l).jobs[k], p.jobs[k], Apply(ToPostgres(c), p, l).jobs[k])
  {
    if l.RecoverStale? {
      RecoverJobStep(c, s, p, l, k);
    } else if l.ClaimNext? && l.choice.Some? {
      ClaimJobStep(c, s, p, l, k);
    } else if Starts(l) {
      StartJobStep(c, s, p, l, k);
    } else {
      OtherJobStep(c, s, l, k);
      OtherJobStep(ToPostgres(c), p, l, k);
    }
  }

  lemma NewJobStep(c: Config, s: State, p: State, l: Label)
    requires Pair(c, s, p, l) && !Settles(l) && Enabled(ToPostgres(c), p, l)
    ensures var s', p' := Apply(c, s, l), Apply(ToPostgres(c), p, l);
            |p'.jobs| == |s'.jobs| && forall k :: |s.jobs| <= k < |s'.jobs| ==> p'.jobs[k] == s'.jobs[k]
  {
    if l.ClaimNext? && l.choice.Some? {
      ClaimIsClaimable(c, s, l);
    }
  }

  lemma NonSettlingKeepsErrorDebts(c: Config, s: State, l: Label)
    requires Enabled(c, s, l) && !Settles(l)
    ensures |Apply(c, s, l).actors| == |s.actors|
    ensures forall a, k :: 0 <= a < |s.actors| ==> OwesError(Apply(c, s, l), a, k) == OwesError(s, a, k)
  {
    OtherActorsStay(c, s, l);
    if !l.Tick? { NonSettlingActor(c, s, l); }
  }

  lemma OutcomeKept(s: State, p: State, s': State, p': State, k: nat)
    requires k < |s.jobs| && k < |p.jobs| && k < |s'.jobs| && k < |p'.jobs| && |s'.actors| == |s.actors|
    requires SameOutcome(s, p, k) && SameWrite(s.jobs[k], s'.jobs[k], p.jobs[k], p'.jobs[k])
    requires forall a :: 0 <= a < |s.actors| ==> OwesResult(s', a, k) == OwesResult(s, a, k)
    requires forall a :: 0 <= a < |s.actors| ==> OwesError(s', a, k) == OwesError(s, a, k)
    ensures SameOutcome(s', p', k)
  {
    if p'.jobs[k].result != s'.jobs[k].result {
      var a :| 0 <= a < |s.actors| && OwesResult(s, a, k);
      assert OwesResult(s', a, k);
    }
    if p'.jobs[k].errorMessage != s'.jobs[k].errorMessage {
      var a :| 0 <= a < |s.actors| && OwesError(s, a, k);
      assert OwesError(s', a, k);
    }
  }

  lemma JobsStep(c: Config, s: State, p: State, l: Label)
    requires Pair(c, s, p, l) && !Settles(l) && Enabled(ToPostgres(c), p, l)
    ensures SameJobs(Apply(c, s, l), Apply(ToPostgres(c), p, l))
  {
    NewJobStep(c, s, p, l);
    EnabledInPostgres(c, s, p, l);
    StepEvolves(c, s, l);
    NonSettlingKeepsOwners(c, s, l);
    NonSettlingKeepsErrorDebts(c, s, l);
    var s', p' := Apply(c, s, l), Apply(ToPostgres(c), p, l);
    forall k | 0 <= k < |s'.jobs| ensures SameJob(s'.jobs[k], p'.jobs[k]) && SameOutcome(s', p', k) {
      if k < |s.jobs| {
        if l.ClaimNext? && l.choice.Some? { ClaimIsClaimable(c, s, l); }
        assert SameJob(s.jobs[k], p.jobs[k]) && SameOutcome(s, p, k);
        JobStep(c, s, p, l, k);
        OutcomeKept(s, p, s', p', k);
      }
    }
  }

  lemma DebtKept(s: State, p: State, s': State, p': State, a: nat)
    requires a < |s.actors| && a < |s'.actors| && DebtPaid(s, p, a)
    requires SettlesNothing(s.actors[a], s'.actors[a])
    requires Settling(At(s.actors[a])) ==>
               var k := At(s.actors[a]).task.job; k < |p.jobs| && k < |p'.jobs| && p'.jobs[k] == p.jobs[k]
    ensures DebtPaid(s', p', a)
  {
  }

  lemma DebtsStep(c: Config, s: State, p: State, l: Label, a: nat)
    requires Pair(c, s, p, l) && !Settles(l) && Enabled(ToPostgres(c), p, l) && a < |s.actors|
    ensures |Apply(c, s, l).actors| == |s.actors| && DebtPaid(Apply(c, s, l), Apply(ToPostgres(c), p, l), a)
  {
    OtherActorsStay(c, s, l);
    if !l.Tick? { NonSettlingActor(c, s, l); }
    assert DebtPaid(s, p, a) && ActorOk(c, s, a);
    if Settling(At(s.actors[a])) {
      var k := At(s.actors[a]).task.job;
      assert SameJob(s.jobs[k], p.jobs[k]);
      SettledJobKept(ToPostgres(c), p, l, k);
    }
    DebtKept(s, p, Apply(c, s, l), Apply(ToPostgres(c), p, l), a);
  }

  // Outside set_succeeded and set_failed a settled job is not written to.
  lemma SettledJobKept(c: Config, s: State, l: Label, k: nat)
    requires Enabled(c, s, l) && !Settles(l) && k < |s.jobs| && s.jobs[k].status.Terminal()
    ensures k < |Apply(c, s, l).jobs| && Apply(c, s, l).jobs[k] == s.jobs[k]
  {
    if l.ClaimNext? && l.choice.Some? {
      ClaimIsClaimable(c, s, l);
    }
  }

  // ----- One step: set_succeeded and set_failed -----

  // The other jobs are not touched by either side.
  lemma SettleTouchesOne(c: Config, s: State, l: Label, k: nat)
    requires Enabled(c, s, l) && Settles(l) && k < |s.jobs|
    requires HasTask(s.actors[l.a]) ==> k != s.actors[l.a].task.job
    ensures |SettleStep(c, s, l).jobs| == |s.jobs| && SettleStep(c, s, l).jobs[k] == s.jobs[k]
  {
  }

  // What a settling step other than a second lock section does to its own job on both sides.
  ghost predicate SettledAlike(s: State, p: State, s': State, p': State, a: nat, k: nat)
    requires k < |s.jobs| && k < |p.jobs| && a < |s.actors|
  {
    && |s'.jobs| == |s.jobs| && |p'.jobs| == |p.jobs| && |s'.actors| == |s.actors|
    && SameJob(s'.jobs[k], p'.jobs[k])
    && s'.jobs[k].result == s.jobs[k].result && s'.jobs[k].errorMessage == s.jobs[k].errorMessage
    && (p'.jobs[k].result == p.jobs[k].result || OwesResult(s', a, k))
    && (p'.jobs[k].errorMessage == p.jobs[k].errorMessage || OwesError(s', a, k))
    && DebtPaid(s', p', a)
  }

  lemma SucceededJobStep(c: Config, s: State, p: State, l: Label, k: nat)
    requires c.backend == InMemory && l.SetSucceeded? && Enabled(c, s, l) && Enabled(ToPostgres(c), p, l)
    requires p.actors[l.a] == s.actors[l.a] && k == s.actors[l.a].task.job
    requires k < |s.jobs| && k < |p.jobs| && SameJob(s.jobs[k], p.jobs[k])
    ensures SettledAlike(s, p, SettleStep(c, s, l), SettleStep(ToPostgres(c), p, l), l.a, k)
  {
  }

  lemma FailedJobStep(c: Config, s: State, p: State, l: Label, k: nat)
    requires c.backend == InMemory && l.SetFailed? && Enabled(c, s, l) && Enabled(ToPostgres(c), p, l)
    requires p.actors[l.a] == s.actors[l.a] && k == s.actors[l.a].task.job
    requires k < |s.jobs| && k < |p.jobs| && SameJob(s.jobs[k], p.jobs[k])
    ensures SettledAlike(s, p, SettleStep(c, s, l), SettleStep(ToPostgres(c), p, l), l.a, k)
  {
  }

  lemma ReportedJobStep(c: Config, s: State, p: State, l: Label, k: nat)
    requires c.backend == InMemory && (l.ReportSucceeded? || l.ReportFailed?) && Enabled(c, s, l)
              && Enabled(ToPostgres(c), p, l)
    requires p.actors[l.a] == s.actors[l.a] && k == s.actors[l.a].task.job
    requires k < |s.jobs| && k < |p.jobs| && SameJob(s.jobs[k], p.jobs[k])
    ensures SettledAlike(s, p, SettleStep(c, s, l), SettleStep(ToPostgres(c), p, l), l.a, k)
  {
  }

  lemma SettledJobStep(c: Config, s: State, p: State, l: Label, k: nat)
    requires c.backend == InMemory && Settles(l) && !SecondSection(l) && Enabled(c, s, l)
              && Enabled(ToPostgres(c), p, l)
    requires p.actors[l.a] == s.actors[l.a] && HasTask(s.actors[l.a]) && k == s.actors[l.a].task.job
    requires k < |s.jobs| && k < |p.jobs| && SameJob(s.jobs[k], p.jobs[k])
    ensures SettledAlike(s, p, SettleStep(c, s, l), SettleStep(ToPostgres(c), p, l), l.a, k)
  {
    if l.SetSucceeded? {
      SucceededJobStep(c, s, p, l, k);
    } else if l.SetFailed? {
      FailedJobStep(c, s, p, l, k);
    } else {
      ReportedJobStep(c, s, p, l, k);
    }
  }

  // An actor that owes nothing before a settling step leaves everyone else's debts standing.
  lemma OtherDebtsStand(c: Config, s: State, l: Label, a: nat, k: nat)
    requires Enabled(c, s, l) && a < |s.actors| && !l.Tick? && a != l.a
    ensures |Apply(c, s, l).actors| == |s.actors|
    ensures OwesResult(Apply(c, s, l), a, k) == OwesResult(s, a, k)
    ensures OwesError(Apply(c, s, l), a, k) == OwesError(s, a, k)
  {
    OtherActorsStay(c, s, l);
  }

  // Outcomes agree after a settling step, if the job is not the one settled.
  lemma OtherOutcome(s: State, p: State, s': State, p': State, a: nat, k: nat)
    requires k < |s.jobs| && k < |p.jobs| && k < |s'.jobs| && k < |p'.jobs|
    requires s'.jobs[k] == s.jobs[k] && p'.jobs[k] == p.jobs[k] && SameOutcome(s, p, k)
    requires OthersStay(s, s', a)
    requires a < |s.actors| ==> !OwesResult(s, a, k) && !OwesError(s, a, k)
    ensures SameOutcome(s', p', k)
  {
    if s.jobs[k].result != p.jobs[k].result {
      var b :| 0 <= b < |s.actors| && OwesResult(s, b, k);
      assert OwesResult(s', b, k);
    }
    if s.jobs[k].errorMessage != p.jobs[k].errorMessage {
      var b :| 0 <= b < |s.actors| && OwesError(s, b, k);
      assert OwesError(s', b, k);
    }
  }

  // And if it is, because its actor then owes what Postgres has already written.
  lemma OwnOutcome(s: State, p: State, s': State, p': State, a: nat, k: nat)
    requires k < |s.jobs| && k < |p.jobs| && a < |s.actors| && SettledAlike(s, p, s', p', a, k)
    requires OthersStay(s, s', a) && SameOutcome(s, p, k) && !OwesResult(s, a, k) && !OwesError(s, a, k)
    ensures SameOutcome(s', p', k)
  {
    if s.jobs[k].result != p.jobs[k].result {
      var b :| 0 <= b < |s.actors| && OwesResult(s, b, k);
      assert OwesResult(s', b, k);
    }
    if s.jobs[k].errorMessage != p.jobs[k].errorMessage {
      var b :| 0 <= b < |s.actors| && OwesError(s, b, k);
      assert OwesError(s', b, k);
    }
  }

  // A first section, a report and a return are taken by an actor that owes nothing.
  lemma SettlerOwesNothing(c: Config, s: State, l: Label, k: nat)
    requires Settles(l) && !SecondSection(l) && Enabled(c, s, l)
    ensures !OwesResult(s, l.a, k) && !OwesError(s, l.a, k)
    ensures OthersStay(s, SettleStep(c, s, l), l.a)
    ensures HasTask(s.actors[l.a]) || l.Return?
  {
    OtherActorsStay(c, s, l);
  }

  lemma SettlingOutcome(c: Config, s: State, p: State, l: Label, k: nat)
    requires Pair(c, s, p, l) && Settles(l) && !SecondSection(l) && Enabled(ToPostgres(c), p, l) && k < |s.jobs|
    ensures var s', p' := SettleStep(c, s, l), SettleStep(ToPostgres(c), p, l);
            && |s'.actors| == |s.actors| && |s'.jobs| == |s.jobs| && |p'.jobs| == |p.jobs|
            && SameJob(s'.jobs[k], p'.jobs[k]) && SameOutcome(s', p', k)
  {
    var s', p' := SettleStep(c, s, l), SettleStep(ToPostgres(c), p, l);
    EnabledInPostgres(c, s, p, l);
    SettlerOwesNothing(c, s, l, k);
    SettleKeepsSizes(c, s, l);
    SettleKeepsSizes(ToPostgres(c), p, l);
    assert SameJob(s.jobs[k], p.jobs[k]) && SameOutcome(s, p, k);
    if HasTask(s.actors[l.a]) && s.actors[l.a].task.job == k {
      SettledJobStep(c, s, p, l, k);
      OwnOutcome(s, p, s', p', l.a, k);
    } else {
      SettleTouchesOne(c, s, l, k);
      SettleTouchesOne(ToPostgres(c), p, l, k);
      OtherOutcome(s, p, s', p', l.a, k);
    }
  }

  lemma SettlersDebt(c: Config, s: State, p: State, l: Label)
    requires Pair(c, s, p, l) && Settles(l) && !SecondSection(l) && Enabled(ToPostgres(c), p, l)
    ensures |SettleStep(c, s, l).actors| == |s.actors|
    ensures DebtPaid(SettleStep(c, s, l), SettleStep(ToPostgres(c), p, l), l.a)
  {
    EnabledInPostgres(c, s, p, l);
    SettleKeepsSizes(c, s, l);
    assert ActorOk(c, s, l.a);
    if HasTask(s.actors[l.a]) {
      var k := s.actors[l.a].task.job;
      assert SameJob(s.jobs[k], p.jobs[k]);
      SettledJobStep(c, s, p, l, k);
    }
  }

  lemma SettlingDebt(c: Config, s: State, p: State, l: Label, a: nat)
    requires Pair(c, s, p, l) && Settles(l) && !SecondSection(l) && Enabled(ToPostgres(c), p, l) && a < |s.actors|
    ensures |SettleStep(c, s, l).actors| == |s.actors|
    ensures DebtPaid(SettleStep(c, s, l), SettleStep(ToPostgres(c), p, l), a)
  {
    SettleKeepsSizes(c, s, l);
    if a == l.a {
      SettlersDebt(c, s, p, l);
    } else {
      SettlerOwesNothing(c, s, l, 0);
      assert DebtPaid(s, p, a) && ActorOk(c, s, a);
      if Settling(At(s.actors[a])) {
        var k := At(s.actors[a]).task.job;
        assert SameJob(s.jobs[k], p.jobs[k]);
        SettleKeepsSettled(ToPostgres(c), p, l, k);
      }
    }
  }

  // With single transactions a settled job is never written again.
  lemma SettleKeepsSettled(c: Config, s: State, l: Label, k: nat)
    requires Enabled(c, s, l) && Settles(l) && !SecondSection(l) && k < |s.jobs| && s.jobs[k].status.Terminal()
    ensures |SettleStep(c, s, l).jobs| == |s.jobs| && SettleStep(c, s, l).jobs[k] == s.jobs[k]
  {
  }

  // ----- One step: a second lock section -----

  lemma SecondOutcome(c: Config, s: State, p: State, l: Label, k: nat)
    requires Pair(c, s, p, l) && SecondSection(l) && k < |s.jobs|
    ensures var s' := SettleStep(c, s, l);
            && |s'.jobs| == |s.jobs| && |p.jobs| == |s.jobs|
            && SameJob(s'.jobs[k], p.jobs[k]) && SameOutcome(s', p, k)
  {
    OtherActorsStay(c, s, l);
    SettleKeepsSizes(c, s, l);
    assert SameJob(s.jobs[k], p.jobs[k]) && SameOutcome(s, p, k);
    assert ActorOk(c, s, l.a) && DebtPaid(s, p, l.a);
    var mine := s.actors[l.a].task.job;
    assert Owns(s, l.a, mine);
    if p.jobs[k].result != s.jobs[k].result {
      var a :| 0 <= a < |s.actors| && OwesResult(s, a, k);
      assert Owns(s, a, k);
      if a != l.a { OtherDebtsStand(c, s, l, a, k); }
    }
    if p.jobs[k].errorMessage != s.jobs[k].errorMessage {
      var a :| 0 <= a < |s.actors| && OwesError(s, a, k);
      assert Owns(s, a, k);
      if a != l.a { OtherDebtsStand(c, s, l, a, k); }
    }
    if k != mine {
      SettleTouchesOne(c, s, l, k);
    }
  }

  lemma SecondPlaces(c: Config, s: State, p: State, l: Label)
    requires Pair(c, s, p, l) && SecondSection(l)
    ensures SameRecords(SettleStep(c, s, l), p) && SamePlaces(SettleStep(c, s, l), p)
  {
    OtherActorsStay(c, s, l);
  }

  lemma SecondDebts(c: Config, s: State, p: State, l: Label, a: nat)
    requires Pair(c, s, p, l) && SecondSection(l) && a < |s.actors|
    ensures |SettleStep(c, s, l).actors| == |s.actors| && DebtPaid(SettleStep(c, s, l), p, a)
  {
    OtherActorsStay(c, s, l);
    assert DebtPaid(s, p, a);
  }

  lemma SecondSectionStutters(c: Config, s: State, p: State, l: Label)
    requires Pair(c, s, p, l) && SecondSection(l)
    ensures Related(SettleStep(c, s, l), p)
  {
    var s' := SettleStep(c, s, l);
    SettleKeepsSizes(c, s, l);
    SecondPlaces(c, s, p, l);
    forall k | 0 <= k < |s'.jobs| ensures SameJob(s'.jobs[k], p.jobs[k]) && SameOutcome(s', p, k) {
      SecondOutcome(c, s, p, l, k);
    }
    forall a | 0 <= a < |s'.actors| ensures DebtPaid(s', p, a) { SecondDebts(c, s, p, l, a); }
  }

  // ----- Runs -----

  // One in-memory step is matched by the same Postgres step, or by none.
  lemma StepRefines(c: Config, s: State, p: State, l: Label)
    requires Pair(c, s, p, l)
    ensures SecondSection(l) ==> Related(Apply(c, s, l), p)
    ensures !SecondSection(l) ==> Enabled(ToPostgres(c), p, l) && Related(Apply(c, s, l), Apply(ToPostgres(c), p, l))
  {
    if SecondSection(l) {
      SecondSectionStutters(c, s, p, l);
    } else {
      EnabledInPostgres(c, s, p, l);
      SameStepRefines(c, s, p, l);
    }
  }

  lemma SameStepRefines(c: Config, s: State, p: State, l: Label)
    requires Pair(c, s, p, l) && !SecondSection(l) && Enabled(ToPostgres(c), p, l)
    ensures Related(Apply(c, s, l), Apply(ToPostgres(c), p, l))
  {
    MoveStep(c, s, p, l);
    if Settles(l) {
      SettlingKeepsJobs(c, s, p, l);
    } else {
      JobsStep(c, s, p, l);
      NonSettlingKeepsDebts(c, s, p, l);
    }
  }

  lemma SettlingKeepsJobs(c: Config, s: State, p: State, l: Label)
    requires Pair(c, s, p, l) && Settles(l) && !SecondSection(l) && Enabled(ToPostgres(c), p, l)
    ensures var s', p' := SettleStep(c, s, l), SettleStep(ToPostgres(c), p, l);
            SameJobs(s', p') && forall a :: 0 <= a < |s'.actors| ==> DebtPaid(s', p', a)
  {
    var s', p' := SettleStep(c, s, l), SettleStep(ToPostgres(c), p, l);
    SettleKeepsSizes(c, s, l);
    SettleKeepsSizes(ToPostgres(c), p, l);
    forall k | 0 <= k < |s'.jobs| ensures SameJob(s'.jobs[k], p'.jobs[k]) && SameOutcome(s', p', k) {
      SettlingOutcome(c, s, p, l, k);
    }
    forall a | 0 <= a < |s'.actors| ensures DebtPaid(s', p', a) { SettlingDebt(c, s, p, l, a); }
  }

  lemma NonSettlingKeepsDebts(c: Config, s: State, p: State, l: Label)
    requires Pair(c, s, p, l) && !Settles(l) && Enabled(ToPostgres(c), p, l)
    ensures forall a :: 0 <= a < |Apply(c, s, l).actors| ==> DebtPaid(Apply(c, s, l), Apply(ToPostgres(c), p, l), a)
  {
    OtherActorsStay(c, s, l);
    forall a | 0 <= a < |Apply(c, s, l).actors| ensures DebtPaid(Apply(c, s, l), Apply(ToPostgres(c), p, l), a) {
      DebtsStep(c, s, p, l, a);
    }
  }

  // The labels of a run without its second lock sections.
  ghost function Atomic(labels: seq<Label>): seq<Label>
  {
    if labels == [] then []
    else
      var n := |labels| - 1;
      if SecondSection(labels[n]) then Atomic(labels[..n]) else Atomic(labels[..n]) + [labels[n]]
  }

  // ps is a Postgres run that shadows the in-memory run: each in-memory state is related to the
  // Postgres state reached by the same steps.
  ghost predicate Shadows(c: Config, states: seq<State>, labels: seq<Label>, ps: seq<State>)
  {
    && |states| == |labels| + 1
    && IsRun(ToPostgres(c), ps, Atomic(labels))
    && forall i :: 0 <= i <= |labels| ==>
         |Atomic(labels[..i])| < |ps| && Related(states[i], ps[|Atomic(labels[..i])|])
  }

  lemma InitShadowed(c: Config, s: State)
    requires c.backend == InMemory && Init(s)
    ensures Shadows(c, [s], [], [s])
  {
    assert [s][0] == s;
  }

  lemma ShadowExtends(c: Config, states: seq<State>, labels: seq<Label>, ps: seq<State>, l: Label, s': State,
                      ps': seq<State>)
    requires Shadows(c, states, labels, ps) && ps <= ps'
    requires IsRun(ToPostgres(c), ps', Atomic(labels + [l]))
    requires |Atomic(labels + [l])| < |ps'| && Related(s', ps'[|Atomic(labels + [l])|])
    ensures Shadows(c, states + [s'], labels + [l], ps')
  {
    var longer := labels + [l];
    forall i | 0 <= i <= |longer|
      ensures |Atomic(longer[..i])| < |ps'| && Related((states + [s'])[i], ps'[|Atomic(longer[..i])|])
    {
      if i <= |labels| {
        assert longer[..i] == labels[..i];
        assert ps'[|Atomic(labels[..i])|] == ps[|Atomic(labels[..i])|];
      } else {
        assert longer[..i] == longer;
      }
    }
  }

  lemma RunExtends(c: Config, states: seq<State>, labels: seq<Label>, l: Label)
    requires IsRun(c, states, labels) && Enabled(c, states[|labels|], l)
    ensures IsRun(c, states + [Apply(c, states[|labels|], l)], labels + [l])
  {
    var s' := Apply(c, states[|labels|], l);
    forall i: nat | i <= |labels| ensures Step(c, (states + [s'])[i], (labels + [l])[i], (states + [s'])[i+1]) {
      if i < |labels| { assert Step(c, states[i], labels[i], states[i+1]); }
    }
  }

  lemma ShadowOneMore(c: Config, states: seq<State>, labels: seq<Label>, l: Label, ps: seq<State>)
    returns (ps': seq<State>)
    requires c.backend == InMemory && Shadows(c, states, labels, ps)
    requires Inv(c, states[|labels|]) && Enabled(c, states[|labels|], l)
    ensures Shadows(c, states + [Apply(c, states[|labels|], l)], labels + [l], ps')
  {
    var s := states[|labels|];
    assert labels[..|labels|] == labels && (labels + [l])[..|labels|] == labels;
    var p := ps[|Atomic(labels)|];
    StepRefines(c, s, p, l);
    if SecondSection(l) {
      ps' := ps;
    } else {
      RunExtends(ToPostgres(c), ps, Atomic(labels), l);
      ps' := ps + [Apply(ToPostgres(c), p, l)];
    }
    ShadowExtends(c, states, labels, ps, l, Apply(c, s, l), ps');
  }

  lemma {:induction false} ShadowPrefix(c: Config, states: seq<State>, labels: seq<Label>, n: nat)
    returns (ps: seq<State>)
    requires c.backend == InMemory && IsRun(c, states, labels) && n <= |labels|
    ensures Shadows(c, states[..n+1], labels[..n], ps)
  {
    if n == 0 {
      InitShadowed(c, states[0]);
      ps := [states[0]];
      assert states[..1] == [states[0]] && labels[..0] == [];
    } else {
      ps := ShadowPrefix(c, states, labels, n - 1);
      RunInv(c, states, labels, n - 1);
      assert Step(c, states[n-1], labels[n-1], states[n]);
      ps := ShadowOneMore(c, states[..n], labels[..n-1], labels[n-1], ps);
      assert states[..n] + [states[n]] == states[..n+1];
      assert labels[..n-1] + [labels[n-1]] == labels[..n];
    }
  }

  // Every run of the in-memory store is a run of the Postgres store without the second lock sections.
  lemma InMemoryRefinesPostgres(c: Config, states: seq<State>, labels: seq<Label>)
    requires c.backend == InMemory && IsRun(c, states, labels)
    ensures exists ps :: Shadows(c, states, labels, ps)
  {
    var n := |labels|;
    var ps := ShadowPrefix(c, states, labels, n);
    assert states[..n+1] == states && labels[..n] == labels;
  }

  // Related states agree on everything a reader can see, except between two lock sections:
  // statuses, results, messages, attempt counts, claim times of open jobs, queue, audit and counters.
  lemma RelatedMeansSame(s: State, p: State, k: nat)
    requires Related(s, p) && k < |s.jobs|
    requires forall a :: 0 <= a < |s.actors| && HasTask(At(s.actors[a])) && At(s.actors[a]).task.job == k ==>
               !At(s.actors[a]).SaveResult? && !At(s.actors[a]).SaveError?
    ensures k < |p.jobs| && p.audit == s.audit && p.counters == s.counters && p.queue == s.queue
    ensures p.jobs[k] == s.jobs[k].(updatedAt := p.jobs[k].updatedAt, claimedAt := p.jobs[k].claimedAt)
    ensures s.jobs[k].status.Terminal() || p.jobs[k].claimedAt == s.jobs[k].claimedAt
  {
    assert SameJob(s.jobs[k], p.jobs[k]) && SameOutcome(s, p, k);
  }
}
