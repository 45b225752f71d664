// Audit events and counters account for every job, whatever the interleaving.
module Conservation {
  import opened Prelude
  import opened Jobs
  import opened Store
  import opened Protocol
  import opened Invariants

  // ----- At most one terminal audit event per job -----

  predicate TerminalEvent(e: Audit) { e.JobSucceeded? || e.JobFailed? }

  ghost predicate EventOk(s: State, e: Audit)
  {
    TerminalEvent(e) ==>
      && e.job < |s.jobs|
      && (e.JobSucceeded? ==> s.jobs[e.job].status == Succeeded && s.jobs[e.job].result.Some?
                              && s.jobs[e.job].result.value.score == e.score)
      && (e.JobFailed? ==> s.jobs[e.job].status == Failed)
      && forall a :: 0 <= a < |s.actors| ==> !Owns(s, a, e.job)
  }

  ghost predicate AuditOk(s: State)
  {
    && (forall i :: 0 <= i < |s.audit| ==> EventOk(s, s.audit[i]))
    && (forall i, j :: 0 <= i < j < |s.audit| && TerminalEvent(s.audit[i]) && TerminalEvent(s.audit[j]) ==>
          s.audit[i].job != s.audit[j].job)
  }

  lemma NobodyTakesOver(c: Config, s: State, l: Label, k: nat)
    requires Inv(c, s) && Enabled(c, s, l) && k < |s.jobs| && s.jobs[k].status.Terminal()
    requires forall a :: 0 <= a < |s.actors| ==> !Owns(s, a, k)
    ensures |Apply(c, s, l).actors| == |s.actors|
    ensures forall a :: 0 <= a < |s.actors| ==> !Owns(Apply(c, s, l), a, k)
  {
    if !Settles(l) {
      NonSettlingKeepsOwners(c, s, l);
    } else {
      OtherActorsStay(c, s, l);
      SettleKeepsSizes(c, s, l);
      if Owns(SettleStep(c, s, l), l.a, k) {
        assert !Owns(s, l.a, k);
        NewOwner(c, s, l, k);
      }
      forall a | 0 <= a < |s.actors| ensures !Owns(Apply(c, s, l), a, k) {
        assert !Owns(s, a, k);
      }
    }
  }

  lemma EventLasts(c: Config, s: State, l: Label, e: Audit)
    requires Inv(c, s) && Enabled(c, s, l) && EventOk(s, e) && TerminalEvent(e)
    ensures EventOk(Apply(c, s, l), e)
  {
    StepEvolves(c, s, l);
    assert Evolves(s.jobs[e.job], Apply(c, s, l).jobs[e.job]);
    NobodyTakesOver(c, s, l, e.job);
  }

  // The terminal events a step adds: at most one, by the owner that is done with the job.
  lemma StepAudit(c: Config, s: State, l: Label)
    requires Enabled(c, s, l)
    ensures Apply(c, s, l).audit == s.audit
            || (|Apply(c, s, l).audit| == |s.audit| + 1 && Apply(c, s, l).audit[..|s.audit|] == s.audit)
    ensures |Apply(c, s, l).audit| > |s.audit| && TerminalEvent(Apply(c, s, l).audit[|s.audit|]) ==>
              l.ReportSucceeded? || l.ReportFailed?
  {
  }

  lemma ReportedEventOk(c: Config, s: State, l: Label)
    requires Inv(c, s) && Enabled(c, s, l) && (l.ReportSucceeded? || l.ReportFailed?)
    ensures var s' := SettleStep(c, s, l);
            && s'.audit == s.audit + [s'.audit[|s.audit|]]
            && Owns(s, l.a, s'.audit[|s.audit|].job)
            && EventOk(s', s'.audit[|s.audit|])
  {
    assert ActorOk(c, s, l.a);
    SettleKeepsSizes(c, s, l);
    var s' := SettleStep(c, s, l);
    var k := s.actors[l.a].task.job;
    assert Owns(s, l.a, k);
    forall b | 0 <= b < |s'.actors| ensures !Owns(s', b, k) {
      if b != l.a { assert Owns(s', b, k) ==> Owns(s, b, k); }
    }
  }

  lemma StepAuditOk(c: Config, s: State, l: Label)
    requires Inv(c, s) && AuditOk(s) && Enabled(c, s, l)
    ensures AuditOk(Apply(c, s, l))
  {
    var s' := Apply(c, s, l);
    StepAudit(c, s, l);
    var n := |s.audit|;
    forall i | 0 <= i < n ensures EventOk(s', s.audit[i]) {
      assert EventOk(s, s.audit[i]);
      if TerminalEvent(s.audit[i]) { EventLasts(c, s, l, s.audit[i]); }
    }
    assert forall i :: 0 <= i < n ==> s'.audit[i] == s.audit[i];
    if |s'.audit| > n && TerminalEvent(s'.audit[n]) {
      ReportedEventOk(c, s, l);
      forall i | 0 <= i < n && TerminalEvent(s.audit[i]) ensures s.audit[i].job != s'.audit[n].job {
        assert EventOk(s, s.audit[i]);
      }
    }
  }

  lemma {:induction false} RunAuditOk(c: Config, states: seq<State>, labels: seq<Label>, i: nat)
    requires IsRun(c, states, labels) && i < |states|
    ensures AuditOk(states[i])
  {
    if i > 0 {
      RunAuditOk(c, states, labels, i - 1);
      RunInv(c, states, labels, i - 1);
      assert Step(c, states[i-1], labels[i-1], states[i]);
      StepAuditOk(c, states[i-1], labels[i-1]);
    }
  }

  // Over every run a job has at most one terminal audit event, and it tells the job's final status and score.
  lemma OneTerminalEventPerJob(c: Config, states: seq<State>, labels: seq<Label>, i: nat, p: nat, q: nat)
    requires IsRun(c, states, labels) && i < |states| && p < |states[i].audit| && q < |states[i].audit|
    requires TerminalEvent(states[i].audit[p])
    ensures var e, k := states[i].audit[p], states[i].audit[p].job;
            && k < |states[i].jobs|
            && (e.JobSucceeded? ==>
                  states[i].jobs[k].status == Succeeded && e.score == c.score(states[i].jobs[k].request).score)
            && (e.JobFailed? ==> states[i].jobs[k].status == Failed)
    ensures TerminalEvent(states[i].audit[q]) && states[i].audit[q].job == states[i].audit[p].job ==> p == q
  {
    RunAuditOk(c, states, labels, i);
    RunInv(c, states, labels, i);
    assert EventOk(states[i], states[i].audit[p]);
    assert ScoredBy(c.score, states[i].jobs[states[i].audit[p].job]);
  }

  // ----- Counters -----

  function OwedQueued(pc: Pc): int { if At(pc).Enqueuing? || At(pc).AnnounceQueued? then 1 else 0 }
  function OwedSuccess(pc: Pc): int { if At(pc).SaveResult? || At(pc).AnnounceSuccess? then 1 else 0 }
  function OwedFailure(pc: Pc): int { if At(pc).SaveError? || At(pc).AnnounceFailure? then 1 else 0 }
  function OwedRecovered(pc: Pc): int { if At(pc).CountRecovered? then At(pc).n else 0 }
  function IsSucceeded(j: Job): int { if j.status == Succeeded then 1 else 0 }
  function IsFailed(j: Job): int { if j.status == Failed then 1 else 0 }

  // What the counters say, plus what actors (crashed ones included) have not reported, is what happened.
  ghost predicate Balanced(s: State)
  {
    && s.counters.queued + Tally(s.actors, OwedQueued) == |s.jobs|
    && s.counters.succeeded + Tally(s.actors, OwedSuccess) == Tally(s.jobs, IsSucceeded)
    && s.counters.failed + Tally(s.actors, OwedFailure) + s.timeouts == Tally(s.jobs, IsFailed)
    && s.counters.recovered + Tally(s.actors, OwedRecovered) == s.requeues + s.timeouts
  }

  lemma {:induction false} RecoverTallies(jobs: seq<Job>, cutoff: Time, now: Time, skipped: set<nat>)
    ensures Tally(RecoverAll(jobs, cutoff, now, skipped), IsSucceeded) == Tally(jobs, IsSucceeded)
    ensures Tally(RecoverAll(jobs, cutoff, now, skipped), IsFailed)
               == Tally(jobs, IsFailed) + CountExhausted(jobs, cutoff, skipped)
  {
    if jobs == [] {
      assert ExhaustedPositions(jobs, cutoff, skipped) == {};
    }
    if jobs != [] {
      var n := |jobs| - 1;
      assert RecoverAll(jobs, cutoff, now, skipped)[..n] == RecoverAll(jobs[..n], cutoff, now, skipped);
      RecoverTallies(jobs[..n], cutoff, now, skipped);
      CountExhaustedGrows(jobs, cutoff, skipped, n);
      assert jobs[..n+1] == jobs;
    }
  }

  // The entries of actor a account for dSucceeded more succeeded and dFailed more failed jobs.
  ghost predicate EntriesBalance(s: State, s': State, a: nat, dSucceeded: int, dFailed: int)
    requires a < |s.actors| && a < |s'.actors|
  {
    var pc, pc' := s.actors[a], s'.actors[a];
    && s'.counters.queued + OwedQueued(pc') == s.counters.queued + OwedQueued(pc)
    && s'.counters.succeeded + OwedSuccess(pc') == s.counters.succeeded + OwedSuccess(pc) + dSucceeded
    && s'.counters.failed + OwedFailure(pc') == s.counters.failed + OwedFailure(pc) + dFailed
    && s'.counters.recovered + OwedRecovered(pc') == s.counters.recovered + OwedRecovered(pc)
    && s'.requeues == s.requeues && s'.timeouts == s.timeouts
  }

  lemma OwedChange(s: State, a: nat, pc: Pc)
    requires a < |s.actors|
    ensures var t := s.actors[a := pc];
            && Tally(t, OwedQueued) == Tally(s.actors, OwedQueued) - OwedQueued(s.actors[a]) + OwedQueued(pc)
            && Tally(t, OwedSuccess) == Tally(s.actors, OwedSuccess) - OwedSuccess(s.actors[a]) + OwedSuccess(pc)
            && Tally(t, OwedFailure) == Tally(s.actors, OwedFailure) - OwedFailure(s.actors[a]) + OwedFailure(pc)
            && Tally(t, OwedRecovered)
               == Tally(s.actors, OwedRecovered) - OwedRecovered(s.actors[a]) + OwedRecovered(pc)
  {
    TallyUpdate(s.actors, a, pc, OwedQueued);
    TallyUpdate(s.actors, a, pc, OwedSuccess);
    TallyUpdate(s.actors, a, pc, OwedFailure);
    TallyUpdate(s.actors, a, pc, OwedRecovered);
  }

  lemma BalanceKept(s: State, s': State, a: nat, k: nat)
    requires Balanced(s) && a < |s.actors| && a < |s'.actors| && k < |s.jobs| && k < |s'.jobs|
    requires s'.actors == s.actors[a := s'.actors[a]] && s'.jobs == s.jobs[k := s'.jobs[k]]
    requires EntriesBalance(s, s', a, IsSucceeded(s'.jobs[k]) - IsSucceeded(s.jobs[k]),
                              IsFailed(s'.jobs[k]) - IsFailed(s.jobs[k]))
    ensures Balanced(s')
  {
    OwedChange(s, a, s'.actors[a]);
    TallyUpdate(s.jobs, k, s'.jobs[k], IsSucceeded);
    TallyUpdate(s.jobs, k, s'.jobs[k], IsFailed);
  }

  lemma BalanceKeptQuietly(s: State, s': State, a: nat)
    requires Balanced(s) && a < |s.actors| && a < |s'.actors|
    requires s'.actors == s.actors[a := s'.actors[a]] && s'.jobs == s.jobs
    requires EntriesBalance(s, s', a, 0, 0)
    ensures Balanced(s')
  {
    OwedChange(s, a, s'.actors[a]);
  }

  lemma CreateBalanced(c: Config, s: State, l: Label)
    requires Balanced(s) && Enabled(c, s, l) && l.Create?
    ensures Balanced(SubmitStep(c, s, l))
  {
    var s' := SubmitStep(c, s, l);
    OwedChange(s, l.a, s'.actors[l.a]);
    TallyAppend(s.jobs, s'.jobs[|s.jobs|], IsSucceeded);
    TallyAppend(s.jobs, s'.jobs[|s.jobs|], IsFailed);
  }

  lemma SubmitBalanced(c: Config, s: State, l: Label)
    requires Balanced(s) && Enabled(c, s, l) && Submits(l)
    ensures Balanced(SubmitStep(c, s, l))
  {
    if l.Create? {
      CreateBalanced(c, s, l);
    } else {
      BalanceKeptQuietly(s, SubmitStep(c, s, l), l.a);
    }
  }

  // Recovery fails the exhausted jobs, counts them as time-outs, and owes the counter all it recovered.
  lemma RecoverEntries(c: Config, s: State, l: Label)
    requires Enabled(c, s, l) && l.RecoverStale?
    ensures var s', n, t := PollStep(c, s, l), CountStale(s.jobs, s.actors[l.a].cutoff, l.skipped),
                            CountExhausted(s.jobs, s.actors[l.a].cutoff, l.skipped);
            && s'.counters == s.counters && |s'.actors| == |s.actors| && s'.actors == s.actors[l.a := s'.actors[l.a]]
            && s'.jobs == RecoverAll(s.jobs, s.actors[l.a].cutoff, Stamp(s, l.read), l.skipped)
            && s'.timeouts == s.timeouts + t && s'.requeues == s.requeues + (n - t)
            && OwedRecovered(s'.actors[l.a]) == n && OwedRecovered(s.actors[l.a]) == 0
            && OwedQueued(s'.actors[l.a]) == OwedQueued(s.actors[l.a])
            && OwedSuccess(s'.actors[l.a]) == OwedSuccess(s.actors[l.a])
            && OwedFailure(s'.actors[l.a]) == OwedFailure(s.actors[l.a])
  {
  }

  lemma RecoverBalanced(c: Config, s: State, l: Label)
    requires Balanced(s) && Enabled(c, s, l) && l.RecoverStale?
    ensures Balanced(PollStep(c, s, l))
  {
    RecoverTallies(s.jobs, s.actors[l.a].cutoff, Stamp(s, l.read), l.skipped);
    RecoverEntries(c, s, l);
    OwedChange(s, l.a, PollStep(c, s, l).actors[l.a]);
  }

  lemma ClaimBalanced(c: Config, s: State, l: Label)
    requires Balanced(s) && Enabled(c, s, l) && l.ClaimNext? && l.choice.Some?
    ensures Balanced(PollStep(c, s, l))
  {
    ClaimIsClaimable(c, s, l);
    BalanceKept(s, PollStep(c, s, l), l.a, l.choice.value);
  }

  lemma PollBalanced(c: Config, s: State, l: Label)
    requires Balanced(s) && Enabled(c, s, l)
    requires l.BeginPoll? || l.ReportRecovered? || (l.ClaimNext? && l.choice.None?)
    ensures Balanced(PollStep(c, s, l))
  {
    BalanceKeptQuietly(s, PollStep(c, s, l), l.a);
  }

  lemma SetRunningBalanced(c: Config, s: State, l: Label)
    requires Balanced(s) && Enabled(c, s, l) && l.SetRunning?
    ensures Balanced(StartStep(c, s, l))
  {
    BalanceKept(s, StartStep(c, s, l), l.a, s.actors[l.a].task.job);
  }

  lemma StartAccounts(c: Config, s: State, l: Label)
    requires Starts(l) && !l.SetRunning? && Enabled(c, s, l)
    ensures var s' := StartStep(c, s, l);
            && |s'.actors| == |s.actors| && s'.actors == s.actors[l.a := s'.actors[l.a]] && s'.jobs == s.jobs
            && EntriesBalance(s, s', l.a, 0, 0)
  {
  }

  lemma StartBalanced(c: Config, s: State, l: Label)
    requires Balanced(s) && Enabled(c, s, l) && Starts(l) && !l.SetRunning?
    ensures Balanced(StartStep(c, s, l))
  {
    StartAccounts(c, s, l);
    BalanceKeptQuietly(s, StartStep(c, s, l), l.a);
  }

  // The step writes job k, if any, moves actor a, and its entries account for what became of the job.
  ghost predicate Accounts(s: State, s': State, a: nat, k: nat)
    requires k < |s.jobs| && a < |s.actors|
  {
    && |s'.jobs| == |s.jobs| && |s'.actors| == |s.actors|
    && s'.actors == s.actors[a := s'.actors[a]] && s'.jobs == s.jobs[k := s'.jobs[k]]
    && EntriesBalance(s, s', a, IsSucceeded(s'.jobs[k]) - IsSucceeded(s.jobs[k]),
                      IsFailed(s'.jobs[k]) - IsFailed(s.jobs[k]))
  }

  lemma SucceedAccounts(c: Config, s: State, l: Label)
    requires l.SetSucceeded? && Enabled(c, s, l)
    ensures Accounts(s, SettleStep(c, s, l), l.a, s.actors[l.a].task.job)
  {
  }

  lemma StoreAccounts(c: Config, s: State, l: Label)
    requires (l.StoreResult? || l.StoreError?) && Enabled(c, s, l)
    ensures Accounts(s, SettleStep(c, s, l), l.a, s.actors[l.a].task.job)
  {
  }

  lemma FailAccounts(c: Config, s: State, l: Label)
    requires l.SetFailed? && Enabled(c, s, l)
    ensures Accounts(s, SettleStep(c, s, l), l.a, s.actors[l.a].task.job)
  {
  }

  lemma ReportAccounts(c: Config, s: State, l: Label)
    requires (l.ReportSucceeded? || l.ReportFailed? || l.Return?) && Enabled(c, s, l)
    ensures var s' := SettleStep(c, s, l);
            && |s'.actors| == |s.actors| && s'.actors == s.actors[l.a := s'.actors[l.a]] && s'.jobs == s.jobs
            && EntriesBalance(s, s', l.a, 0, 0)
  {
  }

  lemma SettleBalanced(c: Config, s: State, l: Label)
    requires Inv(c, s) && Balanced(s) && Enabled(c, s, l) && Settles(l)
    ensures Balanced(SettleStep(c, s, l))
  {
    if l.SetSucceeded? {
      SucceedAccounts(c, s, l);
      BalanceKept(s, SettleStep(c, s, l), l.a, s.actors[l.a].task.job);
    } else if l.SetFailed? {
      FailAccounts(c, s, l);
      BalanceKept(s, SettleStep(c, s, l), l.a, s.actors[l.a].task.job);
    } else if l.StoreResult? || l.StoreError? {
      StoreAccounts(c, s, l);
      BalanceKept(s, SettleStep(c, s, l), l.a, s.actors[l.a].task.job);
    } else {
      ReportAccounts(c, s, l);
      BalanceKeptQuietly(s, SettleStep(c, s, l), l.a);
    }
  }

  lemma StepBalanced(c: Config, s: State, l: Label)
    requires Inv(c, s) && Balanced(s) && Enabled(c, s, l)
    ensures Balanced(Apply(c, s, l))
  {
    if l.Crash? {
      OwedChange(s, l.a, Crashed(s.actors[l.a]));
    } else if Submits(l) {
      SubmitBalanced(c, s, l);
    } else if l.RecoverStale? {
      RecoverBalanced(c, s, l);
    } else if l.ClaimNext? && l.choice.Some? {
      ClaimBalanced(c, s, l);
    } else if Polls(l) {
      PollBalanced(c, s, l);
    } else if l.SetRunning? {
      SetRunningBalanced(c, s, l);
    } else if Starts(l) {
      StartBalanced(c, s, l);
    } else if Settles(l) {
      SettleBalanced(c, s, l);
    }
  }

  lemma {:induction false} RunBalanced(c: Config, states: seq<State>, labels: seq<Label>, i: nat)
    requires IsRun(c, states, labels) && i < |states|
    ensures Balanced(states[i])
  {
    if i == 0 {
      var s := states[0];
      TallyZero(s.actors, OwedQueued);
      TallyZero(s.actors, OwedSuccess);
      TallyZero(s.actors, OwedFailure);
      TallyZero(s.actors, OwedRecovered);
    } else {
      RunBalanced(c, states, labels, i - 1);
      RunInv(c, states, labels, i - 1);
      assert Step(c, states[i-1], labels[i-1], states[i]);
      StepBalanced(c, states[i-1], labels[i-1]);
    }
  }

  // When every actor is idle or its loop has ended, and none crashed, the counters are exact:
  // queued counts the jobs, succeeded the succeeded ones, failed the failed ones that recovery did
  // not time out, and recovered the requeues and time-outs.
  lemma CountersAreExactAtRest(c: Config, states: seq<State>, labels: seq<Label>, i: nat)
    requires IsRun(c, states, labels) && i < |states|
    requires forall a :: 0 <= a < |states[i].actors| ==> states[i].actors[a].Idle? || states[i].actors[a].Stopped?
    ensures var s := states[i];
            && s.counters.queued == |s.jobs|
            && s.counters.succeeded == Tally(s.jobs, IsSucceeded)
            && s.counters.failed + s.timeouts == Tally(s.jobs, IsFailed)
            && s.counters.recovered == s.requeues + s.timeouts
  {
    RunBalanced(c, states, labels, i);
    var s := states[i];
    TallyZero(s.actors, OwedQueued);
    TallyZero(s.actors, OwedSuccess);
    TallyZero(s.actors, OwedFailure);
    TallyZero(s.actors, OwedRecovered);
  }
}
