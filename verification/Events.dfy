// Audit events against counters and jobs: the counters count the events, and every settled job has its one
// terminal event, unless recovery timed it out.
module Events {
  import opened Prelude
  import opened Jobs
  import opened Protocol
  import opened Invariants
  import opened Conservation
  import opened Failures

  // ----- Counters count events -----

  function QueuedEvent(e: Audit): int { if e.JobQueued? then 1 else 0 }
  function SucceededEvent(e: Audit): int { if e.JobSucceeded? then 1 else 0 }
  function FailedEvent(e: Audit): int { if e.JobFailed? then 1 else 0 }

  ghost predicate CountersMatch(s: State)
  {
    && s.counters.queued == Tally(s.audit, QueuedEvent)
    && s.counters.succeeded == Tally(s.audit, SucceededEvent)
    && s.counters.failed == Tally(s.audit, FailedEvent)
  }

  // Nothing is recorded, or one event and the counter that goes with it.
  ghost predicate Records(s: State, s': State)
  {
    var n := |s.audit|;
    || (s'.audit == s.audit && s'.counters.queued == s.counters.queued
        && s'.counters.succeeded == s.counters.succeeded && s'.counters.failed == s.counters.failed)
    || (|s'.audit| == n + 1 && s'.audit == s.audit + [s'.audit[n]]
        && s'.counters.queued == s.counters.queued + QueuedEvent(s'.audit[n])
        && s'.counters.succeeded == s.counters.succeeded + SucceededEvent(s'.audit[n])
        && s'.counters.failed == s.counters.failed + FailedEvent(s'.audit[n]))
  }

  lemma SettlingRecords(c: Config, s: State, l: Label)
    requires Settles(l) && Enabled(c, s, l)
    ensures Records(s, SettleStep(c, s, l))
  {
  }

  lemma StepRecords(c: Config, s: State, l: Label, s': State)
    requires Step(c, s, l, s')
    ensures Records(s, s')
  {
    if Settles(l) { SettlingRecords(c, s, l); }
  }

  lemma RecordsMatch(s: State, s': State)
    requires CountersMatch(s) && Records(s, s')
    ensures CountersMatch(s')
  {
    if s'.audit != s.audit {
      var e := s'.audit[|s.audit|];
      TallyAppend(s.audit, e, QueuedEvent);
      TallyAppend(s.audit, e, SucceededEvent);
      TallyAppend(s.audit, e, FailedEvent);
    }
  }

  // In every state of every run, crashes or not, the queued, succeeded and failed counters are the numbers of
  // the events of their kinds.
  lemma {:induction false} CountersCountEvents(c: Config, states: seq<State>, labels: seq<Label>, i: nat)
    requires IsRun(c, states, labels) && i < |states|
    ensures CountersMatch(states[i])
  {
    if i > 0 {
      CountersCountEvents(c, states, labels, i - 1);
      assert Step(c, states[i-1], labels[i-1], states[i]);
      StepRecords(c, states[i-1], labels[i-1], states[i]);
      RecordsMatch(states[i-1], states[i]);
    }
  }

  // ----- Settled jobs and their events -----

  predicate TimedOut(j: Job) { j.errorMessage == Some(TIMED_OUT) }

  ghost predicate IsEventOf(audit: seq<Audit>, p: nat, k: nat)
  {
    p < |audit| && TerminalEvent(audit[p]) && audit[p].job == k
  }

  ghost predicate Reported(s: State, k: nat) { exists p: nat :: IsEventOf(s.audit, p, k) }

  ghost predicate OwnedBySome(s: State, k: nat) { exists a: nat :: a < |s.actors| && Owns(s, a, k) }

  // A settled job was timed out, or is still to be reported by its owner, or was reported; and one that was
  // timed out has neither owner nor event.
  ghost predicate SettledOk(s: State, k: nat)
    requires k < |s.jobs|
  {
    && (s.jobs[k].status.Terminal() ==> TimedOut(s.jobs[k]) || OwnedBySome(s, k) || Reported(s, k))
    && (TimedOut(s.jobs[k]) ==> s.jobs[k].status == Failed && !OwnedBySome(s, k) && !Reported(s, k))
  }

  ghost predicate AllSettledOk(s: State) { forall k: nat :: k < |s.jobs| ==> SettledOk(s, k) }

  // The step is a recovery that finds job k stale and out of attempts.
  ghost predicate TimesOut(s: State, l: Label, k: nat)
  {
    && l.RecoverStale? && l.a < |s.actors| && s.actors[l.a].Sweep?
    && k < |s.jobs| && Stale(s.jobs[k], s.actors[l.a].cutoff) && k !in l.skipped && Exhausted(s.jobs[k])
  }

  lemma SettlingTimesNothingOut(c: Config, s: State, l: Label, k: nat)
    requires ActorsOk(c, s) && Settles(l) && Enabled(c, s, l) && k < |s.jobs|
    requires TimedOut(s.jobs[k]) ==> s.jobs[k].status == Failed && !OwnedBySome(s, k)
    ensures k < |SettleStep(c, s, l).jobs| && (TimedOut(SettleStep(c, s, l).jobs[k]) <==> TimedOut(s.jobs[k]))
  {
    MessagesDiffer();
    assert ActorOk(c, s, l.a);
    if l.StoreError? { assert Owns(s, l.a, s.actors[l.a].task.job); }
  }

  lemma PollingTimesOut(c: Config, s: State, l: Label, k: nat)
    requires Polls(l) && Enabled(c, s, l) && k < |s.jobs| && (TimedOut(s.jobs[k]) ==> s.jobs[k].status == Failed)
    ensures k < |PollStep(c, s, l).jobs|
    ensures TimedOut(PollStep(c, s, l).jobs[k]) <==> TimedOut(s.jobs[k]) || TimesOut(s, l, k)
  {
    MessagesDiffer();
    if l.ClaimNext? && l.choice.Some? { ClaimIsClaimable(c, s, l); }
  }

  lemma OtherTimesNothingOut(c: Config, s: State, l: Label, k: nat)
    requires !Polls(l) && !Settles(l) && Enabled(c, s, l) && k < |s.jobs|
    ensures k < |Apply(c, s, l).jobs| && Apply(c, s, l).jobs[k].errorMessage == s.jobs[k].errorMessage
  {
  }

  // A step times a job out if and only if it is a recovery that finds the job stale and out of attempts.
  lemma StepTimesOutIff(c: Config, s: State, l: Label, k: nat)
    requires ActorsOk(c, s) && Enabled(c, s, l) && k < |s.jobs| && SettledOk(s, k)
    ensures k < |Apply(c, s, l).jobs|
    ensures TimedOut(Apply(c, s, l).jobs[k]) <==> TimedOut(s.jobs[k]) || TimesOut(s, l, k)
  {
    if Settles(l) {
      SettlingTimesNothingOut(c, s, l, k);
    } else if Polls(l) {
      PollingTimesOut(c, s, l, k);
    } else {
      OtherTimesNothingOut(c, s, l, k);
    }
  }

  // An owner owns on, or reports.
  lemma OwnerReports(c: Config, s: State, l: Label, k: nat)
    requires Settles(l) && Enabled(c, s, l) && Owns(s, l.a, k)
    ensures var s' := SettleStep(c, s, l);
            && |s'.actors| == |s.actors| && |s.audit| <= |s'.audit| && s'.audit[..|s.audit|] == s.audit
            && (Owns(s', l.a, k) || IsEventOf(s'.audit, |s.audit|, k))
  {
  }

  lemma OwnerStays(c: Config, s: State, l: Label, k: nat)
    requires Enabled(c, s, l) && OwnedBySome(s, k)
    ensures OwnedBySome(Apply(c, s, l), k) || Reported(Apply(c, s, l), k)
  {
    var a: nat :| a < |s.actors| && Owns(s, a, k);
    OtherActorsStay(c, s, l);
    if Settles(l) {
      if l.a == a { OwnerReports(c, s, l, k); } else { assert Owns(Apply(c, s, l), a, k); }
    } else {
      NonSettlingKeepsOwners(c, s, l);
      assert Owns(Apply(c, s, l), a, k);
    }
  }

  lemma ReportLasts(c: Config, s: State, l: Label, k: nat)
    requires Enabled(c, s, l) && Reported(s, k)
    ensures Reported(Apply(c, s, l), k)
  {
    var p: nat :| IsEventOf(s.audit, p, k);
    StepAudit(c, s, l);
    assert Apply(c, s, l).audit[..|s.audit|] == s.audit;
    assert IsEventOf(Apply(c, s, l).audit, p, k);
  }

  // Whoever settles a job owns it.
  lemma SettlerOwns(c: Config, s: State, l: Label, k: nat)
    requires ActorsOk(c, s) && Settles(l) && Enabled(c, s, l) && k < |s.jobs| && !s.jobs[k].status.Terminal()
    ensures var s' := SettleStep(c, s, l);
            && k < |s'.jobs| && |s'.actors| == |s.actors|
            && (s'.jobs[k].status.Terminal() ==> Owns(s', l.a, k))
  {
    assert ActorOk(c, s, l.a);
  }

  lemma RecoverySettlesByTimeOut(c: Config, s: State, l: Label, k: nat)
    requires Polls(l) && Enabled(c, s, l) && k < |s.jobs| && !s.jobs[k].status.Terminal()
    ensures var s' := PollStep(c, s, l);
            k < |s'.jobs| && (s'.jobs[k].status.Terminal() ==> TimesOut(s, l, k))
  {
    if l.ClaimNext? && l.choice.Some? { ClaimIsClaimable(c, s, l); }
  }

  lemma StartingSettlesNothing(c: Config, s: State, l: Label, k: nat)
    requires !Polls(l) && !Settles(l) && Enabled(c, s, l) && k < |s.jobs| && !s.jobs[k].status.Terminal()
    ensures k < |Apply(c, s, l).jobs| && !Apply(c, s, l).jobs[k].status.Terminal()
  {
  }

  lemma NewlySettled(c: Config, s: State, l: Label, k: nat)
    requires ActorsOk(c, s) && Enabled(c, s, l) && k < |s.jobs| && !s.jobs[k].status.Terminal() && SettledOk(s, k)
    requires k < |Apply(c, s, l).jobs| && Apply(c, s, l).jobs[k].status.Terminal()
    ensures TimedOut(Apply(c, s, l).jobs[k]) || OwnedBySome(Apply(c, s, l), k)
  {
    if Settles(l) {
      SettlerOwns(c, s, l, k);
    } else if Polls(l) {
      RecoverySettlesByTimeOut(c, s, l, k);
      StepTimesOutIff(c, s, l, k);
    } else {
      StartingSettlesNothing(c, s, l, k);
    }
  }

  lemma SettledIsAccounted(c: Config, s: State, l: Label, k: nat)
    requires ActorsOk(c, s) && Enabled(c, s, l) && k < |s.jobs| && SettledOk(s, k)
    ensures k < |Apply(c, s, l).jobs|
    ensures Apply(c, s, l).jobs[k].status.Terminal() ==>
              || TimedOut(Apply(c, s, l).jobs[k])
              || OwnedBySome(Apply(c, s, l), k) || Reported(Apply(c, s, l), k)
  {
    StepTimesOutIff(c, s, l, k);
    if s.jobs[k].status.Terminal() {
      if OwnedBySome(s, k) { OwnerStays(c, s, l, k); }
      if Reported(s, k) { ReportLasts(c, s, l, k); }
    } else if Apply(c, s, l).jobs[k].status.Terminal() {
      NewlySettled(c, s, l, k);
    }
  }

  // A job without owner gets no event.
  lemma UnownedIsNotReported(c: Config, s: State, l: Label, k: nat)
    requires Inv(c, s) && Enabled(c, s, l) && !OwnedBySome(s, k) && !Reported(s, k)
    ensures !Reported(Apply(c, s, l), k)
  {
    var s' := Apply(c, s, l);
    StepAudit(c, s, l);
    if l.ReportSucceeded? || l.ReportFailed? {
      ReportedEventOk(c, s, l);
      assert s'.audit[|s.audit|].job != k;
    }
    forall p: nat ensures !IsEventOf(s'.audit, p, k) {
      if p < |s.audit| {
        assert !IsEventOf(s.audit, p, k);
        assert s'.audit[..|s.audit|] == s.audit;
      }
    }
  }

  lemma TimedOutStaysAlone(c: Config, s: State, l: Label, k: nat)
    requires Inv(c, s) && Enabled(c, s, l) && k < |s.jobs| && SettledOk(s, k) && TimedOut(s.jobs[k])
    ensures !OwnedBySome(Apply(c, s, l), k) && !Reported(Apply(c, s, l), k)
  {
    NobodyTakesOver(c, s, l, k);
    UnownedIsNotReported(c, s, l, k);
  }

  lemma TimingOutIsAlone(c: Config, s: State, l: Label, k: nat)
    requires Inv(c, s) && AuditOk(s) && Enabled(c, s, l) && TimesOut(s, l, k)
    ensures !OwnedBySome(Apply(c, s, l), k) && !Reported(Apply(c, s, l), k)
  {
    NonSettlingKeepsOwners(c, s, l);
    forall a: nat | a < |s.actors| ensures !Owns(s, a, k) {
      if Owns(s, a, k) { OwnedIsTerminal(c, s, a, k); }
    }
    forall p: nat | p < |s.audit| ensures !IsEventOf(s.audit, p, k) { assert EventOk(s, s.audit[p]); }
    assert PollStep(c, s, l).audit == s.audit;
  }

  lemma StepSettledOk(c: Config, s: State, l: Label, k: nat)
    requires Inv(c, s) && AuditOk(s) && Enabled(c, s, l) && k < |s.jobs| && SettledOk(s, k)
    ensures k < |Apply(c, s, l).jobs| && SettledOk(Apply(c, s, l), k)
  {
    SettledIsAccounted(c, s, l, k);
    StepTimesOutIff(c, s, l, k);
    StepEvolves(c, s, l);
    assert Evolves(s.jobs[k], Apply(c, s, l).jobs[k]);
    if TimedOut(s.jobs[k]) {
      TimedOutStaysAlone(c, s, l, k);
    } else if TimesOut(s, l, k) {
      TimingOutIsAlone(c, s, l, k);
      TimingOutFails(c, s, l, k);
    }
  }

  lemma TimingOutFails(c: Config, s: State, l: Label, k: nat)
    requires Enabled(c, s, l) && TimesOut(s, l, k)
    ensures k < |PollStep(c, s, l).jobs| && PollStep(c, s, l).jobs[k].status == Failed
  {
  }

  lemma StepAllSettledOk(c: Config, s: State, l: Label, s': State)
    requires Inv(c, s) && AuditOk(s) && AllSettledOk(s) && Step(c, s, l, s')
    ensures AllSettledOk(s')
  {
    StepEvolves(c, s, l);
    forall k: nat | k < |s'.jobs| ensures SettledOk(s', k) {
      if k < |s.jobs| { StepSettledOk(c, s, l, k); }
    }
  }

  lemma {:induction false} RunSettledOk(c: Config, states: seq<State>, labels: seq<Label>, i: nat)
    requires IsRun(c, states, labels) && i < |states|
    ensures AllSettledOk(states[i])
  {
    if i > 0 {
      RunSettledOk(c, states, labels, i - 1);
      RunInv(c, states, labels, i - 1);
      RunAuditOk(c, states, labels, i - 1);
      assert Step(c, states[i-1], labels[i-1], states[i]);
      StepAllSettledOk(c, states[i-1], labels[i-1], states[i]);
    }
  }

  // ----- Runs -----

  ghost predicate TimedOutBefore(states: seq<State>, labels: seq<Label>, i: nat, k: nat)
    requires i <= |labels| && i <= |states|
  {
    exists m: nat :: m < i && TimesOut(states[m], labels[m], k)
  }

  lemma TimedOutOneMore(states: seq<State>, labels: seq<Label>, i: nat, k: nat)
    requires i < |labels| && i < |states|
    ensures TimedOutBefore(states, labels, i + 1, k)
            <==> TimedOutBefore(states, labels, i, k) || TimesOut(states[i], labels[i], k)
  {
  }

  lemma TimesOutAtIff(c: Config, states: seq<State>, labels: seq<Label>, i: nat, k: nat)
    requires IsRun(c, states, labels) && i < |labels|
    ensures |states[i].jobs| <= |states[i+1].jobs|
    ensures k < |states[i].jobs| ==>
              (TimedOut(states[i+1].jobs[k]) <==> TimedOut(states[i].jobs[k]) || TimesOut(states[i], labels[i], k))
    ensures |states[i].jobs| <= k < |states[i+1].jobs| ==> !TimedOut(states[i+1].jobs[k])
  {
    RunInv(c, states, labels, i);
    RunSettledOk(c, states, labels, i);
    assert Step(c, states[i], labels[i], states[i+1]);
    StepEvolves(c, states[i], labels[i]);
    if k < |states[i].jobs| { StepTimesOutIff(c, states[i], labels[i], k); }
  }

  // The time-out message tells of a time-out, and of nothing else.
  lemma {:induction false} TimedOutIff(c: Config, states: seq<State>, labels: seq<Label>, i: nat, k: nat)
    requires IsRun(c, states, labels) && i < |states|
    ensures TimedOutBefore(states, labels, i, k) <==> k < |states[i].jobs| && TimedOut(states[i].jobs[k])
  {
    if i > 0 {
      TimedOutIff(c, states, labels, i - 1, k);
      TimedOutOneMore(states, labels, i - 1, k);
      TimesOutAtIff(c, states, labels, i - 1, k);
    }
  }

  // With everyone idle or stopped and none crashed, every job has one terminal event if it is settled and
  // recovery has not timed it out, and none otherwise.
  lemma OneEventPerSettledJob(c: Config, states: seq<State>, labels: seq<Label>, i: nat, k: nat)
    requires IsRun(c, states, labels) && i < |states| && k < |states[i].jobs|
    requires forall a :: 0 <= a < |states[i].actors| ==> states[i].actors[a].Idle? || states[i].actors[a].Stopped?
    ensures Reported(states[i], k)
            <==> states[i].jobs[k].status.Terminal() && !TimedOutBefore(states, labels, i, k)
    ensures forall p: nat, q: nat :: IsEventOf(states[i].audit, p, k) && IsEventOf(states[i].audit, q, k) ==> p == q
    ensures TimedOutBefore(states, labels, i, k) ==> states[i].jobs[k].status == Failed
  {
    RunSettledOk(c, states, labels, i);
    RunAuditOk(c, states, labels, i);
    TimedOutIff(c, states, labels, i, k);
    assert SettledOk(states[i], k);
    assert !OwnedBySome(states[i], k);
    if Reported(states[i], k) {
      var p: nat :| IsEventOf(states[i].audit, p, k);
      assert EventOk(states[i], states[i].audit[p]);
    }
  }
}
