// What recovery and claims leave on a job: its error message while it has not failed, and its claim time.
module Successes {
  import opened Prelude
  import opened Jobs
  import opened Protocol
  import opened Invariants
  import opened Lifecycle
  import opened Timestamps
  import opened Events

  // ----- The message -----

  // The step is a recovery that puts job k back in the queue.
  ghost predicate Requeues(s: State, l: Label, k: nat)
  {
    && l.RecoverStale? && l.a < |s.actors| && s.actors[l.a].Sweep?
    && k < |s.jobs| && Stale(s.jobs[k], s.actors[l.a].cutoff) && k !in l.skipped && !Exhausted(s.jobs[k])
  }

  // What a step makes of the message of a job that has not failed.
  ghost predicate MessageMoves(s: State, l: Label, s': State, k: nat)
    requires k < |s.jobs|
  {
    && k < |s'.jobs|
    && (s'.jobs[k].status != Failed ==>
          s'.jobs[k].errorMessage == if Requeues(s, l, k) then Some(WORKER_STOPPED) else s.jobs[k].errorMessage)
  }

  lemma SettlingKeepsMessage(c: Config, s: State, l: Label, k: nat)
    requires ActorsOk(c, s) && Settles(l) && Enabled(c, s, l) && k < |s.jobs|
    ensures MessageMoves(s, l, SettleStep(c, s, l), k)
  {
    if l.StoreError? { assert ActorOk(c, s, l.a); }
  }

  lemma PollingMovesMessage(c: Config, s: State, l: Label, k: nat)
    requires Polls(l) && Enabled(c, s, l) && k < |s.jobs|
    ensures MessageMoves(s, l, PollStep(c, s, l), k)
  {
  }

  lemma StepMovesMessage(c: Config, s: State, l: Label, s': State, k: nat)
    requires ActorsOk(c, s) && Step(c, s, l, s') && k < |s.jobs|
    ensures MessageMoves(s, l, s', k)
  {
    if Settles(l) {
      SettlingKeepsMessage(c, s, l, k);
    } else if Polls(l) {
      PollingMovesMessage(c, s, l, k);
    }
  }

  ghost predicate RequeuedBefore(states: seq<State>, labels: seq<Label>, i: nat, k: nat)
    requires i <= |labels| && i <= |states|
  {
    exists m: nat :: m < i && Requeues(states[m], labels[m], k)
  }

  lemma RequeuedOneMore(states: seq<State>, labels: seq<Label>, i: nat, k: nat)
    requires i < |labels| && i < |states|
    ensures RequeuedBefore(states, labels, i + 1, k)
            <==> RequeuedBefore(states, labels, i, k) || Requeues(states[i], labels[i], k)
  {
  }

  // A job that is not there yet was not requeued; one that has not failed tells whether it was.
  ghost predicate MessageTells(states: seq<State>, labels: seq<Label>, i: nat, k: nat)
  {
    && i < |states| && i <= |labels|
    && (k >= |states[i].jobs| ==> !RequeuedBefore(states, labels, i, k))
    && (k < |states[i].jobs| && states[i].jobs[k].status != Failed ==>
          states[i].jobs[k].errorMessage
            == if RequeuedBefore(states, labels, i, k) then Some(WORKER_STOPPED) else None)
  }

  lemma MessageTellsNext(c: Config, states: seq<State>, labels: seq<Label>, i: nat, k: nat)
    requires IsRun(c, states, labels) && i < |labels| && MessageTells(states, labels, i, k)
    ensures MessageTells(states, labels, i + 1, k)
  {
    RunStep(c, states, labels, i);
    RequeuedOneMore(states, labels, i, k);
    if k < |states[i].jobs| {
      assert Evolves(states[i].jobs[k], states[i+1].jobs[k]);
      MessageMovesAt(c, states, labels, i, k);
    }
  }

  lemma MessageMovesAt(c: Config, states: seq<State>, labels: seq<Label>, i: nat, k: nat)
    requires IsRun(c, states, labels) && i < |labels| && k < |states[i].jobs|
    ensures MessageMoves(states[i], labels[i], states[i+1], k)
  {
    RunInv(c, states, labels, i);
    assert Step(c, states[i], labels[i], states[i+1]);
    StepMovesMessage(c, states[i], labels[i], states[i+1], k);
  }

  lemma {:induction false} RunMessageTells(c: Config, states: seq<State>, labels: seq<Label>, i: nat, k: nat)
    requires IsRun(c, states, labels) && i < |states|
    ensures MessageTells(states, labels, i, k)
  {
    if i > 0 {
      RunMessageTells(c, states, labels, i - 1, k);
      MessageTellsNext(c, states, labels, i - 1, k);
    }
  }

  // Over every run: a job that has not failed, a succeeded one included, carries the message of recovery if and
  // only if recovery has ever put it back in the queue, and otherwise none.
  lemma OpenMessageIff(c: Config, states: seq<State>, labels: seq<Label>, i: nat, k: nat)
    requires IsRun(c, states, labels) && i < |states| && k < |states[i].jobs| && states[i].jobs[k].status != Failed
    ensures states[i].jobs[k].errorMessage
              == if RequeuedBefore(states, labels, i, k) then Some(WORKER_STOPPED) else None
  {
    RunMessageTells(c, states, labels, i, k);
  }

  // ----- The claim time -----

  // Step m starts job k running.
  ghost predicate StartsAt(states: seq<State>, m: nat, k: nat)
  {
    && m + 1 < |states| && k < |states[m].jobs| && k < |states[m+1].jobs|
    && states[m].jobs[k].status == Queued && states[m+1].jobs[k].status == Running
  }

  // The last of the first i steps to do so.
  ghost function LastStart(states: seq<State>, i: nat, k: nat): (m: Option<nat>)
    ensures m.Some? ==> m.value < i && StartsAt(states, m.value, k)
  {
    if i == 0 then None else if StartsAt(states, i - 1, k) then Some(i - 1) else LastStart(states, i - 1, k)
  }

  // Step m fails job k.
  ghost predicate FailsAt(states: seq<State>, m: nat, k: nat)
  {
    && m + 1 < |states| && k < |states[m].jobs| && k < |states[m+1].jobs|
    && states[m].jobs[k].status != Failed && states[m+1].jobs[k].status == Failed
  }

  // The last of the first i steps to do so.
  ghost function LastFailure(states: seq<State>, i: nat, k: nat): (m: Option<nat>)
    ensures m.Some? ==> m.value < i && FailsAt(states, m.value, k)
  {
    if i == 0 then None else if FailsAt(states, i - 1, k) then Some(i - 1) else LastFailure(states, i - 1, k)
  }

  // What a step at the instant at makes of the claim time of a running or settled job.
  ghost predicate ClaimTimeMoves(c: Config, j: Job, l: Label, at: Time, j': Job)
  {
    && (j'.status == Running ==>
          if j.status == Queued then j'.claimedAt == if l.ClaimNext? then Some(at) else None
          else j.status == Running && j'.claimedAt == j.claimedAt)
    && (j'.status == Failed ==>
          j'.claimedAt == if j.status == Failed then j.claimedAt else LeftByFailure(c, l, j))
    && (j'.status == Succeeded ==>
          if j.status == Succeeded || c.backend == InMemory
          then (j.status == Running || j.status == Succeeded) && j'.claimedAt == j.claimedAt
          else j.status == Running && j'.claimedAt.None?)
  }

  // The claim time that a failing step leaves: none in Postgres or when recovery timed the job out, and otherwise
  // the one the job had.
  ghost function LeftByFailure(c: Config, l: Label, j: Job): Option<Time>
  {
    if c.backend.Postgres? || l.RecoverStale? then None else j.claimedAt
  }

  lemma SettlingMovesClaimTime(c: Config, s: State, l: Label, s': State, k: nat)
    requires ActorsOk(c, s) && Settles(l) && Enabled(c, s, l) && s' == SettleStep(c, s, l) && k < |s.jobs|
    ensures k < |s'.jobs|
    ensures ClaimTimeMoves(c, s.jobs[k], l, WriteTime(s, l), s'.jobs[k])
  {
    assert ActorOk(c, s, l.a);
  }

  lemma PollingMovesClaimTime(c: Config, s: State, l: Label, s': State, k: nat)
    requires Polls(l) && Enabled(c, s, l) && s' == PollStep(c, s, l) && k < |s.jobs| && WithinBudget(s.jobs[k])
    ensures k < |s'.jobs|
    ensures ClaimTimeMoves(c, s.jobs[k], l, WriteTime(s, l), s'.jobs[k])
  {
    if l.ClaimNext? && l.choice.Some? { ClaimIsClaimable(c, s, l); }
  }

  lemma StartingMovesClaimTime(c: Config, s: State, l: Label, s': State, k: nat)
    requires Starts(l) && Enabled(c, s, l) && s' == StartStep(c, s, l) && k < |s.jobs| && WithinBudget(s.jobs[k])
    ensures k < |s'.jobs|
    ensures ClaimTimeMoves(c, s.jobs[k], l, WriteTime(s, l), s'.jobs[k])
  {
  }

  lemma UnchangedKeepsClaimTime(c: Config, j: Job, l: Label, at: Time)
    requires j.status == Queued ==> j.claimedAt.None?
    ensures ClaimTimeMoves(c, j, l, at, j)
  {
  }

  lemma StepMovesClaimTime(c: Config, s: State, l: Label, s': State, k: nat)
    requires JobsOk(c, s) && ActorsOk(c, s) && Step(c, s, l, s') && k < |s.jobs|
    ensures k < |s'.jobs| && ClaimTimeMoves(c, s.jobs[k], l, WriteTime(s, l), s'.jobs[k])
  {
    assert WithinBudget(s.jobs[k]);
    if Settles(l) {
      SettlingMovesClaimTime(c, s, l, s', k);
    } else if Polls(l) {
      PollingMovesClaimTime(c, s, l, s', k);
    } else if Starts(l) {
      StartingMovesClaimTime(c, s, l, s', k);
    } else {
      OtherChangesNothing(c, s, l, k);
      UnchangedKeepsClaimTime(c, s.jobs[k], l, WriteTime(s, l));
    }
  }

  // The claim time a job has from its last start: the instant of the claim, or none if set_running started it.
  ghost function StartedAt(states: seq<State>, labels: seq<Label>, i: nat, k: nat): Option<Time>
    requires i <= |labels|
  {
    var m := LastStart(states, i, k);
    if m.Some? && labels[m.value].ClaimNext? then Some(WriteTime(states[m.value], labels[m.value])) else None
  }

  // And the one it has from its failure.
  ghost function FailedAt(c: Config, states: seq<State>, labels: seq<Label>, i: nat, k: nat): Option<Time>
    requires i <= |labels|
  {
    var m := LastFailure(states, i, k);
    if m.Some? then LeftByFailure(c, labels[m.value], states[m.value].jobs[k]) else None
  }

  ghost predicate ClaimTimeTells(c: Config, states: seq<State>, labels: seq<Label>, i: nat, k: nat)
  {
    && i < |states| && i <= |labels|
    && (k < |states[i].jobs| ==>
          var j := states[i].jobs[k];
          match j.status
          case Queued => j.claimedAt.None?
          case Running => LastStart(states, i, k).Some? && j.claimedAt == StartedAt(states, labels, i, k)
          case Succeeded =>
            if c.backend == InMemory
            then LastStart(states, i, k).Some? && j.claimedAt == StartedAt(states, labels, i, k)
            else j.claimedAt.None?
          case Failed => LastFailure(states, i, k).Some? && j.claimedAt == FailedAt(c, states, labels, i, k))
  }

  lemma ClaimTimeMovesAt(c: Config, states: seq<State>, labels: seq<Label>, i: nat, k: nat)
    requires IsRun(c, states, labels) && i < |labels| && k < |states[i].jobs|
    ensures k < |states[i+1].jobs|
    ensures ClaimTimeMoves(c, states[i].jobs[k], labels[i], WriteTime(states[i], labels[i]), states[i+1].jobs[k])
    ensures WithinBudget(states[i+1].jobs[k])
  {
    RunInv(c, states, labels, i);
    RunInv(c, states, labels, i + 1);
    assert Step(c, states[i], labels[i], states[i+1]);
    StepMovesClaimTime(c, states[i], labels[i], states[i+1], k);
  }

  lemma ClaimTimeTellsNext(c: Config, states: seq<State>, labels: seq<Label>, i: nat, k: nat)
    requires IsRun(c, states, labels) && i < |labels| && ClaimTimeTells(c, states, labels, i, k)
    ensures ClaimTimeTells(c, states, labels, i + 1, k)
  {
    RunStep(c, states, labels, i);
    if k < |states[i].jobs| { ClaimTimeMovesAt(c, states, labels, i, k); }
  }

  lemma {:induction false} RunClaimTimeTells(c: Config, states: seq<State>, labels: seq<Label>, i: nat, k: nat)
    requires IsRun(c, states, labels) && i < |states|
    ensures ClaimTimeTells(c, states, labels, i, k)
  {
    if i > 0 {
      RunClaimTimeTells(c, states, labels, i - 1, k);
      ClaimTimeTellsNext(c, states, labels, i - 1, k);
    }
  }

  // Over every run: a queued job has no claim time; a running one has the instant of its last start if that was a
  // claim, and none if it was set_running; a succeeded one has in memory what it had running, and in Postgres none.
  lemma ClaimTimeIff(c: Config, states: seq<State>, labels: seq<Label>, i: nat, k: nat)
    requires IsRun(c, states, labels) && i < |states| && k < |states[i].jobs|
    ensures var j := states[i].jobs[k];
            && (j.status == Queued ==> j.claimedAt.None?)
            && (j.status == Running || (j.status == Succeeded && c.backend == InMemory) ==>
                  LastStart(states, i, k).Some? && j.claimedAt == StartedAt(states, labels, i, k))
            && (j.status == Succeeded && c.backend.Postgres? ==> j.claimedAt.None?)
  {
    RunClaimTimeTells(c, states, labels, i, k);
  }

  // A job fails once: the step that recovery timed it out with is its last failure.
  lemma FailsOnce(c: Config, states: seq<State>, labels: seq<Label>, i: nat, m: nat, k: nat)
    requires IsRun(c, states, labels) && m < i < |states| && FailsAt(states, m, k)
    ensures LastFailure(states, i, k) == Some(m)
  {
    FailureIsLast(states, i, m, k);
    SameFailure(c, states, labels, m, LastFailure(states, i, k).value, k);
  }

  lemma SameFailure(c: Config, states: seq<State>, labels: seq<Label>, m: nat, n: nat, k: nat)
    requires IsRun(c, states, labels) && FailsAt(states, m, k) && FailsAt(states, n, k)
    ensures m == n
  {
    if m < n { LaterFailure(c, states, labels, m, n, k); }
    if n < m { LaterFailure(c, states, labels, n, m, k); }
  }

  lemma LaterFailure(c: Config, states: seq<State>, labels: seq<Label>, m: nat, n: nat, k: nat)
    requires IsRun(c, states, labels) && m < n && FailsAt(states, m, k)
    ensures !FailsAt(states, n, k)
  {
    if n < |states| { JobsEndure(c, states, labels, m + 1, n, k); }
  }

  lemma {:induction false} FailureIsLast(states: seq<State>, i: nat, m: nat, k: nat)
    requires m < i < |states| && FailsAt(states, m, k)
    ensures LastFailure(states, i, k).Some?
  {
    if i > m + 1 { FailureIsLast(states, i - 1, m, k); }
  }

  // A failing step is a time-out exactly if it is one of recovery.
  lemma FailingStep(c: Config, s: State, l: Label, s': State, k: nat)
    requires Step(c, s, l, s') && k < |s.jobs| && k < |s'.jobs|
    requires s.jobs[k].status != Failed && s'.jobs[k].status == Failed
    ensures l.RecoverStale? <==> TimesOut(s, l, k)
  {
  }

  lemma TimedOutFailure(c: Config, states: seq<State>, labels: seq<Label>, i: nat, k: nat)
    requires IsRun(c, states, labels) && i < |states| && k < |states[i].jobs| && states[i].jobs[k].status == Failed
    requires LastFailure(states, i, k).Some?
    ensures labels[LastFailure(states, i, k).value].RecoverStale? <==> TimedOut(states[i].jobs[k])
  {
    var m := LastFailure(states, i, k).value;
    TimedOutIff(c, states, labels, i, k);
    FailingStepAt(c, states, labels, m, k);
    if TimedOut(states[i].jobs[k]) {
      var n: nat :| n < i && TimesOut(states[n], labels[n], k);
      TimingOutFailsAt(c, states, labels, n, k);
      FailsOnce(c, states, labels, i, n, k);
    }
  }

  lemma FailingStepAt(c: Config, states: seq<State>, labels: seq<Label>, m: nat, k: nat)
    requires IsRun(c, states, labels) && FailsAt(states, m, k)
    ensures labels[m].RecoverStale? <==> TimesOut(states[m], labels[m], k)
  {
    assert Step(c, states[m], labels[m], states[m+1]);
    FailingStep(c, states[m], labels[m], states[m+1], k);
  }

  lemma TimingOutFailsAt(c: Config, states: seq<State>, labels: seq<Label>, n: nat, k: nat)
    requires IsRun(c, states, labels) && n < |labels| && TimesOut(states[n], labels[n], k)
    ensures FailsAt(states, n, k)
  {
    assert Step(c, states[n], labels[n], states[n+1]);
    TimingOutFails(c, states[n], labels[n], k);
  }

  // Over every run: a failed job has no claim time in Postgres, nor if recovery timed it out, as its message
  // tells; in memory one failed by a handler keeps the claim time it had when it failed.
  lemma FailedClaimTime(c: Config, states: seq<State>, labels: seq<Label>, i: nat, k: nat)
    requires IsRun(c, states, labels) && i < |states| && k < |states[i].jobs| && states[i].jobs[k].status == Failed
    ensures var j, m := states[i].jobs[k], LastFailure(states, i, k);
            && m.Some?
            && (labels[m.value].RecoverStale? <==> TimedOut(j))
            && (c.backend.Postgres? || TimedOut(j) ==> j.claimedAt.None?)
            && (c.backend == InMemory && !TimedOut(j) ==> j.claimedAt == states[m.value].jobs[k].claimedAt)
  {
    RunClaimTimeTells(c, states, labels, i, k);
    TimedOutFailure(c, states, labels, i, k);
  }
}
