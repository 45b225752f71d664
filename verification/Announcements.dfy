// The audit events that are not terminal: one job_queued for every job submitted, and one job_running for every
// time a job was started.
module Announcements {
  import opened Prelude
  import opened Jobs
  import opened Protocol
  import opened Invariants
  import opened Successes

  function RunningEvent(k: nat): Audit -> int { (e: Audit) => if e == JobRunning(k) then 1 else 0 }

  function QueuedEvent(k: nat): Audit -> int { (e: Audit) => if e == JobQueued(k) then 1 else 0 }

  // The actor, live or crashed, has started job k and not yet said so.
  function Starting(k: nat): Pc -> int
  {
    (pc: Pc) => if At(pc).AnnounceRunning? && At(pc).task.job == k then 1 else 0
  }

  // The actor, live or crashed, has created job k and not yet said so.
  function Submitting(k: nat): Pc -> int
  {
    (pc: Pc) => if (At(pc).Enqueuing? || At(pc).AnnounceQueued?) && At(pc).job == k then 1 else 0
  }

  // A step of actor a: only its place changes, and at most one event is added.
  ghost predicate MovesOne(s: State, s': State, a: nat)
  {
    && a < |s.actors| == |s'.actors| && s'.actors == s.actors[a := s'.actors[a]]
    && (s'.audit == s.audit || (|s'.audit| == |s.audit| + 1 && s'.audit == s.audit + [s'.audit[|s.audit|]]))
  }

  ghost function Added(s: State, s': State, event: Audit -> int): int
  {
    if |s'.audit| == |s.audit| + 1 then event(s'.audit[|s.audit|]) else 0
  }

  ghost function Total(s: State, event: Audit -> int, place: Pc -> int): int
  {
    Tally(s.audit, event) + Tally(s.actors, place)
  }

  // What the places and events of the whole state gain is what the step's own actor and event gain.
  lemma TotalMoves(s: State, s': State, a: nat, event: Audit -> int, place: Pc -> int)
    requires MovesOne(s, s', a)
    ensures Total(s', event, place)
              == Total(s, event, place) + Added(s, s', event) + place(s'.actors[a]) - place(s.actors[a])
  {
    TallyUpdate(s.actors, a, s'.actors[a], place);
    if s'.audit != s.audit { TallyAppend(s.audit, s'.audit[|s.audit|], event); }
  }

  lemma SettlingMovesOne(c: Config, s: State, l: Label)
    requires Settles(l) && Enabled(c, s, l)
    ensures MovesOne(s, SettleStep(c, s, l), l.a)
  {
  }

  lemma StepMovesOne(c: Config, s: State, l: Label, s': State)
    requires Step(c, s, l, s') && !l.Tick?
    ensures MovesOne(s, s', l.a)
  {
    if Settles(l) { SettlingMovesOne(c, s, l); }
  }

  // ----- Starts -----

  // The step starts job k.
  ghost predicate StartsJob(s: State, s': State, k: nat)
  {
    k < |s.jobs| && k < |s'.jobs| && s.jobs[k].status == Queued && s'.jobs[k].status == Running
  }

  ghost predicate StartBalanced(s: State, s': State, a: nat, k: nat)
    requires MovesOne(s, s', a)
  {
    Added(s, s', RunningEvent(k)) + Starting(k)(s'.actors[a]) - Starting(k)(s.actors[a])
    == if StartsJob(s, s', k) then 1 else 0
  }

  lemma SettlingStartsNothing(c: Config, s: State, l: Label, s': State, k: nat)
    requires Settles(l) && Enabled(c, s, l) && s' == SettleStep(c, s, l) && MovesOne(s, s', l.a)
    requires ActorsOk(c, s)
    ensures StartBalanced(s, s', l.a, k)
  {
    assert ActorOk(c, s, l.a);
  }

  lemma PollingStarts(c: Config, s: State, l: Label, s': State, k: nat)
    requires Polls(l) && Enabled(c, s, l) && s' == PollStep(c, s, l) && MovesOne(s, s', l.a)
    ensures StartBalanced(s, s', l.a, k)
  {
    if l.ClaimNext? && l.choice.Some? { ClaimIsClaimable(c, s, l); }
  }

  lemma StartingStarts(c: Config, s: State, l: Label, s': State, k: nat)
    requires Starts(l) && Enabled(c, s, l) && s' == StartStep(c, s, l) && MovesOne(s, s', l.a)
    ensures StartBalanced(s, s', l.a, k)
  {
  }

  lemma OtherStartsNothing(c: Config, s: State, l: Label, s': State, k: nat)
    requires !Settles(l) && !Polls(l) && !Starts(l) && !l.Tick? && Enabled(c, s, l)
    requires s' == Apply(c, s, l) && MovesOne(s, s', l.a)
    ensures StartBalanced(s, s', l.a, k)
  {
  }

  lemma UnsettlingStartBalanced(c: Config, s: State, l: Label, s': State, k: nat)
    requires Step(c, s, l, s') && !Settles(l) && !l.Tick? && MovesOne(s, s', l.a)
    ensures StartBalanced(s, s', l.a, k)
  {
    if Polls(l) {
      PollingStarts(c, s, l, s', k);
    } else if Starts(l) {
      StartingStarts(c, s, l, s', k);
    } else {
      OtherStartsNothing(c, s, l, s', k);
    }
  }

  lemma StepStartBalanced(c: Config, s: State, l: Label, s': State, k: nat)
    requires ActorsOk(c, s) && Step(c, s, l, s') && !l.Tick? && MovesOne(s, s', l.a)
    ensures StartBalanced(s, s', l.a, k)
  {
    if Settles(l) {
      SettlingStartsNothing(c, s, l, s', k);
    } else {
      UnsettlingStartBalanced(c, s, l, s', k);
    }
  }

  // How often job k was started in the first i steps.
  ghost function StartsOf(states: seq<State>, i: nat, k: nat): nat
  {
    if i == 0 then 0 else StartsOf(states, i - 1, k) + (if StartsAt(states, i - 1, k) then 1 else 0)
  }

  lemma StartsAdd(c: Config, s: State, l: Label, s': State, k: nat)
    requires ActorsOk(c, s) && Step(c, s, l, s')
    ensures Total(s', RunningEvent(k), Starting(k))
              == Total(s, RunningEvent(k), Starting(k)) + (if StartsJob(s, s', k) then 1 else 0)
  {
    if !l.Tick? {
      StepMovesOne(c, s, l, s');
      StepStartBalanced(c, s, l, s', k);
      TotalMoves(s, s', l.a, RunningEvent(k), Starting(k));
    }
  }

  // Over every run, crashes included: the job_running events of a job, and the actors that have started it and are
  // still to say so, are together its starts, by a claim or by set_running.
  lemma {:induction false} RunningEventsCountStarts(
    c: Config, states: seq<State>, labels: seq<Label>, i: nat, k: nat)
    requires IsRun(c, states, labels) && i < |states|
    ensures Tally(states[i].audit, RunningEvent(k)) + Tally(states[i].actors, Starting(k)) == StartsOf(states, i, k)
  {
    if i == 0 {
      TallyZero(states[0].actors, Starting(k));
    } else {
      RunningEventsCountStarts(c, states, labels, i - 1, k);
      RunInv(c, states, labels, i - 1);
      assert Step(c, states[i-1], labels[i-1], states[i]);
      StartsAdd(c, states[i-1], labels[i-1], states[i], k);
    }
  }

  // ----- Submissions -----

  ghost predicate SubmissionBalanced(s: State, s': State, a: nat, k: nat)
    requires MovesOne(s, s', a)
  {
    Added(s, s', QueuedEvent(k)) + Submitting(k)(s'.actors[a]) - Submitting(k)(s.actors[a])
    == (if k < |s'.jobs| then 1 else 0) - (if k < |s.jobs| then 1 else 0)
  }

  lemma SettlingSubmitsNothing(c: Config, s: State, l: Label, k: nat)
    requires Settles(l) && Enabled(c, s, l) && MovesOne(s, SettleStep(c, s, l), l.a)
    ensures SubmissionBalanced(s, SettleStep(c, s, l), l.a, k)
  {
  }

  lemma OtherSubmits(c: Config, s: State, l: Label, k: nat)
    requires !Settles(l) && !l.Tick? && Enabled(c, s, l) && MovesOne(s, Apply(c, s, l), l.a)
    ensures SubmissionBalanced(s, Apply(c, s, l), l.a, k)
  {
  }

  lemma SubmissionsAdd(c: Config, s: State, l: Label, s': State, k: nat)
    requires Step(c, s, l, s')
    ensures Total(s', QueuedEvent(k), Submitting(k))
              == Total(s, QueuedEvent(k), Submitting(k))
                 + (if k < |s'.jobs| then 1 else 0) - (if k < |s.jobs| then 1 else 0)
  {
    if !l.Tick? {
      StepMovesOne(c, s, l, s');
      if Settles(l) { SettlingSubmitsNothing(c, s, l, k); } else { OtherSubmits(c, s, l, k); }
      TotalMoves(s, s', l.a, QueuedEvent(k), Submitting(k));
    }
  }

  // Over every run: a job has one job_queued event, unless its submitter is still to record it or has crashed before.
  lemma {:induction false} OneQueuedEventPerJob(c: Config, states: seq<State>, labels: seq<Label>, i: nat, k: nat)
    requires IsRun(c, states, labels) && i < |states|
    ensures Tally(states[i].audit, QueuedEvent(k)) + Tally(states[i].actors, Submitting(k))
              == if k < |states[i].jobs| then 1 else 0
  {
    if i == 0 {
      TallyZero(states[0].actors, Submitting(k));
    } else {
      OneQueuedEventPerJob(c, states, labels, i - 1, k);
      assert Step(c, states[i-1], labels[i-1], states[i]);
      SubmissionsAdd(c, states[i-1], labels[i-1], states[i], k);
    }
  }
}
