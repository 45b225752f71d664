// When a job was last written: updated_at is the instant of the last write, whoever made it.
module Timestamps {
  import opened Prelude
  import opened Jobs
  import opened Protocol
  import opened Invariants
  import opened Lifecycle

  // The instant of what a step writes: the clock reading of its transaction, if it was made earlier.
  function WriteTime(s: State, l: Label): Time
  {
    if (l.RecoverStale? || l.ClaimNext? || l.SetRunning? || l.SetSucceeded? || l.SetFailed?) && l.read.Some?
    then l.read.value else s.now
  }

  // A job that changes has the instant of the write as its time stamp.
  ghost predicate Stamped(j: Job, j': Job, at: Time)
  {
    j' != j ==> j'.updatedAt == at
  }

  lemma SettlingStamps(c: Config, s: State, l: Label, k: nat)
    requires Settles(l) && Enabled(c, s, l) && k < |s.jobs|
    ensures k < |SettleStep(c, s, l).jobs| && Stamped(s.jobs[k], SettleStep(c, s, l).jobs[k], WriteTime(s, l))
  {
  }

  lemma PollingStamps(c: Config, s: State, l: Label, k: nat)
    requires Polls(l) && Enabled(c, s, l) && k < |s.jobs|
    ensures k < |PollStep(c, s, l).jobs| && Stamped(s.jobs[k], PollStep(c, s, l).jobs[k], WriteTime(s, l))
  {
  }

  lemma StartingStamps(c: Config, s: State, l: Label, k: nat)
    requires Starts(l) && Enabled(c, s, l) && k < |s.jobs|
    ensures k < |StartStep(c, s, l).jobs| && Stamped(s.jobs[k], StartStep(c, s, l).jobs[k], WriteTime(s, l))
  {
  }

  lemma OtherChangesNothing(c: Config, s: State, l: Label, k: nat)
    requires !Settles(l) && !Polls(l) && !Starts(l) && Enabled(c, s, l) && k < |s.jobs|
    ensures k < |Apply(c, s, l).jobs| && Apply(c, s, l).jobs[k] == s.jobs[k]
  {
  }

  // Every step of every actor stamps the jobs it changes.
  lemma ChangeIsStamped(c: Config, s: State, l: Label, s': State, k: nat)
    requires Step(c, s, l, s') && k < |s.jobs|
    ensures k < |s'.jobs| && (s'.jobs[k] != s.jobs[k] ==> s'.jobs[k].updatedAt == WriteTime(s, l))
  {
    if Settles(l) {
      SettlingStamps(c, s, l, k);
    } else if Polls(l) {
      PollingStamps(c, s, l, k);
    } else if Starts(l) {
      StartingStamps(c, s, l, k);
    } else {
      OtherChangesNothing(c, s, l, k);
    }
  }

  // Step m creates or changes job k.
  ghost predicate WritesAt(states: seq<State>, m: nat, k: nat)
  {
    && m + 1 < |states| && k < |states[m+1].jobs|
    && (k < |states[m].jobs| ==> states[m+1].jobs[k] != states[m].jobs[k])
  }

  // The last of the first i steps to do so.
  ghost function LastWrite(states: seq<State>, i: nat, k: nat): (m: Option<nat>)
    ensures m.Some? ==> m.value < i && WritesAt(states, m.value, k)
    ensures m.Some? ==> forall n: nat :: m.value < n < i ==> !WritesAt(states, n, k)
  {
    if i == 0 then None else if WritesAt(states, i - 1, k) then Some(i - 1) else LastWrite(states, i - 1, k)
  }

  ghost predicate StampTells(states: seq<State>, labels: seq<Label>, i: nat, k: nat)
  {
    && i < |states| && i <= |labels|
    && (k < |states[i].jobs| ==>
          var m := LastWrite(states, i, k);
          m.Some? && states[i].jobs[k].updatedAt == WriteTime(states[m.value], labels[m.value]))
  }

  lemma StampTellsNext(c: Config, states: seq<State>, labels: seq<Label>, i: nat, k: nat)
    requires IsRun(c, states, labels) && i < |labels| && StampTells(states, labels, i, k)
    ensures StampTells(states, labels, i + 1, k)
  {
    assert Step(c, states[i], labels[i], states[i+1]);
    if k < |states[i].jobs| {
      ChangeIsStamped(c, states[i], labels[i], states[i+1], k);
    } else if k < |states[i+1].jobs| {
      NewJobIsStamped(c, states[i], labels[i], states[i+1], k);
    }
  }

  lemma NewJobIsStamped(c: Config, s: State, l: Label, s': State, k: nat)
    requires Step(c, s, l, s') && |s.jobs| <= k < |s'.jobs|
    ensures s'.jobs[k].updatedAt == s'.jobs[k].createdAt == s.now == WriteTime(s, l)
  {
    OneNewJob(c, s, l);
  }

  // Over every run the time stamp of a job is the instant of its last write.
  lemma {:induction false} UpdatedAtIsTheLastWrite(
    c: Config, states: seq<State>, labels: seq<Label>, i: nat, k: nat)
    requires IsRun(c, states, labels) && i < |states|
    ensures StampTells(states, labels, i, k)
  {
    if i > 0 {
      UpdatedAtIsTheLastWrite(c, states, labels, i - 1, k);
      StampTellsNext(c, states, labels, i - 1, k);
    }
  }

  // ----- Order -----

  ghost predicate InTime(s: State)
  {
    forall k :: 0 <= k < |s.jobs| ==> s.jobs[k].createdAt <= s.jobs[k].updatedAt <= s.now
  }

  lemma StepStaysInTime(c: Config, s: State, l: Label, s': State)
    requires Inv(c, s) && Step(c, s, l, s') && InTime(s) && WriteTime(s, l) == s.now
    ensures InTime(s') && s.now <= s'.now
  {
    ClockNeverGoesBack(c, s, l);
    StepEvolves(c, s, l);
    forall k | 0 <= k < |s'.jobs| ensures s'.jobs[k].createdAt <= s'.jobs[k].updatedAt <= s'.now {
      if k < |s.jobs| {
        ChangeIsStamped(c, s, l, s', k);
        assert Evolves(s.jobs[k], s'.jobs[k]);
      } else {
        NewJobIsStamped(c, s, l, s', k);
      }
    }
  }

  lemma ClockNeverGoesBack(c: Config, s: State, l: Label)
    requires Enabled(c, s, l)
    ensures s.now <= Apply(c, s, l).now
  {
    if Settles(l) { SettlingKeepsClock(c, s, l); }
  }

  lemma SettlingKeepsClock(c: Config, s: State, l: Label)
    requires Settles(l) && Enabled(c, s, l)
    ensures SettleStep(c, s, l).now == s.now
  {
  }

  // Where no transaction has read the clock before its write took effect, in memory for one, a job is created
  // before it is updated, and neither lies in the future.
  lemma {:induction false} StampsAreInTime(c: Config, states: seq<State>, labels: seq<Label>, i: nat)
    requires IsRun(c, states, labels) && i < |states|
    requires forall m: nat :: m < i ==> WriteTime(states[m], labels[m]) == states[m].now
    ensures InTime(states[i])
  {
    if i > 0 {
      StampsAreInTime(c, states, labels, i - 1);
      RunInv(c, states, labels, i - 1);
      assert Step(c, states[i-1], labels[i-1], states[i]);
      StepStaysInTime(c, states[i-1], labels[i-1], states[i]);
    }
  }
}
