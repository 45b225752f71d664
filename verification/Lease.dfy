// A claim is a lease: while every live polling worker is done with its job within stale_job_seconds of
// claiming it, no job is worked on twice at once and no success is rejected.
module Lease {
  import opened Prelude
  import opened Jobs
  import opened Store
  import opened Protocol
  import opened Invariants

  // Split mode: polling workers only. Nothing calls process, so every running job was claimed.
  predicate SplitLabel(l: Label) { !l.Call? && !l.Take? }

  // No live worker is still at work when more than stale_job_seconds have passed since its claim.
  ghost predicate Timely(c: Config, s: State)
  {
    forall a :: 0 <= a < |s.actors| && Working(s.actors[a]) && s.actors[a].task.leasedAt.Some? ==>
      s.now <= s.actors[a].task.leasedAt.value + c.staleAfter
  }

  // The worker still holds the claim it was given.
  ghost predicate HoldsLease(jobs: seq<Job>, t: Task)
  {
    && t.job < |jobs| && t.leasedAt.Some?
    && jobs[t.job].status == Running && jobs[t.job].claimedAt == t.leasedAt
  }

  // No job is worked on by two live workers.
  ghost predicate Exclusive(s: State)
  {
    forall a, b :: 0 <= a < |s.actors| && 0 <= b < |s.actors| && Working(s.actors[a]) && Working(s.actors[b]) ==>
      s.actors[a].task.job == s.actors[b].task.job ==> a == b
  }

  // What a worker may hold or be about to do.
  ghost predicate PlaceOk(c: Config, s: State, pc: Pc)
  {
    && !pc.Lookup? && !pc.Start?
    && (Working(pc) ==> HoldsLease(s.jobs, pc.task))
    && (pc.Sweep? ==> pc.cutoff <= s.now - c.staleAfter)
  }

  ghost predicate LeaseOk(c: Config, s: State)
  {
    && (forall a :: 0 <= a < |s.actors| ==> PlaceOk(c, s, s.actors[a]))
    && Exclusive(s)
  }

  // A step takes the lease of no live worker other than the one that moves.
  ghost predicate LeasesKept(s: State, s': State, a: nat)
    requires a < |s.actors|
  {
    Working(s.actors[a]) ==> HoldsLease(s'.jobs, s.actors[a].task)
  }

  lemma RecoveryRespectsLeases(c: Config, s: State, l: Label, a: nat)
    requires LeaseOk(c, s) && Timely(c, s) && Enabled(c, s, l) && l.RecoverStale? && a < |s.actors|
    ensures LeasesKept(s, PollStep(c, s, l), a)
  {
    assert s.actors[l.a].Sweep?;
  }

  lemma ClaimRespectsLeases(c: Config, s: State, l: Label, a: nat)
    requires LeaseOk(c, s) && Enabled(c, s, l) && Polls(l) && !l.RecoverStale? && a < |s.actors|
    ensures LeasesKept(s, PollStep(c, s, l), a)
  {
    if l.ClaimNext? && l.choice.Some? {
      ClaimIsClaimable(c, s, l);
    }
  }

  lemma SettlingRespectsLeases(c: Config, s: State, l: Label, a: nat)
    requires Inv(c, s) && LeaseOk(c, s) && Enabled(c, s, l) && Settles(l) && a < |s.actors| && a != l.a
    ensures LeasesKept(s, SettleStep(c, s, l), a)
  {
    assert ActorOk(c, s, l.a);
  }

  lemma StepRespectsLeases(c: Config, s: State, l: Label, a: nat)
    requires Inv(c, s) && LeaseOk(c, s) && Timely(c, s) && Enabled(c, s, l) && SplitLabel(l) && a < |s.actors|
    requires l.Tick? || a != l.a
    ensures LeasesKept(s, Apply(c, s, l), a)
  {
    if l.RecoverStale? {
      RecoveryRespectsLeases(c, s, l, a);
    } else if Polls(l) {
      ClaimRespectsLeases(c, s, l, a);
    } else if Settles(l) {
      SettlingRespectsLeases(c, s, l, a);
    }
  }

  // A worker at pc' works on what it worked on at pc, or on a job that was queued.
  ghost predicate ComesFrom(s: State, pc: Pc, pc': Pc)
  {
    Working(pc') ==>
      || (Working(pc) && pc.task == pc'.task)
      || (pc'.task.job < |s.jobs| && s.jobs[pc'.task.job].status == Queued)
  }

  ghost predicate MoverOk(c: Config, s: State, s': State, a: nat)
    requires a < |s.actors|
  {
    |s'.actors| == |s.actors| && PlaceOk(c, s', s'.actors[a]) && ComesFrom(s, s.actors[a], s'.actors[a])
  }

  lemma PollerHoldsLease(c: Config, s: State, l: Label)
    requires LeaseOk(c, s) && Enabled(c, s, l) && Polls(l)
    ensures MoverOk(c, s, PollStep(c, s, l), l.a)
  {
    assert PlaceOk(c, s, s.actors[l.a]);
    if l.ClaimNext? && l.choice.Some? {
      ClaimIsClaimable(c, s, l);
    }
  }

  lemma StarterHoldsLease(c: Config, s: State, l: Label)
    requires LeaseOk(c, s) && Enabled(c, s, l) && SplitLabel(l) && Starts(l)
    ensures MoverOk(c, s, StartStep(c, s, l), l.a)
  {
    assert PlaceOk(c, s, s.actors[l.a]);
  }

  // A worker that holds its lease is not sent to failure handling by a rejected success.
  lemma SucceederHoldsLease(c: Config, s: State, l: Label)
    requires LeaseOk(c, s) && l.SetSucceeded? && Enabled(c, s, l)
    ensures MoverOk(c, s, SettleStep(c, s, l), l.a)
  {
    assert PlaceOk(c, s, s.actors[l.a]);
  }

  lemma SettlerHoldsLease(c: Config, s: State, l: Label)
    requires LeaseOk(c, s) && Enabled(c, s, l) && Settles(l)
    ensures MoverOk(c, s, SettleStep(c, s, l), l.a)
  {
    if l.SetSucceeded? { SucceederHoldsLease(c, s, l); }
  }

  lemma MoverHoldsLease(c: Config, s: State, l: Label)
    requires Inv(c, s) && LeaseOk(c, s) && Enabled(c, s, l) && SplitLabel(l) && !l.Tick?
    ensures MoverOk(c, s, Apply(c, s, l), l.a)
  {
    if Polls(l) {
      PollerHoldsLease(c, s, l);
    } else if Starts(l) {
      StarterHoldsLease(c, s, l);
    } else if Settles(l) {
      SettlerHoldsLease(c, s, l);
    } else {
      assert PlaceOk(c, s, s.actors[l.a]);
    }
  }

  lemma LeasesCombine(c: Config, s: State, s': State, mover: nat)
    requires LeaseOk(c, s) && |s'.actors| == |s.actors| && s.now <= s'.now
    requires forall a :: 0 <= a < |s.actors| && a != mover ==> s'.actors[a] == s.actors[a] && LeasesKept(s, s', a)
    requires mover < |s.actors| ==>
               MoverOk(c, s, s', mover)
    ensures LeaseOk(c, s')
  {
    forall a | 0 <= a < |s'.actors| ensures PlaceOk(c, s', s'.actors[a]) {
      assert PlaceOk(c, s, s.actors[a]);
    }
  }

  lemma StepLeaseOk(c: Config, s: State, l: Label)
    requires Inv(c, s) && LeaseOk(c, s) && Timely(c, s) && Enabled(c, s, l) && SplitLabel(l)
    ensures LeaseOk(c, Apply(c, s, l))
  {
    var s' := Apply(c, s, l);
    OtherActorsStay(c, s, l);
    ClockKept(c, s, l);
    if !l.Tick? { MoverHoldsLease(c, s, l); }
    forall a | 0 <= a < |s.actors| && (l.Tick? || a != l.a) ensures LeasesKept(s, s', a) {
      StepRespectsLeases(c, s, l, a);
    }
    LeasesCombine(c, s, s', if l.Tick? then |s.actors| else l.a);
  }

  lemma ClockKept(c: Config, s: State, l: Label)
    requires Enabled(c, s, l)
    ensures Apply(c, s, l).now >= s.now
  {
  }

  lemma {:induction false} RunLeaseOk(c: Config, states: seq<State>, labels: seq<Label>, i: nat)
    requires IsRun(c, states, labels) && i < |states|
    requires forall m :: 0 <= m < i ==> SplitLabel(labels[m]) && Timely(c, states[m])
    ensures LeaseOk(c, states[i])
  {
    if i > 0 {
      RunLeaseOk(c, states, labels, i - 1);
      RunInv(c, states, labels, i - 1);
      assert Step(c, states[i-1], labels[i-1], states[i]);
      StepLeaseOk(c, states[i-1], labels[i-1]);
    }
  }

  // While all live workers have been timely, no job is worked on by two of them, each still holds its
  // claim, and the success any of them is about to record is accepted.
  lemma LeaseExclusivity(c: Config, states: seq<State>, labels: seq<Label>, i: nat)
    requires IsRun(c, states, labels) && i < |states|
    requires forall m :: 0 <= m < i ==> SplitLabel(labels[m]) && Timely(c, states[m])
    ensures var s := states[i];
            && Exclusive(s)
            && (forall a :: 0 <= a < |s.actors| && Working(s.actors[a]) ==> HoldsLease(s.jobs, s.actors[a].task))
            && (forall a :: 0 <= a < |s.actors| && s.actors[a].Succeed? ==>
                  Enabled(c, s, SetSucceeded(a))
                  && var j := Apply(c, s, SetSucceeded(a)).jobs[s.actors[a].task.job]; j.status == Succeeded)
  {
    RunLeaseOk(c, states, labels, i);
    RunInv(c, states, labels, i);
    var s := states[i];
    forall a | 0 <= a < |s.actors| && s.actors[a].Succeed?
      ensures Enabled(c, s, SetSucceeded(a))
              && var j := Apply(c, s, SetSucceeded(a)).jobs[s.actors[a].task.job]; j.status == Succeeded
    {
      assert ActorOk(c, s, a) && PlaceOk(c, s, s.actors[a]);
    }
  }

  // ----- The bound is sharp -----

  // Worker a works on a job under the claim it was given.
  ghost predicate AtWork(s: State, a: nat)
  {
    a < |s.actors| && Working(s.actors[a]) && HoldsLease(s.jobs, s.actors[a].task)
  }

  // More than stale_job_seconds have passed since the claim of worker a.
  ghost predicate Late(c: Config, s: State, a: nat)
    requires AtWork(s, a)
  {
    s.now > s.actors[a].task.leasedAt.value + c.staleAfter
  }

  // Worker b is at work on job k too.
  predicate Joins(s: State, b: nat, k: nat)
  {
    b < |s.actors| && Working(s.actors[b]) && s.actors[b].task.job == k
  }

  lemma ClaimJoinsIff(c: Config, s: State, b: nat, k: nat, choice: Option<nat>)
    requires b < |s.actors| && s.actors[b].Poll? && k < |s.jobs| && ClaimChoice(c.backend, s.jobs, choice)
    ensures Enabled(c, s, ClaimNext(b, choice))
    ensures var s' := Apply(c, s, ClaimNext(b, choice));
            && |s'.actors| == |s.actors| && s'.actors == s.actors[b := s'.actors[b]] && |s'.jobs| == |s.jobs|
            && (Joins(s', b, k) <==> choice == Some(k))
            && s'.jobs[k] == (if choice == Some(k) then ClaimJob(s.jobs[k], s.now) else s.jobs[k])
            && (choice == Some(k) ==> Claimable(s.jobs[k]))
  {
  }

  // What one round of another worker does to the job of worker a, in any state of the store and for any
  // choice the store may make: it touches the job if and only if a is late and the row is not skipped,
  // and it puts a second live worker on the job if and only if, moreover, an attempt is left and the
  // choice falls on it.
  lemma LateWorkerIsJoined(c: Config, s: State, a: nat, b: nat, skipped: set<nat>, choice: Option<nat>)
    returns (s': State)
    requires AtWork(s, a) && b < |s.actors| && s.actors[b].Idle?
    requires c.backend == Postgres(true) || skipped == {}
    requires ClaimChoice(c.backend, RecoverAll(s.jobs, s.now - c.staleAfter, s.now, skipped), choice)
    ensures Leads(c, s,
                  PollLabels(b, CountStale(s.jobs, s.now - c.staleAfter, skipped), skipped)
                    + [ClaimNext(b, choice)], s')
    ensures |s'.jobs| == |s.jobs| && |s'.actors| == |s.actors| && s'.actors[a] == s.actors[a]
    ensures var k := s.actors[a].task.job;
            && (s'.jobs[k] != s.jobs[k] <==> Late(c, s, a) && k !in skipped)
            && (Joins(s', b, k) <==> Late(c, s, a) && k !in skipped && !Exhausted(s.jobs[k]) && choice == Some(k))
  {
    var n := CountStale(s.jobs, s.now - c.staleAfter, skipped);
    var s1 := PollLeads(c, s, b, skipped, n);
    ClaimJoinsIff(c, s1, b, s.actors[a].task.job, choice);
    s' := Apply(c, s1, ClaimNext(b, choice));
    LeadsOne(c, s1, ClaimNext(b, choice));
    LeadsThen(c, s, PollLabels(b, n, skipped), s1, [ClaimNext(b, choice)], s');
  }
}
