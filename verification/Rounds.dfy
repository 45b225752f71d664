// The rounds of an undisturbed polling worker make progress: each takes the oldest claimable job off the queue,
// and enough of them empty it.
module Rounds {
  import opened Prelude
  import opened Jobs
  import opened Store
  import opened JobService

  function Claimables(jobs: seq<Job>): set<nat>
  {
    set k: nat | k < |jobs| && Claimable(jobs[k])
  }

  // The jobs as the recovery of round i leaves them, and the job the round then claims.
  function Swept(w: Worker, e: Effects, i: nat): (jobs: seq<Job>)
    ensures |jobs| == |e.jobs|
  {
    RecoverAll(e.jobs, w.clock(i) - w.staleAfter, w.clock(i))
  }

  function Taken(w: Worker, e: Effects, i: nat): Option<nat> { NextClaim(Swept(w, e, i)) }

  // Job k is settled from before to after, with the score of its request if the round goes on; nothing else changes.
  ghost predicate SettlesOnly(w: Worker, before: seq<Job>, after: seq<Job>, k: nat, goesOn: bool)
  {
    && k < |before| == |after| && after[k].status.Terminal() && SameIdentity(before[k], after[k])
    && (forall i :: 0 <= i < |before| && i != k ==> after[i] == before[i])
    && (goesOn ==> ScoredSuccess(w, after[k]))
  }

  ghost predicate ScoredSuccess(w: Worker, j: Job)
  {
    var outcome := w.evaluate(j.request);
    outcome.Scored? && j.status == Succeeded && j.result == Some(outcome.evaluation)
  }

  // What a claim and its processing make of the jobs: they settle the one taken, or find none claimable.
  ghost predicate TakesOne(w: Worker, before: seq<Job>, after: seq<Job>, taken: Option<nat>, goesOn: bool)
  {
    match taken
    case None => Claimables(before) == {} && after == before
    case Some(k) => SettlesOnly(w, before, after, k, goesOn)
  }

  lemma NothingTaken(e: Effects)
    requires NextClaim(e.jobs).None?
    ensures Claimables(e.jobs) == {}
  {
    NextClaimIsOldest(e.jobs);
  }

  lemma WorkSettles(w: Worker, e: Effects, k: nat, now: Time)
    requires k < |e.jobs| && NextClaim(e.jobs) == Some(k)
    ensures SettlesOnly(w, e.jobs, Worked(e, w.evaluate, now).jobs, k, WorkGoesOn(e, w.evaluate))
  {
    ClaimedIsWorked(e, k, w.evaluate, now);
  }

  lemma WorkTakesOne(w: Worker, e: Effects, e': Effects, now: Time, taken: Option<nat>, goesOn: bool)
    requires e' == Worked(e, w.evaluate, now)
    requires taken == NextClaim(e.jobs) && goesOn == WorkGoesOn(e, w.evaluate)
    ensures TakesOne(w, e.jobs, e'.jobs, taken, goesOn)
  {
    if taken.None? {
      NothingTaken(e);
    } else {
      NextClaimIsOldest(e.jobs);
      WorkSettles(w, e, taken.value, now);
    }
  }

  lemma RoundSettles(w: Worker, i: nat, e: Effects, e': Effects)
    requires RoundLeads(w, i, e, e')
    ensures TakesOne(w, Swept(w, e, i), e'.jobs, Taken(w, e, i), GoesOn(w, e, i))
  {
    var p := Polled(e, w.staleAfter, w.clock(i));
    assert p.jobs == Swept(w, e, i);
    WorkTakesOne(w, p, e', w.clock(i), Taken(w, e, i), GoesOn(w, e, i));
  }

  lemma SettlingTakesOneAway(w: Worker, before: seq<Job>, after: seq<Job>, k: nat, goesOn: bool)
    requires SettlesOnly(w, before, after, k, goesOn) && Claimable(before[k])
    ensures Claimables(after) == Claimables(before) - {k}
    ensures |Claimables(after)| == |Claimables(before)| - 1
  {
    assert Claimables(after) == Claimables(before) - {k};
    assert k in Claimables(before);
  }

  // Each round leaves one claimable job fewer than its recovery did, or none if there was none.
  lemma RoundTakesOneJob(w: Worker, i: nat, e: Effects, e': Effects)
    requires RoundLeads(w, i, e, e')
    ensures |e'.jobs| == |e.jobs|
    ensures match Taken(w, e, i)
            case None => Claimables(Swept(w, e, i)) == {} && Claimables(e'.jobs) == {}
            case Some(k) =>
              && k in Claimables(Swept(w, e, i)) && Claimables(e'.jobs) == Claimables(Swept(w, e, i)) - {k}
              && |Claimables(e'.jobs)| == |Claimables(Swept(w, e, i))| - 1
              && e'.jobs[k].status.Terminal() && (GoesOn(w, e, i) ==> ScoredSuccess(w, e'.jobs[k]))
  {
    RoundSettles(w, i, e, e');
    if Taken(w, e, i).Some? {
      SettlingTakesOneAway(w, Swept(w, e, i), e'.jobs, Taken(w, e, i).value, GoesOn(w, e, i));
    }
  }

  // ----- Conservation -----

  // The jobs that the recovery of round i puts back in the queue.
  function Requeued(w: Worker, e: Effects, i: nat): set<nat>
  {
    set k: nat | k < |e.jobs| && Stale(e.jobs[k], w.clock(i) - w.staleAfter) && !Exhausted(e.jobs[k])
  }

  lemma ClaimableAfterRecovery(j: Job, cutoff: Time, now: Time)
    ensures Claimable(RecoverJob(j, cutoff, now)) <==> Claimable(j) || (Stale(j, cutoff) && !Exhausted(j))
    ensures !(Claimable(j) && Stale(j, cutoff))
  {
  }

  lemma RecoveryAdds(w: Worker, e: Effects, i: nat)
    ensures |Claimables(Swept(w, e, i))| == |Claimables(e.jobs)| + |Requeued(w, e, i)|
  {
    var queued, back, swept := Claimables(e.jobs), Requeued(w, e, i), Swept(w, e, i);
    forall k: nat ensures (k in Claimables(swept) <==> k in queued || k in back) && !(k in queued && k in back) {
      if k < |e.jobs| { ClaimableAfterRecovery(e.jobs[k], w.clock(i) - w.staleAfter, w.clock(i)); }
    }
    assert Claimables(swept) == queued + back;
    assert queued !! back;
  }

  ghost function TakenUpTo(w: Worker, es: seq<Effects>, n: nat): nat
    requires n < |es|
  {
    if n == 0 then 0 else TakenUpTo(w, es, n - 1) + (if Taken(w, es[n-1], n - 1).Some? then 1 else 0)
  }

  ghost function RequeuedUpTo(w: Worker, es: seq<Effects>, n: nat): nat
    requires n < |es|
  {
    if n == 0 then 0 else RequeuedUpTo(w, es, n - 1) + |Requeued(w, es[n-1], n - 1)|
  }

  lemma RoundBalances(w: Worker, i: nat, e: Effects, e': Effects)
    requires RoundLeads(w, i, e, e')
    ensures |Claimables(e'.jobs)| + (if Taken(w, e, i).Some? then 1 else 0)
               == |Claimables(e.jobs)| + |Requeued(w, e, i)|
  {
    RecoveryAdds(w, e, i);
    RoundTakesOneJob(w, i, e, e');
  }

  lemma RoundLeadsAt(w: Worker, es: seq<Effects>, i: nat)
    requires AreRounds(w, es) && i + 1 < |es|
    ensures RoundLeads(w, i, es[i], es[i+1])
  {
    assert LinkOf(w)(i, es[i], es[i+1]);
  }

  lemma RoundBalancesAt(w: Worker, es: seq<Effects>, i: nat)
    requires AreRounds(w, es) && i + 1 < |es|
    ensures |Claimables(es[i+1].jobs)| + (if Taken(w, es[i], i).Some? then 1 else 0)
               == |Claimables(es[i].jobs)| + |Requeued(w, es[i], i)|
  {
    RoundLeadsAt(w, es, i);
    RoundBalances(w, i, es[i], es[i+1]);
  }

  // Over any rounds: what is claimable and what was taken is what was claimable at the start and what was requeued.
  lemma {:induction false} ClaimablesAreConserved(w: Worker, es: seq<Effects>, n: nat)
    requires AreRounds(w, es) && n < |es|
    ensures |Claimables(es[n].jobs)| + TakenUpTo(w, es, n) == |Claimables(es[0].jobs)| + RequeuedUpTo(w, es, n)
  {
    if n > 0 {
      ClaimablesAreConserved(w, es, n - 1);
      RoundBalancesAt(w, es, n - 1);
    }
  }

  // ----- Order -----

  // Job k was created before job m, or at the same time and inserted before it.
  ghost predicate Precedes(jobs: seq<Job>, k: nat, m: nat)
    requires k < |jobs| && m < |jobs|
  {
    jobs[k].createdAt < jobs[m].createdAt || (jobs[k].createdAt == jobs[m].createdAt && k < m)
  }

  // Settled jobs stay settled, and creation times stay.
  ghost predicate KeepsSettled(before: seq<Job>, after: seq<Job>)
  {
    && |after| == |before|
    && forall k :: 0 <= k < |before| ==>
         after[k].createdAt == before[k].createdAt && (before[k].status.Terminal() ==> after[k].status.Terminal())
  }

  lemma KeepsSettledTwice(a: seq<Job>, b: seq<Job>, c: seq<Job>)
    requires KeepsSettled(a, b) && KeepsSettled(b, c)
    ensures KeepsSettled(a, c)
  {
  }

  lemma RecoveryKeepsSettled(w: Worker, i: nat, e: Effects)
    ensures KeepsSettled(e.jobs, Swept(w, e, i))
  {
  }

  lemma SettlingKeepsSettled(w: Worker, before: seq<Job>, after: seq<Job>, k: nat, goesOn: bool)
    requires SettlesOnly(w, before, after, k, goesOn)
    ensures KeepsSettled(before, after)
  {
  }

  lemma ClaimKeepsSettled(w: Worker, i: nat, e: Effects, e': Effects)
    requires RoundLeads(w, i, e, e')
    ensures KeepsSettled(Swept(w, e, i), e'.jobs)
  {
    RoundSettles(w, i, e, e');
    if Taken(w, e, i).Some? {
      SettlingKeepsSettled(w, Swept(w, e, i), e'.jobs, Taken(w, e, i).value, GoesOn(w, e, i));
    }
  }

  lemma RoundKeepsSettled(w: Worker, i: nat, e: Effects, e': Effects)
    requires RoundLeads(w, i, e, e')
    ensures KeepsSettled(e.jobs, e'.jobs)
  {
    RecoveryKeepsSettled(w, i, e);
    ClaimKeepsSettled(w, i, e, e');
    KeepsSettledTwice(e.jobs, Swept(w, e, i), e'.jobs);
  }

  lemma RoundKeepsSettledAt(w: Worker, es: seq<Effects>, i: nat)
    requires AreRounds(w, es) && i + 1 < |es|
    ensures KeepsSettled(es[i].jobs, es[i+1].jobs)
  {
    RoundLeadsAt(w, es, i);
    RoundKeepsSettled(w, i, es[i], es[i+1]);
  }

  lemma {:induction false} KeepsSettledThroughout(es: seq<Effects>, i: nat, j: nat)
    requires i <= j < |es| && forall m: nat :: m + 1 < |es| ==> KeepsSettled(es[m].jobs, es[m+1].jobs)
    ensures KeepsSettled(es[i].jobs, es[j].jobs)
    decreases j
  {
    if i < j {
      KeepsSettledThroughout(es, i, j - 1);
      KeepsSettledTwice(es[i].jobs, es[j-1].jobs, es[j].jobs);
    }
  }

  lemma RoundsKeepSettled(w: Worker, es: seq<Effects>, i: nat, j: nat)
    requires AreRounds(w, es) && i <= j < |es|
    ensures KeepsSettled(es[i].jobs, es[j].jobs)
  {
    forall m: nat | m + 1 < |es| ensures KeepsSettled(es[m].jobs, es[m+1].jobs) { RoundKeepsSettledAt(w, es, m); }
    KeepsSettledThroughout(es, i, j);
  }

  lemma TakenIsOldest(w: Worker, i: nat, e: Effects, m: nat)
    requires Taken(w, e, i).Some? && m in Claimables(Swept(w, e, i)) && m != Taken(w, e, i).value
    ensures Taken(w, e, i).value < |e.jobs| && Precedes(e.jobs, Taken(w, e, i).value, m)
  {
    NextClaimIsOldest(Swept(w, e, i));
    RecoveryKeepsSettled(w, i, e);
  }

  lemma TakenIsSettled(w: Worker, i: nat, e: Effects, e': Effects)
    requires RoundLeads(w, i, e, e') && Taken(w, e, i).Some?
    ensures Taken(w, e, i).value < |e'.jobs| && e'.jobs[Taken(w, e, i).value].status.Terminal()
  {
    RoundTakesOneJob(w, i, e, e');
  }

  lemma TakenWasOpen(w: Worker, j: nat, e: Effects)
    requires Taken(w, e, j).Some?
    ensures Taken(w, e, j).value < |e.jobs| && !e.jobs[Taken(w, e, j).value].status.Terminal()
  {
    NextClaimIsOldest(Swept(w, e, j));
    RecoveryKeepsSettled(w, j, e);
  }

  lemma TakenBefore(w: Worker, first: Effects, i: nat, e: Effects, e1: Effects, j: nat, later: Effects)
    requires RoundLeads(w, i, e, e1) && Taken(w, e, i).Some? && Taken(w, later, j).Some?
    requires KeepsSettled(first.jobs, e.jobs) && KeepsSettled(e1.jobs, later.jobs)
    requires Taken(w, later, j).value in Claimables(Swept(w, e, i))
    ensures |e.jobs| == |first.jobs| && Taken(w, e, i).value < |first.jobs|
    ensures Precedes(first.jobs, Taken(w, e, i).value, Taken(w, later, j).value)
  {
    TakenIsSettled(w, i, e, e1);
    TakenWasOpen(w, j, later);
    TakenIsOldest(w, i, e, Taken(w, later, j).value);
  }

  lemma RoundsHaveSameJobs(w: Worker, es: seq<Effects>, i: nat)
    requires AreRounds(w, es) && i < |es|
    ensures |es[0].jobs| == |es[i].jobs|
  {
    RoundsKeepSettled(w, es, 0, i);
  }

  // Jobs are taken in order of creation: the job of an earlier round precedes that of a later one, if the later
  // one was claimable already.
  lemma JobsAreTakenInOrder(w: Worker, es: seq<Effects>, i: nat, j: nat)
    requires AreRounds(w, es) && i < j && j + 1 < |es|
    requires Taken(w, es[i], i).Some? && Taken(w, es[j], j).Some?
    requires Taken(w, es[j], j).value in Claimables(Swept(w, es[i], i))
    ensures |es[0].jobs| == |es[i].jobs| == |es[j].jobs|
    ensures Precedes(es[0].jobs, Taken(w, es[i], i).value, Taken(w, es[j], j).value)
  {
    RoundLeadsAt(w, es, i);
    RoundsKeepSettled(w, es, i + 1, j);
    RoundsKeepSettled(w, es, 0, i);
    RoundsHaveSameJobs(w, es, j);
    TakenBefore(w, es[0], i, es[i], es[i+1], j, es[j]);
  }

  // ----- Draining -----

  // Round i recovers nothing and does not raise.
  ghost predicate Smooth(w: Worker, e: Effects, i: nat)
  {
    StalePositions(e.jobs, w.clock(i) - w.staleAfter) == {} && GoesOn(w, e, i)
  }

  lemma NothingSwept(w: Worker, e: Effects, i: nat)
    requires StalePositions(e.jobs, w.clock(i) - w.staleAfter) == {}
    ensures Swept(w, e, i) == e.jobs
  {
    forall k: nat | k < |e.jobs| ensures Swept(w, e, i)[k] == e.jobs[k] {
      assert k !in StalePositions(e.jobs, w.clock(i) - w.staleAfter);
    }
  }

  // A job of e0 that was claimable is so still, untouched, or has succeeded with its score.
  ghost predicate Served(w: Worker, e0: Effects, e: Effects)
  {
    && |e.jobs| == |e0.jobs|
    && forall k :: k in Claimables(e0.jobs) ==>
         e.jobs[k] == e0.jobs[k] || (SameIdentity(e0.jobs[k], e.jobs[k]) && ScoredSuccess(w, e.jobs[k]))
  }

  lemma SettlingServes(w: Worker, e0: Effects, e: Effects, e': Effects, k: nat)
    requires Served(w, e0, e) && SettlesOnly(w, e.jobs, e'.jobs, k, true)
    ensures Served(w, e0, e')
  {
  }

  lemma SmoothRoundServes(w: Worker, i: nat, e0: Effects, e: Effects, e': Effects)
    requires RoundLeads(w, i, e, e') && Smooth(w, e, i) && Served(w, e0, e)
    ensures Served(w, e0, e')
  {
    NothingSwept(w, e, i);
    RoundSettles(w, i, e, e');
    if Taken(w, e, i).Some? { SettlingServes(w, e0, e, e', Taken(w, e, i).value); }
  }

  lemma SmoothRoundTakes(w: Worker, i: nat, e: Effects, e': Effects)
    requires RoundLeads(w, i, e, e') && Smooth(w, e, i)
    ensures |Claimables(e'.jobs)| == if Claimables(e.jobs) == {} then 0 else |Claimables(e.jobs)| - 1
  {
    NothingSwept(w, e, i);
    RoundTakesOneJob(w, i, e, e');
  }

  // After i rounds from first.
  ghost predicate ServedIn(w: Worker, first: Effects, i: nat, e: Effects)
  {
    && Served(w, first, e)
    && |Claimables(e.jobs)| == if |Claimables(first.jobs)| > i then |Claimables(first.jobs)| - i else 0
  }

  lemma OneMoreServed(w: Worker, first: Effects, i: nat, e: Effects, e': Effects)
    requires RoundLeads(w, i, e, e') && Smooth(w, e, i) && ServedIn(w, first, i, e)
    ensures ServedIn(w, first, i + 1, e')
  {
    SmoothRoundServes(w, i, first, e, e');
    SmoothRoundTakes(w, i, e, e');
  }

  lemma NoneServedYet(w: Worker, first: Effects)
    ensures ServedIn(w, first, 0, first)
  {
  }

  ghost predicate AllSmooth(w: Worker, es: seq<Effects>, n: nat)
    requires n < |es|
  {
    forall i: nat :: i < n ==> Smooth(w, es[i], i)
  }

  ghost predicate ServedAt(w: Worker, es: seq<Effects>, i: nat) { i < |es| && ServedIn(w, es[0], i, es[i]) }

  lemma OneMoreServedAt(w: Worker, es: seq<Effects>, i: nat, n: nat)
    requires AreRounds(w, es) && i < n < |es| && AllSmooth(w, es, n) && ServedAt(w, es, i)
    ensures ServedAt(w, es, i + 1)
  {
    RoundLeadsAt(w, es, i);
    OneMoreServed(w, es[0], i, es[i], es[i+1]);
  }

  lemma {:induction false} ServedThroughout(w: Worker, es: seq<Effects>, i: nat, n: nat)
    requires ServedAt(w, es, 0) && i <= n && forall m: nat :: m < n && ServedAt(w, es, m) ==> ServedAt(w, es, m + 1)
    ensures ServedAt(w, es, i)
  {
    if i > 0 { ServedThroughout(w, es, i - 1, n); }
  }

  lemma SmoothRoundsServe(w: Worker, es: seq<Effects>, n: nat)
    requires AreRounds(w, es) && n < |es| && AllSmooth(w, es, n)
    ensures ServedAt(w, es, n)
  {
    NoneServedYet(w, es[0]);
    forall m: nat | m < n && ServedAt(w, es, m) ensures ServedAt(w, es, m + 1) { OneMoreServedAt(w, es, m, n); }
    ServedThroughout(w, es, n, n);
  }

  // As many rounds as there are claimable jobs empty the queue, if recovery finds nothing in them and none raises;
  // every job then has succeeded with the score of its request.
  lemma EnoughRoundsDrainTheQueue(w: Worker, es: seq<Effects>, n: nat, k: nat)
    requires AreRounds(w, es) && n < |es| && AllSmooth(w, es, n)
    requires n >= |Claimables(es[0].jobs)| && k in Claimables(es[0].jobs)
    ensures Claimables(es[n].jobs) == {}
    ensures k < |es[n].jobs| && ScoredSuccess(w, es[n].jobs[k]) && SameIdentity(es[0].jobs[k], es[n].jobs[k])
  {
    SmoothRoundsServe(w, es, n);
    assert k !in Claimables(es[n].jobs);
  }
}
