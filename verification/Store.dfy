// The repository operations as functions on the jobs in insertion order
// (app/storage/in_memory.py), and what their sorting and recovery loops promise.
module Store {
  import opened Prelude
  import opened Jobs
  import opened StableSort

  // ----- claim_next_queued -----

  // The positions of the claimable jobs, in insertion order.
  function ClaimablePositions(jobs: seq<Job>): (s: seq<nat>)
    ensures forall k :: k in s <==> 0 <= k < |jobs| && Claimable(jobs[k])
    ensures Increasing(s)
  {
    if jobs == [] then []
    else
      var n := |jobs| - 1;
      var s := ClaimablePositions(jobs[..n]);
      assert forall p :: 0 <= p < |s| ==> s[p] in s;
      if Claimable(jobs[n]) then s + [n] else s
  }

  // How the list comprehension grows with one more job.
  lemma ClaimablePositionsGrow(jobs: seq<Job>, i: nat)
    requires i < |jobs|
    ensures ClaimablePositions(jobs[..i+1]) == ClaimablePositions(jobs[..i]) + (if Claimable(jobs[i]) then [i] else [])
  {
    assert jobs[..i+1][..i] == jobs[..i];
  }

  function CreationTimes(jobs: seq<Job>): (keys: seq<int>)
    ensures |keys| == |jobs|
    ensures forall k :: 0 <= k < |jobs| ==> keys[k] == jobs[k].createdAt
  {
    seq(|jobs|, k requires 0 <= k < |jobs| => jobs[k].createdAt)
  }

  // After i rounds of the list comprehension.
  ghost predicate ClaimableSoFar(jobs: seq<Job>, i: nat, queued: seq<nat>, keys: seq<int>)
  {
    && i <= |jobs| && queued == ClaimablePositions(jobs[..i])
    && |keys| == i && forall k :: 0 <= k < i ==> keys[k] == jobs[k].createdAt
  }

  lemma ClaimableRound(jobs: seq<Job>, i: nat, queued: seq<nat>, keys: seq<int>)
    requires ClaimableSoFar(jobs, i, queued, keys) && i < |jobs|
    ensures ClaimableSoFar(jobs, i + 1, queued + (if Claimable(jobs[i]) then [i] else []), keys + [jobs[i].createdAt])
  {
    ClaimablePositionsGrow(jobs, i);
  }

  lemma ClaimableDone(jobs: seq<Job>, queued: seq<nat>, keys: seq<int>)
    requires ClaimableSoFar(jobs, |jobs|, queued, keys)
    ensures queued == ClaimablePositions(jobs) && keys == CreationTimes(jobs)
  {
    assert jobs[..|jobs|] == jobs;
  }

  // The job claim_next_queued takes: the first-inserted among the oldest claimable jobs.
  function NextClaim(jobs: seq<Job>): (r: Option<nat>)
    ensures r.Some? ==> r.value < |jobs| && Claimable(jobs[r.value])
  {
    if jobs == [] then None
    else
      var n := |jobs| - 1;
      var r := NextClaim(jobs[..n]);
      if Claimable(jobs[n]) && (r.None? || jobs[n].createdAt < jobs[r.value].createdAt) then Some(n) else r
  }

  ghost predicate OldestClaimable(jobs: seq<Job>, k: nat)
    requires k < |jobs|
  {
    Claimable(jobs[k]) && forall i :: 0 <= i < |jobs| && Claimable(jobs[i]) ==> jobs[k].createdAt <= jobs[i].createdAt
  }

  // A claim finds nothing exactly when nothing is claimable; otherwise it takes the
  // first-inserted among the oldest claimable jobs.
  lemma {:induction false} NextClaimIsOldest(jobs: seq<Job>)
    ensures NextClaim(jobs).None? <==> forall k :: 0 <= k < |jobs| ==> !Claimable(jobs[k])
    ensures NextClaim(jobs).Some? ==>
              var k := NextClaim(jobs).value;
              && k < |jobs| && OldestClaimable(jobs, k)
              && forall i :: 0 <= i < k && Claimable(jobs[i]) ==> jobs[k].createdAt < jobs[i].createdAt
  {
    if jobs != [] {
      NextClaimIsOldest(jobs[..|jobs|-1]);
    }
  }

  // What claim_next_queued promises: it finds nothing exactly when no queued job has an attempt left; otherwise it
  // takes the first-inserted of the oldest such jobs, counts the attempt, and touches nothing else.
  ghost predicate IsClaim(before: seq<Job>, now: Time, choice: Option<nat>, after: seq<Job>)
  {
    var waiting := set k: nat | k < |before| && before[k].status == Queued
                                && before[k].attemptCount < before[k].maxAttempts;
    match choice
    case None => waiting == {} && after == before
    case Some(k) =>
      && k in waiting && |after| == |before|
      && (forall i :: i in waiting ==>
            before[k].createdAt < before[i].createdAt || (before[k].createdAt == before[i].createdAt && k <= i))
      && (forall i :: 0 <= i < |before| && i != k ==> after[i] == before[i])
      && after[k].status == Running && after[k].attemptCount == before[k].attemptCount + 1
      && after[k].claimedAt == Some(now) && after[k].updatedAt == now
      && SameIdentity(before[k], after[k])
      && after[k].result == before[k].result && after[k].errorMessage == before[k].errorMessage
  }

  lemma ClaimByFields(jobs: seq<Job>, now: Time)
    ensures var choice := NextClaim(jobs);
            IsClaim(jobs, now, choice,
                    if choice.None? then jobs else jobs[choice.value := ClaimJob(jobs[choice.value], now)])
  {
    NextClaimIsOldest(jobs);
  }

  // The head of the sorted candidates, which is what the code takes, is that job.
  lemma HeadOfSortedIsNext(jobs: seq<Job>)
    ensures var s := ClaimablePositions(jobs);
            && (forall p :: 0 <= p < |s| ==> s[p] < |jobs|)
            && NextClaim(jobs) == if s == [] then None else Some(Sorted(CreationTimes(jobs), s)[0])
  {
    var s := ClaimablePositions(jobs);
    assert forall p :: 0 <= p < |s| ==> s[p] in s;
    NextClaimIsOldest(jobs);
    if s == [] {
      assert forall k :: 0 <= k < |jobs| ==> k !in s;
    } else {
      var keys := CreationTimes(jobs);
      assert s[0] in s;
      var k := NextClaim(jobs).value;
      assert k in s;
      FirstOfSorted(keys, s, k);
    }
  }

  lemma FirstOfSorted(keys: seq<int>, s: seq<nat>, k: nat)
    requires Within(keys, s) && Increasing(s) && k in s
    requires forall i :: i in s ==> keys[k] < keys[i] || (keys[k] == keys[i] && k <= i)
    ensures s != [] && Sorted(keys, s)[0] == k
  {
    SortedInOrder(keys, s);
    var r := Sorted(keys, s);
    assert k in multiset(s);
    assert k in multiset(r);
    var p :| 0 <= p < |r| && r[p] == k;
    assert r[0] in multiset(r);
    assert r[0] in s;
  }

  // ----- list_recent -----

  predicate Matches(j: Job, tenantId: string, projectId: Option<string>)
  {
    j.tenantId == tenantId && (projectId.Some? ==> j.projectId == projectId.value)
  }

  function MatchingPositions(jobs: seq<Job>, tenantId: string, projectId: Option<string>): (s: seq<nat>)
    ensures forall k :: k in s <==> 0 <= k < |jobs| && Matches(jobs[k], tenantId, projectId)
    ensures Increasing(s)
  {
    if jobs == [] then []
    else
      var n := |jobs| - 1;
      var s := MatchingPositions(jobs[..n], tenantId, projectId);
      assert forall p :: 0 <= p < |s| ==> s[p] in s;
      if Matches(jobs[n], tenantId, projectId) then s + [n] else s
  }

  lemma MatchingPositionsGrow(jobs: seq<Job>, tenantId: string, projectId: Option<string>, i: nat)
    requires i < |jobs|
    ensures MatchingPositions(jobs[..i+1], tenantId, projectId)
              == MatchingPositions(jobs[..i], tenantId, projectId)
                 + (if Matches(jobs[i], tenantId, projectId) then [i] else [])
  {
    assert jobs[..i+1][..i] == jobs[..i];
  }

  // After i rounds of the list comprehension.
  ghost predicate MatchedSoFar(jobs: seq<Job>, tenantId: string, projectId: Option<string>, i: nat,
                               matching: seq<nat>, keys: seq<int>)
  {
    && i <= |jobs| && matching == MatchingPositions(jobs[..i], tenantId, projectId)
    && |keys| == i && forall k :: 0 <= k < i ==> keys[k] == -jobs[k].createdAt
  }

  lemma MatchingRound(jobs: seq<Job>, tenantId: string, projectId: Option<string>, i: nat, matching: seq<nat>,
                      keys: seq<int>)
    requires MatchedSoFar(jobs, tenantId, projectId, i, matching, keys) && i < |jobs|
    ensures MatchedSoFar(jobs, tenantId, projectId, i + 1,
                         matching + (if Matches(jobs[i], tenantId, projectId) then [i] else []),
                         keys + [-jobs[i].createdAt])
  {
    MatchingPositionsGrow(jobs, tenantId, projectId, i);
  }

  lemma MatchingDone(jobs: seq<Job>, tenantId: string, projectId: Option<string>, matching: seq<nat>, keys: seq<int>)
    requires MatchedSoFar(jobs, tenantId, projectId, |jobs|, matching, keys)
    ensures matching == MatchingPositions(jobs, tenantId, projectId) && keys == NewestFirstKeys(jobs)
  {
    assert jobs[..|jobs|] == jobs;
  }

  // sorted(..., reverse=True) keeps equal keys in their original order, like sorting the negated keys.
  function NewestFirstKeys(jobs: seq<Job>): (keys: seq<int>)
    ensures |keys| == |jobs|
    ensures forall k :: 0 <= k < |jobs| ==> keys[k] == -jobs[k].createdAt
  {
    seq(|jobs|, k requires 0 <= k < |jobs| => -jobs[k].createdAt)
  }

  // The length of s[:limit], where a negative limit counts from the end.
  function SliceLength(n: nat, limit: int): (m: nat)
    ensures m <= n
  {
    if limit >= 0 then (if limit < n then limit else n)
    else if n + limit > 0 then n + limit else 0
  }

  function Recent(jobs: seq<Job>, tenantId: string, projectId: Option<string>, limit: int): seq<nat>
  {
    var s := MatchingPositions(jobs, tenantId, projectId);
    assert forall p :: 0 <= p < |s| ==> s[p] in s;
    var r := Sorted(NewestFirstKeys(jobs), s);
    r[..SliceLength(|r|, limit)]
  }

  // The positions of the tenant's jobs, of one project or of all.
  ghost function TenantJobs(jobs: seq<Job>, tenantId: string, projectId: Option<string>): set<nat>
  {
    set k: nat | k < |jobs| && jobs[k].tenantId == tenantId
                 && (projectId == None || projectId == Some(jobs[k].projectId))
  }

  lemma {:induction false} IncreasingHasNoRepeats(s: seq<nat>, elements: set<nat>)
    requires Increasing(s) && forall k :: k in s <==> k in elements
    ensures |s| == |elements|
  {
    if s == [] {
      assert elements == {};
    } else {
      var n := |s| - 1;
      assert s == s[..n] + [s[n]];
      assert s[n] in s;
      assert s[n] !in s[..n];
      IncreasingHasNoRepeats(s[..n], elements - {s[n]});
    }
  }

  lemma MatchingAreTenantJobs(jobs: seq<Job>, tenantId: string, projectId: Option<string>)
    ensures var s := MatchingPositions(jobs, tenantId, projectId);
            && (forall k :: k in s <==> k in TenantJobs(jobs, tenantId, projectId))
            && |s| == |TenantJobs(jobs, tenantId, projectId)|
  {
    IncreasingHasNoRepeats(MatchingPositions(jobs, tenantId, projectId), TenantJobs(jobs, tenantId, projectId));
  }

  // Job i comes before job k in a listing: it is newer, or as old and inserted first.
  ghost predicate ListedBefore(jobs: seq<Job>, i: nat, k: nat)
    requires i < |jobs| && k < |jobs|
  {
    jobs[i].createdAt > jobs[k].createdAt || (jobs[i].createdAt == jobs[k].createdAt && i < k)
  }

  // A list of positions is what list_recent promises: jobs of the tenant only, newest first, as many as the limit
  // allows (a negative one counts from the end), and none left out that comes before a listed one.
  ghost predicate IsListing(jobs: seq<Job>, tenantId: string, projectId: Option<string>, limit: int, r: seq<nat>)
  {
    var all := TenantJobs(jobs, tenantId, projectId);
    && (limit >= 0 ==> |r| <= limit && |r| <= |all| && (|r| == limit || |r| == |all|))
    && (limit < 0 ==> |r| == if |all| < -limit then 0 else |all| - -limit)
    && (forall p :: 0 <= p < |r| ==> r[p] < |jobs| && r[p] in all)
    && (forall p, q :: 0 <= p < q < |r| ==> ListedBefore(jobs, r[p], r[q]))
    && (forall p, k :: 0 <= p < |r| && k in all && k !in r ==> ListedBefore(jobs, r[p], k))
  }

  // The listing is the newest-first, stable top of the tenant's jobs.
  lemma RecentIsNewestTop(jobs: seq<Job>, tenantId: string, projectId: Option<string>, limit: int)
    ensures IsListing(jobs, tenantId, projectId, limit, Recent(jobs, tenantId, projectId, limit))
  {
    var s, all := MatchingPositions(jobs, tenantId, projectId), TenantJobs(jobs, tenantId, projectId);
    MatchingAreTenantJobs(jobs, tenantId, projectId);
    assert forall p :: 0 <= p < |s| ==> s[p] in s;
    var keys := NewestFirstKeys(jobs);
    var r := Recent(jobs, tenantId, projectId, limit);
    TopOfSorted(keys, s, |r|);
    forall p | 0 <= p < |r| ensures r[p] < |jobs| && r[p] in all { assert r[p] in s; }
    forall p, q | 0 <= p < q < |r| ensures ListedBefore(jobs, r[p], r[q]) { assert Before(keys, r[p], r[q]); }
    forall p, k | 0 <= p < |r| && k in all && k !in r ensures ListedBefore(jobs, r[p], k) {
      assert k in s;
      assert Before(keys, r[p], k);
    }
  }

  lemma SortedHasTheSame(keys: seq<int>, s: seq<nat>, k: nat)
    requires Within(keys, s)
    ensures k in s <==> k in Sorted(keys, s)
  {
    assert k in multiset(s) <==> k in multiset(Sorted(keys, s));
  }

  // The first n in sorted order come before all the others.
  lemma TopOfSorted(keys: seq<int>, s: seq<nat>, n: nat)
    requires Increasing(s) && Within(keys, s) && n <= |Sorted(keys, s)|
    ensures |Sorted(keys, s)| == |s|
    ensures var r := Sorted(keys, s)[..n];
      && (forall p :: 0 <= p < n ==> r[p] in s)
      && (forall p, q :: 0 <= p < q < n ==> Before(keys, r[p], r[q]))
      && (forall p, k :: 0 <= p < n && k in s && k !in r ==> Before(keys, r[p], k))
  {
    SortedInOrder(keys, s);
    var all := Sorted(keys, s);
    forall p | 0 <= p < n ensures all[..n][p] in s { SortedHasTheSame(keys, s, all[p]); }
    forall p, k | 0 <= p < n && k in s && k !in all[..n] ensures Before(keys, all[p], k) {
      SortedHasTheSame(keys, s, k);
      var q :| 0 <= q < |all| && all[q] == k;
      assert forall i :: 0 <= i < n ==> all[..n][i] == all[i];
      assert q >= n;
    }
  }

  // ----- recover_stale_running -----

  // skipped are the rows that SKIP LOCKED passes over in Postgres; in memory there are none.
  function RecoverAll(jobs: seq<Job>, cutoff: Time, now: Time, skipped: set<nat> := {}): (r: seq<Job>)
    ensures |r| == |jobs|
    ensures forall k :: 0 <= k < |jobs| ==> r[k] == if k in skipped then jobs[k] else RecoverJob(jobs[k], cutoff, now)
  {
    seq(|jobs|, k requires 0 <= k < |jobs| => if k in skipped then jobs[k] else RecoverJob(jobs[k], cutoff, now))
  }

  // What recover_stale_running promises: every job running under a claim from before the cutoff is recovered and
  // counted, and no other job is touched.
  ghost predicate IsRecovery(before: seq<Job>, cutoff: Time, now: Time, after: seq<Job>, recovered: nat)
  {
    var stale := set k: nat | k < |before| && before[k].status == Running && before[k].claimedAt.Some?
                              && before[k].claimedAt.value < cutoff;
    && |after| == |before| && recovered == |stale|
    && forall k :: 0 <= k < |before| ==>
         if k in stale then LeftByRecovery(before[k], now, after[k]) else after[k] == before[k]
  }

  lemma RecoveryByFields(jobs: seq<Job>, cutoff: Time, now: Time)
    ensures IsRecovery(jobs, cutoff, now, RecoverAll(jobs, cutoff, now), CountStale(jobs, cutoff))
  {
    assert StalePositions(jobs, cutoff)
        == set k: nat | k < |jobs| && jobs[k].status == Running && jobs[k].claimedAt.Some?
                        && jobs[k].claimedAt.value < cutoff;
  }

  // Where the stale jobs are, and those of them out of attempts.
  function StalePositions(jobs: seq<Job>, cutoff: Time, skipped: set<nat> := {}): set<nat>
  {
    set k: nat | k < |jobs| && k !in skipped && Stale(jobs[k], cutoff)
  }

  function ExhaustedPositions(jobs: seq<Job>, cutoff: Time, skipped: set<nat> := {}): set<nat>
  {
    set k: nat | k < |jobs| && k !in skipped && Stale(jobs[k], cutoff) && Exhausted(jobs[k])
  }

  function CountStale(jobs: seq<Job>, cutoff: Time, skipped: set<nat> := {}): (n: nat)
    ensures n >= CountExhausted(jobs, cutoff, skipped)
  {
    var stale := StalePositions(jobs, cutoff, skipped);
    assert stale == ExhaustedPositions(jobs, cutoff, skipped) + (stale - ExhaustedPositions(jobs, cutoff, skipped));
    |stale|
  }

  function CountExhausted(jobs: seq<Job>, cutoff: Time, skipped: set<nat> := {}): nat
  {
    |ExhaustedPositions(jobs, cutoff, skipped)|
  }

  ghost predicate SameButTimestamps(a: seq<Job>, b: seq<Job>)
  {
    |a| == |b| && forall k :: 0 <= k < |a| ==> a[k] == b[k].(updatedAt := a[k].updatedAt)
  }

  // The returned count is the number of jobs whose status changed.
  lemma RecoverCountsChanges(jobs: seq<Job>, cutoff: Time, now: Time)
    ensures CountStale(jobs, cutoff)
              == |set k: nat | k < |jobs| && RecoverAll(jobs, cutoff, now)[k].status != jobs[k].status|
  {
    assert (set k: nat | k < |jobs| && RecoverAll(jobs, cutoff, now)[k].status != jobs[k].status)
        == StalePositions(jobs, cutoff);
  }

  lemma CountStaleGrows(jobs: seq<Job>, cutoff: Time, i: nat)
    requires i < |jobs|
    ensures CountStale(jobs[..i+1], cutoff) == CountStale(jobs[..i], cutoff) + (if Stale(jobs[i], cutoff) then 1 else 0)
  {
    assert StalePositions(jobs[..i+1], cutoff)
        == if Stale(jobs[i], cutoff)
           then StalePositions(jobs[..i], cutoff) + {i} else StalePositions(jobs[..i], cutoff);
  }

  lemma CountExhaustedGrows(jobs: seq<Job>, cutoff: Time, skipped: set<nat>, i: nat)
    requires i < |jobs|
    ensures CountExhausted(jobs[..i+1], cutoff, skipped)
              == CountExhausted(jobs[..i], cutoff, skipped)
                 + (if i !in skipped && Stale(jobs[i], cutoff) && Exhausted(jobs[i]) then 1 else 0)
  {
    var before := ExhaustedPositions(jobs[..i], cutoff, skipped);
    assert ExhaustedPositions(jobs[..i+1], cutoff, skipped)
        == if i !in skipped && Stale(jobs[i], cutoff) && Exhausted(jobs[i]) then before + {i} else before;
  }

  // After i rounds of the recovery loop.
  ghost predicate RecoveredSoFar(before: seq<Job>, jobs: seq<Job>, cutoff: Time, now: Time, i: nat, recovered: nat)
  {
    && i <= |before| == |jobs|
    && (forall k :: 0 <= k < |before| ==> jobs[k] == if k < i then RecoverJob(before[k], cutoff, now) else before[k])
    && recovered == CountStale(before[..i], cutoff)
  }

  lemma RecoveryRound(before: seq<Job>, jobs: seq<Job>, cutoff: Time, now: Time, i: nat, recovered: nat)
    requires RecoveredSoFar(before, jobs, cutoff, now, i, recovered) && i < |before|
    ensures |jobs| == |before|
    ensures RecoveredSoFar(before, jobs[i := RecoverJob(jobs[i], cutoff, now)], cutoff, now, i + 1,
                           recovered + if Stale(jobs[i], cutoff) then 1 else 0)
  {
    CountStaleGrows(before, cutoff, i);
  }

  lemma RecoveryDone(before: seq<Job>, jobs: seq<Job>, cutoff: Time, now: Time, recovered: nat)
    requires RecoveredSoFar(before, jobs, cutoff, now, |before|, recovered)
    ensures jobs == RecoverAll(before, cutoff, now) && recovered == CountStale(before, cutoff)
  {
    assert before[..|before|] == before;
  }

  // Recovery leaves no stale claim below its cutoff, so running it again, with that or an earlier cutoff,
  // changes nothing and returns 0.
  lemma RecoverIsComplete(jobs: seq<Job>, c1: Time, c2: Time, now1: Time, now2: Time)
    requires c1 <= c2
    ensures var once := RecoverAll(jobs, c2, now1);
            && RecoverAll(once, c1, now2) == once && CountStale(once, c1) == 0
  {
    assert StalePositions(RecoverAll(jobs, c2, now1), c1) == {};
  }

  lemma RecoverTwice(j: Job, c1: Time, c2: Time, now1: Time, now2: Time)
    requires c1 <= c2
    ensures var twice := RecoverJob(RecoverJob(j, c1, now1), c2, now2);
            twice == RecoverJob(j, c2, now2).(updatedAt := twice.updatedAt)
  {
  }

  // Recovering with an earlier cutoff first makes no difference but the time stamps, and the counts add up.
  lemma RecoverInTwoIsRecover(jobs: seq<Job>, c1: Time, c2: Time, now1: Time, now2: Time)
    requires c1 <= c2
    ensures SameButTimestamps(RecoverAll(RecoverAll(jobs, c1, now1), c2, now2), RecoverAll(jobs, c2, now2))
    ensures CountStale(jobs, c1) + CountStale(RecoverAll(jobs, c1, now1), c2) == CountStale(jobs, c2)
  {
    var twice, once := RecoverAll(RecoverAll(jobs, c1, now1), c2, now2), RecoverAll(jobs, c2, now2);
    forall k | 0 <= k < |jobs| ensures twice[k] == once[k].(updatedAt := twice[k].updatedAt) {
      RecoverTwice(jobs[k], c1, c2, now1, now2);
    }
    RecoverCountsAdd(jobs, c1, c2, now1);
  }

  lemma StaleAfterRecovery(j: Job, c1: Time, c2: Time, now: Time)
    requires c1 <= c2
    ensures Stale(RecoverJob(j, c1, now), c2) <==> Stale(j, c2) && !Stale(j, c1)
  {
  }

  lemma RecoverCountsAdd(jobs: seq<Job>, c1: Time, c2: Time, now: Time)
    requires c1 <= c2
    ensures CountStale(jobs, c1) + CountStale(RecoverAll(jobs, c1, now), c2) == CountStale(jobs, c2)
  {
    forall k: nat | k < |jobs|
      ensures Stale(RecoverAll(jobs, c1, now)[k], c2) <==> Stale(jobs[k], c2) && !Stale(jobs[k], c1)
    {
      StaleAfterRecovery(jobs[k], c1, c2, now);
    }
    assert StalePositions(jobs, c2) == StalePositions(jobs, c1) + StalePositions(RecoverAll(jobs, c1, now), c2);
  }
}
