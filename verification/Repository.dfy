// The in-memory repository as the code has it (app/storage/in_memory.py): an insertion-ordered dict of
// job objects that are updated in place. Each method is one lock section, taken at the instant now,
// and is proved to do to the contents what the functions of module Store say.
module Repository {
  import opened Prelude
  import opened Jobs
  import opened Store
  import opened StableSort

  datatype Error = NotFound | InvalidStateTransition

  // The fields the code never assigns after creation are constants.
  class EvaluationJob {
    const jobId: JobId
    const tenantId: string
    const projectId: string
    const request: Request
    const maxAttempts: int
    const createdAt: Time
    var status: Status
    var result: Option<Evaluation>
    var errorMessage: Option<string>
    var attemptCount: int
    var claimedAt: Option<Time>
    var updatedAt: Time

    ghost function View(): Job
      reads this
    {
      Job(jobId, tenantId, projectId, status, request, result, errorMessage,
          attemptCount, maxAttempts, claimedAt, createdAt, updatedAt)
    }

    constructor (id: JobId, req: Request, attempts: int, now: Time)
      ensures View() == NewJob(id, req, attempts, now)
    {
      jobId, tenantId, projectId, request := id, req.tenantId, req.projectId, req;
      maxAttempts, createdAt := attempts, now;
      status, result, errorMessage := Queued, None, None;
      attemptCount, claimedAt, updatedAt := 0, None, now;
    }

    method MarkClaimed(now: Time)
      modifies this
      ensures View() == ClaimJob(old(View()), now)
    {
      status := Running;
      attemptCount := attemptCount + 1;
      claimedAt := Some(now);
      updatedAt := now;
    }

    // One round of the recovery loop.
    method RecoverIfStale(cutoff: Time, now: Time) returns (recovered: bool)
      modifies this
      ensures recovered == Stale(old(View()), cutoff)
      ensures View() == RecoverJob(old(View()), cutoff, now)
    {
      if status != Running {
        return false;
      }
      if claimedAt.None? || claimedAt.value >= cutoff {
        return false;
      }
      if attemptCount >= maxAttempts {
        status := Failed;
        errorMessage := Some(TIMED_OUT);
      } else {
        status := Queued;
        errorMessage := Some(WORKER_STOPPED);
      }
      claimedAt := None;
      updatedAt := now;
      recovered := true;
    }

    method MoveTo(target: Status, now: Time)
      modifies this
      ensures View() == MoveJob(old(View()), target, now)
    {
      status := target;
      updatedAt := now;
    }
  }

  // The position of the job stored under id. The key of an entry is its job's id, which never changes.
  function Lookup(entries: seq<EvaluationJob>, id: JobId): (r: Option<nat>)
    ensures r.Some? ==> r.value < |entries| && entries[r.value].jobId == id
    ensures r.None? ==> forall k :: 0 <= k < |entries| ==> entries[k].jobId != id
  {
    if entries == [] then None
    else if entries[|entries|-1].jobId == id then Some(|entries| - 1)
    else Lookup(entries[..|entries|-1], id)
  }

  ghost function Views(entries: seq<EvaluationJob>): (r: seq<Job>)
    reads entries
    ensures |r| == |entries|
  {
    if entries == [] then [] else Views(entries[..|entries|-1]) + [entries[|entries|-1].View()]
  }

  lemma {:induction false} ViewsAt(entries: seq<EvaluationJob>)
    ensures forall k :: 0 <= k < |entries| ==> Views(entries)[k] == entries[k].View()
  {
    if entries != [] {
      ViewsAt(entries[..|entries|-1]);
    }
  }

  lemma ViewsGrow(entries: seq<EvaluationJob>, job: EvaluationJob)
    ensures Views(entries + [job]) == Views(entries) + [job.View()]
  {
    assert (entries + [job])[..|entries|] == entries;
  }

  lemma ViewsUpdate(entries: seq<EvaluationJob>, k: nat, job: EvaluationJob)
    requires k < |entries|
    ensures Views(entries[k := job]) == Views(entries)[k := job.View()]
  {
    ViewsAt(entries);
    ViewsAt(entries[k := job]);
  }

  class InMemoryJobRepository {
    // The dict _jobs as its values in insertion order.
    var entries: seq<EvaluationJob>

    // One entry per key, so no object is stored twice.
    ghost predicate Valid()
      reads this
    {
      forall i, j :: 0 <= i < j < |entries| ==> entries[i].jobId != entries[j].jobId
    }

    ghost function Contents(): (r: seq<Job>)
      reads this, entries
      ensures |r| == |entries|
    {
      Views(entries)
    }

    constructor ()
      ensures Valid() && entries == []
    {
      entries := [];
    }

    // A new id goes to the end; a known id keeps its place and gets the new job.
    method Create(job: EvaluationJob)
      requires Valid()
      modifies this
      ensures Valid()
      ensures var k := Lookup(old(entries), job.jobId);
              match k
              case None => entries == old(entries) + [job] && Contents() == old(Contents()) + [job.View()]
              case Some(k) => entries == old(entries)[k := job] && Contents() == old(Contents())[k := job.View()]
    {
      var k := Lookup(entries, job.jobId);
      if k.None? {
        ViewsGrow(entries, job);
        entries := entries + [job];
      } else {
        ViewsUpdate(entries, k.value, job);
        entries := entries[k.value := job];
      }
    }

    method Get(id: JobId) returns (r: Result<EvaluationJob, Error>)
      ensures match Lookup(entries, id)
              case None => r == Err(NotFound)
              case Some(k) => r == Ok(entries[k]) && r.value.View() == Contents()[k]
    {
      ViewsAt(entries);
      var k := Lookup(entries, id);
      r := if k.None? then Err(NotFound) else Ok(entries[k.value]);
    }

    // Another tenant's job is not found.
    method GetForTenant(id: JobId, tenantId: string) returns (r: Result<EvaluationJob, Error>)
      ensures r.Ok? <==> Lookup(entries, id).Some? && entries[Lookup(entries, id).value].tenantId == tenantId
      ensures r == if r.Ok? then Ok(entries[Lookup(entries, id).value]) else Err(NotFound)
    {
      r := Get(id);
      if r.Ok? && r.value.tenantId != tenantId {
        r := Err(NotFound);
      }
    }

    // The list comprehensions of list_recent, by position.
    method Matching(tenantId: string, projectId: Option<string>) returns (matching: seq<nat>, keys: seq<int>)
      ensures matching == MatchingPositions(Contents(), tenantId, projectId) && keys == NewestFirstKeys(Contents())
    {
      matching, keys := [], [];
      ghost var all := Contents();
      for i := 0 to |entries|
        invariant MatchedSoFar(all, tenantId, projectId, i, matching, keys)
      {
        MatchingRound(all, tenantId, projectId, i, matching, keys);
        var matches, createdAt := Inspect(i, tenantId, projectId);
        keys := keys + [-createdAt];
        matching := matching + (if matches then [i] else []);
      }
      MatchingDone(all, tenantId, projectId, matching, keys);
    }

    // The conditions of the comprehensions, and the sort key.
    method Inspect(k: nat, tenantId: string, projectId: Option<string>) returns (matches: bool, createdAt: Time)
      requires k < |entries|
      ensures matches == Matches(Contents()[k], tenantId, projectId) && createdAt == Contents()[k].createdAt
    {
      ViewsAt(entries);
      var job := entries[k];
      matches := job.tenantId == tenantId && (projectId.None? || job.projectId == projectId.value);
      createdAt := job.createdAt;
    }

    // The positions of the tenant's jobs, of one project or of all.
    ghost function Owned(tenantId: string, projectId: Option<string>): set<nat>
      reads this
    {
      set k: nat | k < |entries| && entries[k].tenantId == tenantId
                   && (projectId.Some? ==> entries[k].projectId == projectId.value)
    }

    // What a listing by position says of the jobs returned: all are the tenant's, of the project if one is given;
    // there are as many as the limit allows, and a negative limit leaves that many out at the end; they come newest
    // first, and every job left out is at most as new as any of them.
    ghost predicate Listed(tenantId: string, projectId: Option<string>, limit: int, r: seq<EvaluationJob>)
      reads this
    {
      && (forall p :: 0 <= p < |r| ==>
            r[p].tenantId == tenantId && (projectId.Some? ==> r[p].projectId == projectId.value))
      && |r| == (if limit >= 0 then Min(limit, |Owned(tenantId, projectId)|)
                 else Max(|Owned(tenantId, projectId)| + limit, 0))
      && (forall p, q :: 0 <= p < q < |r| ==> r[p].createdAt >= r[q].createdAt)
      && (forall p, k :: 0 <= p < |r| && k in Owned(tenantId, projectId) && entries[k] !in r ==>
            r[p].createdAt >= entries[k].createdAt)
    }

    lemma PositionsAreListed(tenantId: string, projectId: Option<string>, limit: int, positions: seq<nat>,
                             r: seq<EvaluationJob>)
      requires IsListing(Contents(), tenantId, projectId, limit, positions)
      requires |r| == |positions|
      requires forall p :: 0 <= p < |r| ==> positions[p] < |entries| && r[p] == entries[positions[p]]
      ensures Listed(tenantId, projectId, limit, r)
    {
      ViewsAt(entries);
      var all := TenantJobs(Contents(), tenantId, projectId);
      assert Owned(tenantId, projectId) == all;
      forall k | k in positions ensures k < |entries| && entries[k] in r {
        var q :| 0 <= q < |positions| && positions[q] == k;
        assert r[q] == entries[k];
      }
      forall p, k | 0 <= p < |r| && k in all && entries[k] !in r ensures r[p].createdAt >= entries[k].createdAt {
        assert ListedBefore(Contents(), positions[p], k);
      }
      forall p, q | 0 <= p < q < |r| ensures r[p].createdAt >= r[q].createdAt {
        assert ListedBefore(Contents(), positions[p], positions[q]);
      }
      forall p | 0 <= p < |r|
        ensures r[p].tenantId == tenantId && (projectId.Some? ==> r[p].projectId == projectId.value)
      {
        assert positions[p] in all;
      }
    }

    method ListRecent(tenantId: string, projectId: Option<string>, limit: int) returns (r: seq<EvaluationJob>)
      ensures var positions := Recent(Contents(), tenantId, projectId, limit);
              |r| == |positions|
              && forall p :: 0 <= p < |r| ==> positions[p] < |entries| && r[p] == entries[positions[p]]
      ensures Listed(tenantId, projectId, limit, r)
    {
      var positions := Top(tenantId, projectId, limit);
      r := Pick(positions);
      RecentIsListed(tenantId, projectId, limit, r);
    }

    // The positions sorted and cut off at the limit.
    method Top(tenantId: string, projectId: Option<string>, limit: int) returns (positions: seq<nat>)
      ensures positions == Recent(Contents(), tenantId, projectId, limit)
      ensures forall p :: 0 <= p < |positions| ==> positions[p] < |entries|
    {
      var matching, keys := Matching(tenantId, projectId);
      assert forall p :: 0 <= p < |matching| ==> matching[p] in matching;
      var sorted := Sorted(keys, matching);
      positions := sorted[..SliceLength(|sorted|, limit)];
    }

    lemma RecentIsListed(tenantId: string, projectId: Option<string>, limit: int, r: seq<EvaluationJob>)
      requires var positions := Recent(Contents(), tenantId, projectId, limit);
               |r| == |positions|
               && forall p :: 0 <= p < |r| ==> positions[p] < |entries| && r[p] == entries[positions[p]]
      ensures Listed(tenantId, projectId, limit, r)
    {
      RecentIsNewestTop(Contents(), tenantId, projectId, limit);
      PositionsAreListed(tenantId, projectId, limit, Recent(Contents(), tenantId, projectId, limit), r);
    }

    // The jobs at these positions.
    method Pick(positions: seq<nat>) returns (r: seq<EvaluationJob>)
      requires forall p :: 0 <= p < |positions| ==> positions[p] < |entries|
      ensures |r| == |positions| && forall p :: 0 <= p < |r| ==> r[p] == entries[positions[p]]
    {
      r := [];
      for i := 0 to |positions|
        invariant |r| == i && forall p :: 0 <= p < i ==> r[p] == entries[positions[p]]
      {
        r := r + [entries[positions[i]]];
      }
    }

    // The list comprehension of claim_next_queued.
    method Claimables() returns (queued: seq<nat>, keys: seq<int>)
      ensures queued == ClaimablePositions(Contents()) && keys == CreationTimes(Contents())
    {
      queued, keys := [], [];
      ghost var all := Contents();
      for i := 0 to |entries|
        invariant ClaimableSoFar(all, i, queued, keys)
      {
        ClaimableRound(all, i, queued, keys);
        var claimable, createdAt := InspectClaimable(i);
        keys := keys + [createdAt];
        queued := queued + (if claimable then [i] else []);
      }
      ClaimableDone(all, queued, keys);
    }

    method InspectClaimable(k: nat) returns (claimable: bool, createdAt: Time)
      requires k < |entries|
      ensures claimable == Claimable(Contents()[k]) && createdAt == Contents()[k].createdAt
    {
      ViewsAt(entries);
      var job := entries[k];
      claimable := job.status == Queued && job.attemptCount < job.maxAttempts;
      createdAt := job.createdAt;
    }

    // The head of the sorted candidates.
    method FirstOfSorted() returns (k: Option<nat>)
      ensures k == NextClaim(Contents()) && (k.Some? ==> k.value < |entries|)
    {
      var queued, keys := Claimables();
      HeadOfSortedIsNext(Contents());
      if queued == [] {
        return None;
      }
      k := Some(Sorted(keys, queued)[0]);
    }

    method ClaimNextQueued(now: Time) returns (r: Option<EvaluationJob>)
      requires Valid()
      modifies entries
      ensures var before := old(Contents());
              match NextClaim(before)
              case None => r == None && Contents() == before
              case Some(k) =>
                k < |entries| && r == Some(entries[k]) && Contents() == before[k := ClaimJob(before[k], now)]
      ensures IsClaim(old(Contents()), now, NextClaim(old(Contents())), Contents())
    {
      ClaimByFields(Contents(), now);
      var choice := FirstOfSorted();
      if choice.None? {
        return None;
      }
      ClaimAt(choice.value, now);
      r := Some(entries[choice.value]);
    }

    method ClaimAt(k: nat, now: Time)
      requires Valid() && k < |entries|
      modifies entries[k]
      ensures Contents() == old(Contents())[k := ClaimJob(old(Contents())[k], now)]
    {
      ViewsAt(entries);
      entries[k].MarkClaimed(now);
      ViewsAt(entries);
    }

    method RecoverStaleRunning(cutoff: Time, now: Time) returns (recovered: nat)
      requires Valid()
      modifies entries
      ensures Contents() == RecoverAll(old(Contents()), cutoff, now)
      ensures recovered == CountStale(old(Contents()), cutoff)
      ensures IsRecovery(old(Contents()), cutoff, now, Contents(), recovered)
    {
      RecoveryByFields(Contents(), cutoff, now);
      recovered := 0;
      ghost var before := Contents();
      for i := 0 to |entries|
        invariant RecoveredSoFar(before, Contents(), cutoff, now, i, recovered)
      {
        RecoveryRound(before, Contents(), cutoff, now, i, recovered);
        var changed := RecoverAt(i, cutoff, now);
        if changed {
          recovered := recovered + 1;
        }
      }
      RecoveryDone(before, Contents(), cutoff, now, recovered);
    }

    method RecoverAt(k: nat, cutoff: Time, now: Time) returns (recovered: bool)
      requires Valid() && k < |entries|
      modifies entries[k]
      ensures recovered == Stale(old(Contents())[k], cutoff)
      ensures Contents() == old(Contents())[k := RecoverJob(old(Contents())[k], cutoff, now)]
    {
      ViewsAt(entries);
      recovered := entries[k].RecoverIfStale(cutoff, now);
      ViewsAt(entries);
    }

    // A missing job is not found, a job in another status is left alone, and otherwise only the status
    // and the time stamp of that one job change.
    method Transition(id: JobId, allowedFrom: set<Status>, target: Status, now: Time)
      returns (r: Result<EvaluationJob, Error>)
      requires Valid()
      modifies entries
      ensures var before := old(Contents());
              match Lookup(entries, id)
              case None => r == Err(NotFound) && Contents() == before
              case Some(k) =>
                if before[k].status !in allowedFrom then r == Err(InvalidStateTransition) && Contents() == before
                else r == Ok(entries[k]) && Contents() == before[k := MoveJob(before[k], target, now)]
    {
      var k := Lookup(entries, id);
      if k.None? {
        return Err(NotFound);
      }
      var job := entries[k.value];
      ViewsAt(entries);
      if job.status !in allowedFrom {
        return Err(InvalidStateTransition);
      }
      job.MoveTo(target, now);
      ViewsAt(entries);
      r := Ok(job);
    }

    method SetRunning(id: JobId, now: Time) returns (r: Result<EvaluationJob, Error>)
      requires Valid()
      modifies entries
      ensures var before := old(Contents());
              match Lookup(entries, id)
              case None => r == Err(NotFound) && Contents() == before
              case Some(k) =>
                if before[k].status != Queued then r == Err(InvalidStateTransition) && Contents() == before
                else r == Ok(entries[k]) && Contents() == before[k := MoveJob(before[k], Running, now)]
    {
      r := Transition(id, {Queued}, Running, now);
    }

    // The second lock section of set_succeeded, on the job the first one returned.
    method SaveResult(job: EvaluationJob, evaluation: Evaluation, now: Time)
      requires Valid() && job in entries
      modifies job
      ensures var k := Lookup(entries, job.jobId);
              && k.Some? && entries[k.value] == job
              && Contents() == old(Contents())[k.value := WithResult(old(Contents())[k.value], evaluation, now)]
    {
      ViewsAt(entries);
      job.result := Some(evaluation);
      job.updatedAt := now;
      ViewsAt(entries);
    }

    // The second lock section of set_failed.
    method SaveError(job: EvaluationJob, message: string, now: Time)
      requires Valid() && job in entries
      modifies job
      ensures var k := Lookup(entries, job.jobId);
              && k.Some? && entries[k.value] == job
              && Contents() == old(Contents())[k.value := WithError(old(Contents())[k.value], message, now)]
    {
      ViewsAt(entries);
      job.errorMessage := Some(message);
      job.updatedAt := now;
      ViewsAt(entries);
    }

    // Both lock sections with nobody in between.
    method SetSucceeded(id: JobId, evaluation: Evaluation, now: Time) returns (r: Result<EvaluationJob, Error>)
      requires Valid()
      modifies entries
      ensures var before := old(Contents());
              match Lookup(entries, id)
              case None => r == Err(NotFound) && Contents() == before
              case Some(k) =>
                if before[k].status != Running then r == Err(InvalidStateTransition) && Contents() == before
                else r == Ok(entries[k])
                     && Contents() == before[k := WithResult(MoveJob(before[k], Succeeded, now), evaluation, now)]
    {
      r := Transition(id, {Running}, Succeeded, now);
      if r.Ok? {
        SaveResult(r.value, evaluation, now);
      }
    }

    method SetFailed(id: JobId, message: string, now: Time) returns (r: Result<EvaluationJob, Error>)
      requires Valid()
      modifies entries
      ensures var before := old(Contents());
              match Lookup(entries, id)
              case None => r == Err(NotFound) && Contents() == before
              case Some(k) =>
                if before[k].status.Terminal() then r == Err(InvalidStateTransition) && Contents() == before
                else r == Ok(entries[k])
                     && Contents() == before[k := WithError(MoveJob(before[k], Failed, now), message, now)]
    {
      r := Transition(id, {Queued, Running}, Failed, now);
      if r.Ok? {
        SaveError(r.value, message, now);
      }
    }
  }
}
