// Bounded retries with exponential backoff (app/core/resilience.py), and the evaluator built on them
// (app/services/evaluator.py). Times are seconds.
module Resilience {
  import opened Prelude
  import opened Jobs

  datatype Failure = TimedOut | Raised(what: string) | NoAttempts

  // How one call of the operation ends, and how long it takes.
  datatype Attempt<+T> = Returns(value: T, took: real) | Raises(error: Failure, took: real)

  // asyncio.wait_for: a call that outlasts the timeout is cut off there.
  function WithTimeout<T>(a: Attempt<T>, timeout: real): Attempt<T>
  {
    if a.took > timeout then Raises(TimedOut, timeout) else a
  }

  function Pow2(n: nat): (p: nat)
    ensures p >= 1
  {
    if n == 0 then 1 else 2 * Pow2(n - 1)
  }

  // The sleep after the failed call number i: initial_delay_seconds * 2**i.
  function Backoff(delay: real, i: nat): real
  {
    if i == 0 then delay else 2.0 * Backoff(delay, i - 1)
  }

  lemma {:induction false} BackoffIsPower(delay: real, i: nat)
    ensures Backoff(delay, i) == delay * Pow2(i) as real
  {
    if i > 0 {
      BackoffIsPower(delay, i - 1);
      assert Pow2(i) as real == 2.0 * Pow2(i - 1) as real;
    }
  }

  // The time of n calls and of the sleeps between them.
  ghost function TimeSpent<T>(outcome: nat -> Attempt<T>, delay: real, n: nat): real
  {
    if n == 0 then 0.0
    else TimeSpent(outcome, delay, n - 1) + (if n == 1 then 0.0 else Backoff(delay, n - 2)) + outcome(n - 1).took
  }

  lemma PowSum(delay: real, n: nat)
    requires n >= 2
    ensures delay * (Pow2(n - 1) as real - 1.0) == delay * (Pow2(n - 2) as real - 1.0) + Backoff(delay, n - 2)
  {
    BackoffIsPower(delay, n - 2);
    assert Pow2(n - 1) as real == 2.0 * Pow2(n - 2) as real;
  }

  // n calls of at most limit each take at most n * limit + delay * (2^(n-1) - 1) with their sleeps.
  lemma {:induction false} TimeIsBounded<T>(outcome: nat -> Attempt<T>, delay: real, n: nat, limit: real)
    requires n >= 1 && forall i: nat :: i < n ==> outcome(i).took <= limit
    ensures TimeSpent(outcome, delay, n) <= n as real * limit + delay * (Pow2(n - 1) as real - 1.0)
  {
    if n == 1 {
      assert TimeSpent(outcome, delay, 0) == 0.0;
      assert Pow2(0) as real - 1.0 == 0.0;
    } else {
      TimeIsBounded(outcome, delay, n - 1, limit);
      PowSum(delay, n);
      assert n as real * limit == (n - 1) as real * limit + limit;
    }
  }

  // And exactly that much if all of them take that long.
  lemma {:induction false} TimeIsExact<T>(outcome: nat -> Attempt<T>, delay: real, n: nat, each: real)
    requires n >= 1 && forall i: nat :: i < n ==> outcome(i).took == each
    ensures TimeSpent(outcome, delay, n) == n as real * each + delay * (Pow2(n - 1) as real - 1.0)
  {
    if n == 1 {
      assert TimeSpent(outcome, delay, 0) == 0.0;
      assert Pow2(0) as real - 1.0 == 0.0;
    } else {
      TimeIsExact(outcome, delay, n - 1, each);
      PowSum(delay, n);
      assert n as real * each == (n - 1) as real * each + each;
    }
  }

  // The bound on n calls.
  function Bound(n: nat, limit: real, delay: real): real
    requires n >= 1
  {
    n as real * limit + delay * (Pow2(n - 1) as real - 1.0)
  }

  lemma {:induction false} BackoffIsPositive(delay: real, i: nat)
    requires delay >= 0.0
    ensures Backoff(delay, i) >= 0.0
  {
    if i > 0 {
      BackoffIsPositive(delay, i - 1);
    }
  }

  lemma OneMoreCall(n: nat, limit: real, delay: real)
    requires n >= 2
    ensures Bound(n, limit, delay) == Bound(n - 1, limit, delay) + limit + Backoff(delay, n - 2)
  {
    PowSum(delay, n);
    assert n as real * limit == (n - 1) as real * limit + limit;
  }

  lemma {:induction false} MoreCallsTakeLonger(n: nat, m: nat, limit: real, delay: real)
    requires 1 <= n <= m && limit >= 0.0 && delay >= 0.0
    ensures Bound(n, limit, delay) <= Bound(m, limit, delay)
    decreases m
  {
    if n < m {
      MoreCallsTakeLonger(n, m - 1, limit, delay);
      OneMoreCall(m, limit, delay);
      BackoffIsPositive(delay, m - 2);
    }
  }

  // outcome(i) is what the i-th call of the operation does. The result is that of the first call that
  // returns, or the last error; with no attempts at all the assertion after the loop fails.
  method RetryAsync<T>(outcome: nat -> Attempt<T>, attempts: int, delay: real)
    returns (result: Result<T, Failure>, elapsed: real, calls: nat)
    ensures elapsed == TimeSpent(outcome, delay, calls)
    ensures attempts > 0 ==> 1 <= calls <= attempts
    ensures attempts <= 0 ==> result == Err(NoAttempts) && calls == 0
    ensures result.Ok? ==>
              && calls >= 1 && outcome(calls - 1).Returns? && outcome(calls - 1).value == result.value
              && forall i: nat :: i < calls - 1 ==> outcome(i).Raises?
    ensures result.Err? && attempts > 0 ==>
              && calls == attempts && (forall i: nat :: i < calls ==> outcome(i).Raises?)
              && result.error == outcome(calls - 1).error
  {
    var lastError: Option<Failure> := None;
    var attempt := 0;
    elapsed := 0.0;
    calls := 0;
    while attempt < attempts
      invariant 0 <= attempt && calls == attempt && (attempts > 0 ==> attempt <= attempts)
                 && (attempts <= 0 ==> attempt == 0)
      invariant elapsed == TimeSpent(outcome, delay, calls)
                           + (if 0 < attempt < attempts then Backoff(delay, attempt - 1) else 0.0)
      invariant forall i: nat :: i < calls ==> outcome(i).Raises?
      invariant lastError == if attempt == 0 then None else Some(outcome(attempt - 1).error)
    {
      var a := outcome(attempt);
      elapsed := elapsed + a.took;
      calls := calls + 1;
      if a.Returns? {
        return Ok(a.value), elapsed, calls;
      }
      lastError := Some(a.error);
      if attempt < attempts - 1 {
        elapsed := elapsed + Backoff(delay, attempt);
      }
      attempt := attempt + 1;
    }
    result := if lastError.None? then Err(NoAttempts) else Err(lastError.value);
  }

  // ----- Evaluator -----

  const ATTEMPTS := 2
  const INITIAL_DELAY := 0.05

  class Evaluator {
    const timeoutSeconds: real
    const scoring: Request -> Evaluation
    // evaluation_scoring_duration_seconds_count and _sum
    var observations: nat
    var observedSeconds: real

    constructor (timeout: real, score: Request -> Evaluation)
      ensures timeoutSeconds == timeout && scoring == score && observations == 0 && observedSeconds == 0.0
    {
      timeoutSeconds, scoring := timeout, score;
      observations, observedSeconds := 0, 0.0;
    }

    // took(i) is how long the i-th scoring call would run if it were not cut off.
    // A score is the scoring function's; without one both calls timed out. Either way the time is bounded
    // and recorded.
    method Score(request: Request, took: nat -> real) returns (result: Result<Evaluation, Failure>, elapsed: real)
      requires timeoutSeconds >= 0.0
      modifies this
      ensures result == (if took(0) <= timeoutSeconds || took(1) <= timeoutSeconds then Ok(scoring(request))
                         else Err(TimedOut))
      ensures elapsed == if took(0) <= timeoutSeconds then took(0)
                         else if took(1) <= timeoutSeconds then timeoutSeconds + 0.05 + took(1)
                         else timeoutSeconds + 0.05 + timeoutSeconds
      ensures elapsed <= 2.0 * timeoutSeconds + 0.05
      ensures observations == old(observations) + 1 && observedSeconds == old(observedSeconds) + elapsed
    {
      var score, limit := scoring(request), timeoutSeconds;
      var outcome := (i: nat) => WithTimeout(Returns(score, took(i)), limit);
      var calls;
      result, elapsed, calls := RetryAsync(outcome, ATTEMPTS, INITIAL_DELAY);
      forall i: nat ensures outcome(i).took <= limit {
        assert outcome(i) == WithTimeout(Returns(score, took(i)), limit);
      }
      TimeIsBounded(outcome, INITIAL_DELAY, calls, limit);
      MoreCallsTakeLonger(calls, ATTEMPTS, limit, INITIAL_DELAY);
      assert Pow2(1) == 2;
      assert TimeSpent(outcome, INITIAL_DELAY, 1) == outcome(0).took by {
        assert TimeSpent(outcome, INITIAL_DELAY, 0) == 0.0;
      }
      assert TimeSpent(outcome, INITIAL_DELAY, 2) == outcome(0).took + INITIAL_DELAY + outcome(1).took;
      observations := observations + 1;
      observedSeconds := observedSeconds + elapsed;
    }
  }
}
