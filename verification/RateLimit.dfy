// The fixed-window rate limiter (app/core/rate_limit.py) and what it promises over time.
module RateLimit {
  import opened Prelude

  datatype Window = Window(start: real, count: int)

  // What check does to the counter of one key; times are seconds of a monotonic clock.
  function Decide(w: Option<Window>, now: real, limit: int, size: real): (Option<Window>, bool)
  {
    if w.None? || now - w.value.start >= size then (Some(Window(now, 1)), true)
    else if w.value.count >= limit then (w, false)
    else (Some(w.value.(count := w.value.count + 1)), true)
  }

  function Max1(limit: int): int { if limit < 1 then 1 else limit }

  // ----- One key, one limit, any nondecreasing call times -----

  ghost predicate Nondecreasing(times: seq<real>)
  {
    forall i, j :: 0 <= i < j < |times| ==> times[i] <= times[j]
  }

  // The counter after the calls at times.
  function After(times: seq<real>, limit: int, size: real): Option<Window>
  {
    if times == [] then None
    else Decide(After(times[..|times|-1], limit, size), times[|times|-1], limit, size).0
  }

  // Whether the last of the calls is admitted.
  predicate Admits(times: seq<real>, limit: int, size: real)
    requires times != []
  {
    Decide(After(times[..|times|-1], limit, size), times[|times|-1], limit, size).1
  }

  // The calls admitted in the half-open interval [from, till).
  function AdmittedIn(times: seq<real>, limit: int, size: real, from: real, till: real): nat
  {
    if times == [] then 0
    else
      var t := times[|times|-1];
      AdmittedIn(times[..|times|-1], limit, size, from, till)
      + (if from <= t < till && Admits(times, limit, size) then 1 else 0)
  }

  // The windows opened at or after from.
  function WindowsSince(times: seq<real>, limit: int, size: real, from: real): nat
  {
    if times == [] then 0
    else
      var t := times[|times|-1];
      var w := After(times[..|times|-1], limit, size);
      WindowsSince(times[..|times|-1], limit, size, from)
      + (if from <= t && (w.None? || t - w.value.start >= size) then 1 else 0)
  }

  // The counter never exceeds the limit (one call always gets in), and its window opened in the past.
  lemma {:induction false} CounterOk(times: seq<real>, limit: int, size: real)
    requires size > 0.0
    ensures After(times, limit, size).None? <==> times == []
    ensures After(times, limit, size).Some? ==> 1 <= After(times, limit, size).value.count <= Max1(limit)
    ensures After(times, limit, size).Some? && Nondecreasing(times) ==>
              var start := After(times, limit, size).value.start; start <= times[|times|-1] < start + size
  {
    if times != [] {
      CounterOk(times[..|times|-1], limit, size);
    }
  }

  lemma {:induction false} NothingAdmittedYet(times: seq<real>, limit: int, size: real, from: real, till: real)
    requires Nondecreasing(times) && (times != [] ==> times[|times|-1] < from)
    ensures AdmittedIn(times, limit, size, from, till) == 0
  {
    if |times| > 1 {
      NothingAdmittedYet(times[..|times|-1], limit, size, from, till);
    }
  }

  // What n admissions since from, m of them opening a window, say about the current window w.
  ghost predicate Accounts(m: nat, n: nat, w: Option<Window>, limit: int, size: real, from: real)
  {
    if w.None? then m == 0 && n == 0
    else if m == 0 then w.value.start < from && n <= w.value.count - 1
    else w.value.start >= from + (m - 1) as real * size && n <= Max1(limit) * m - 1 + w.value.count
  }

  lemma OpenWindow(m: nat, n: nat, w: Option<Window>, limit: int, size: real, from: real, t: real)
    requires Accounts(m, n, w, limit, size, from) && from <= t && size > 0.0
    requires w.Some? ==> w.value.count <= Max1(limit) && t - w.value.start >= size
    ensures Accounts(m + 1, n + 1, Some(Window(t, 1)), limit, size, from)
  {
    assert (m as real) * size == (m - 1) as real * size + size;
    assert Max1(limit) * (m + 1) == Max1(limit) * m + Max1(limit);
    if m == 0 {
      assert (m as real) * size == 0.0;
    }
  }

  // m windows opened since from lie size apart, so the last one opened at least m - 1 sizes after from.
  // Before the first of them at most limit - 1 calls were admitted since from, and each of the others but
  // the current one admitted at most limit.
  lemma {:induction false} WindowsAccount(times: seq<real>, limit: int, size: real, from: real, till: real)
    requires size > 0.0 && Nondecreasing(times) && (times != [] ==> times[|times|-1] < till)
    ensures Accounts(WindowsSince(times, limit, size, from), AdmittedIn(times, limit, size, from, till),
                     After(times, limit, size), limit, size, from)
  {
    if times != [] {
      var before := times[..|times|-1];
      var t := times[|times|-1];
      WindowsAccount(before, limit, size, from, till);
      CounterOk(before, limit, size);
      var w := After(before, limit, size);
      if w.None? || t - w.value.start >= size {
        if from <= t {
          OpenWindow(WindowsSince(before, limit, size, from), AdmittedIn(before, limit, size, from, till),
                     w, limit, size, from, t);
        } else {
          NothingAdmittedYet(times, limit, size, from, till);
          NoWindowYet(times, limit, size, from);
        }
      }
    }
  }

  lemma {:induction false} NoWindowYet(times: seq<real>, limit: int, size: real, from: real)
    requires Nondecreasing(times) && (times != [] ==> times[|times|-1] < from)
    ensures WindowsSince(times, limit, size, from) == 0
  {
    if |times| > 1 {
      NoWindowYet(times[..|times|-1], limit, size, from);
    }
  }

  lemma TimesSize(a: nat, b: nat, size: real)
    requires a <= b && size > 0.0
    ensures a as real * size <= b as real * size
  {
  }

  lemma BoundFromAccounts(m: nat, n: nat, k: nat, w: Option<Window>, limit: int, size: real, from: real)
    requires Accounts(m, n, w, limit, size, from) && size > 0.0 && k >= 1
    requires w.Some? ==> w.value.count <= Max1(limit) && w.value.start < from + k as real * size
    ensures n <= (k + 1) * Max1(limit) - 1
  {
    if m > k {
      TimesSize(k, m - 1, size);
    }
    assert m <= k;
    assert Max1(limit) * m <= Max1(limit) * k;
    assert (k + 1) * Max1(limit) == Max1(limit) * k + Max1(limit);
  }

  // Any k window lengths hold at most (k + 1) * max(1, limit) - 1 admitted calls.
  lemma {:induction false} SlidingBound(times: seq<real>, limit: int, size: real, from: real, k: nat)
    requires size > 0.0 && Nondecreasing(times) && k >= 1
    ensures AdmittedIn(times, limit, size, from, from + k as real * size) <= (k + 1) * Max1(limit) - 1
  {
    var till := from + k as real * size;
    if times != [] && times[|times|-1] >= till {
      SlidingBound(times[..|times|-1], limit, size, from, k);
    } else {
      WindowsAccount(times, limit, size, from, till);
      CounterOk(times, limit, size);
      BoundFromAccounts(WindowsSince(times, limit, size, from), AdmittedIn(times, limit, size, from, till), k,
                        After(times, limit, size), limit, size, from);
    }
  }

  // ----- The bound is reached -----

  function Burst(n: nat, t: real): (s: seq<real>)
    ensures |s| == n && forall i :: 0 <= i < n ==> s[i] == t
  {
    seq(n, i => t)
  }

  // n more calls at t, all admitted by the window open at t.
  lemma {:induction false} BurstIsAdmitted(times: seq<real>, n: nat, t: real, limit: int, size: real, from: real,
                                           till: real)
    requires After(times, limit, size).Some? && t - After(times, limit, size).value.start < size
    requires After(times, limit, size).value.count + n <= Max1(limit) && from <= t < till
    requires After(times, limit, size).value.count >= 1
    ensures After(times + Burst(n, t), limit, size)
              == Some(After(times, limit, size).value.(count := After(times, limit, size).value.count + n))
    ensures AdmittedIn(times + Burst(n, t), limit, size, from, till) == AdmittedIn(times, limit, size, from, till) + n
  {
    if n == 0 {
      assert times + Burst(0, t) == times;
    } else {
      BurstIsAdmitted(times, n - 1, t, limit, size, from, till);
      var before := times + Burst(n - 1, t);
      assert times + Burst(n, t) == before + [t];
      OneMoreIsAdmitted(before, t, limit, size, from, till);
    }
  }

  lemma OneMoreIsAdmitted(times: seq<real>, t: real, limit: int, size: real, from: real, till: real)
    requires After(times, limit, size).Some? && t - After(times, limit, size).value.start < size
    requires After(times, limit, size).value.count < limit && from <= t < till
    ensures var w := After(times, limit, size).value;
            After(times + [t], limit, size) == Some(w.(count := w.count + 1))
    ensures AdmittedIn(times + [t], limit, size, from, till) == AdmittedIn(times, limit, size, from, till) + 1
  {
    assert (times + [t])[..|times|] == times;
  }

  // A window opened at t and filled at once.
  lemma FullWindow(times: seq<real>, t: real, limit: int, size: real, from: real, till: real)
    requires size > 0.0 && from <= t < till
    requires After(times, limit, size).None? || t - After(times, limit, size).value.start >= size
    ensures After(times + Burst(Max1(limit), t), limit, size) == Some(Window(t, Max1(limit)))
    ensures AdmittedIn(times + Burst(Max1(limit), t), limit, size, from, till)
              == AdmittedIn(times, limit, size, from, till) + Max1(limit)
  {
    var first := times + [t];
    assert first[..|times|] == times;
    assert After(first, limit, size) == Some(Window(t, 1));
    BurstIsAdmitted(first, Max1(limit) - 1, t, limit, size, from, till);
    assert first + Burst(Max1(limit) - 1, t) == times + Burst(Max1(limit), t);
  }

  function Multiple(k: nat, size: real): real
  {
    if k == 0 then 0.0 else Multiple(k - 1, size) + size
  }

  lemma {:induction false} MultipleIsProduct(k: nat, size: real)
    ensures Multiple(k, size) == k as real * size
  {
    if k > 0 {
      MultipleIsProduct(k - 1, size);
      assert k as real * size == (k - 1) as real * size + size;
    }
  }

  lemma {:induction false} MultipleGrows(j: nat, k: nat, size: real)
    requires j <= k && size > 0.0
    ensures 0.0 <= Multiple(j, size) <= Multiple(k, size)
    decreases k
  {
    if j < k { MultipleGrows(j, k - 1, size); } else if j > 0 { MultipleGrows(j - 1, k - 1, size); }
  }

  // One call at 0, the rest of that window at size / 2, then full windows at size, 2 * size, ..., k * size.
  function Worst(limit: int, size: real, k: nat): seq<real>
  {
    if k == 0 then [0.0] + Burst(Max1(limit) - 1, size / 2.0)
    else Worst(limit, size, k - 1) + Burst(Max1(limit), Multiple(k, size))
  }

  lemma {:induction false} WorstIsOrdered(limit: int, size: real, k: nat)
    requires size > 0.0
    ensures Nondecreasing(Worst(limit, size, k))
    ensures forall i :: 0 <= i < |Worst(limit, size, k)| ==>
              Worst(limit, size, k)[i] <= if k == 0 then size / 2.0 else Multiple(k, size)
  {
    if k > 0 {
      WorstIsOrdered(limit, size, k - 1);
      MultipleGrows(0, k - 1, size);
    }
  }

  // The calls fill a window opened at start, and n of them are admitted between size / 2 and till.
  ghost predicate Fills(times: seq<real>, limit: int, size: real, till: real, start: real, n: int)
  {
    && After(times, limit, size) == Some(Window(start, Max1(limit)))
    && AdmittedIn(times, limit, size, size / 2.0, till) == n
  }

  lemma FirstWindowAdmits(limit: int, size: real, till: real)
    requires size / 2.0 < till && size > 0.0
    ensures Fills(Worst(limit, size, 0), limit, size, till, 0.0, Max1(limit) - 1)
  {
    var first := [0.0];
    assert first[..0] == [];
    assert After(first, limit, size) == Some(Window(0.0, 1));
    BurstIsAdmitted(first, Max1(limit) - 1, size / 2.0, limit, size, size / 2.0, till);
  }

  lemma NextWindowAdmits(limit: int, size: real, j: nat, k: nat, before: seq<real>, n: int)
    requires size > 0.0 && 1 <= j <= k
    requires Fills(before, limit, size, size / 2.0 + Multiple(k, size), Multiple(j - 1, size), n)
    ensures Fills(before + Burst(Max1(limit), Multiple(j, size)), limit, size, size / 2.0 + Multiple(k, size),
                  Multiple(j, size), n + Max1(limit))
  {
    MultipleGrows(j, k, size);
    MultipleGrows(0, j - 1, size);
    FullWindow(before, Multiple(j, size), limit, size, size / 2.0, size / 2.0 + Multiple(k, size));
  }

  function Total(m: int, j: nat): int
  {
    if j == 0 then m - 1 else Total(m, j - 1) + m
  }

  lemma {:induction false} TotalIsProduct(m: int, j: nat)
    ensures Total(m, j) == (j + 1) * m - 1
  {
    if j > 0 {
      TotalIsProduct(m, j - 1);
    }
  }

  lemma {:induction false} WorstAdmits(limit: int, size: real, j: nat, k: nat)
    requires size > 0.0 && j <= k && k >= 1
    ensures Fills(Worst(limit, size, j), limit, size, size / 2.0 + Multiple(k, size), Multiple(j, size),
                  Total(Max1(limit), j))
    decreases j
  {
    if j == 0 {
      MultipleGrows(1, k, size);
      FirstWindowAdmits(limit, size, size / 2.0 + Multiple(k, size));
    } else {
      WorstAdmits(limit, size, j - 1, k);
      NextWindowAdmits(limit, size, j, k, Worst(limit, size, j - 1), Total(Max1(limit), j - 1));
    }
  }

  // For every limit, window size and k these calls meet the bound.
  lemma SlidingBoundIsReached(limit: int, size: real, k: nat)
    requires size > 0.0 && k >= 1
    ensures var times, from := Worst(limit, size, k), size / 2.0;
            && Nondecreasing(times)
            && AdmittedIn(times, limit, size, from, from + k as real * size) == (k + 1) * Max1(limit) - 1
  {
    WorstIsOrdered(limit, size, k);
    WorstAdmits(limit, size, k, k);
    MultipleIsProduct(k, size);
    TotalIsProduct(Max1(limit), k);
  }

  // ----- Rejections -----

  // The current window has admitted exactly what its counter says.
  lemma {:induction false} CounterCounts(times: seq<real>, limit: int, size: real, till: real)
    requires size > 0.0 && Nondecreasing(times) && times != [] && times[|times|-1] < till
    ensures After(times, limit, size).Some?
    ensures AdmittedIn(times, limit, size, After(times, limit, size).value.start, till)
              == After(times, limit, size).value.count
  {
    var before := times[..|times|-1];
    var t := times[|times|-1];
    CounterOk(before, limit, size);
    var w := After(before, limit, size);
    if w.None? || t - w.value.start >= size {
      NothingAdmittedYet(before, limit, size, t, till);
    } else {
      CounterCounts(before, limit, size, till);
    }
  }

  // A rejected call finds a window younger than size that has admitted exactly max(1, limit) calls, and
  // leaves it as it is, so rejected calls never keep a window open.
  lemma RejectedMeansFull(times: seq<real>, now: real, limit: int, size: real, till: real)
    requires size > 0.0 && Nondecreasing(times + [now]) && now < till
    requires !Admits(times + [now], limit, size)
    ensures times != [] && After(times, limit, size).Some?
    ensures After(times + [now], limit, size) == After(times, limit, size)
    ensures now - After(times, limit, size).value.start < size
    ensures AdmittedIn(times, limit, size, After(times, limit, size).value.start, till) == Max1(limit)
  {
    assert (times + [now])[..|times|] == times;
    CounterOk(times, limit, size);
    assert forall i :: 0 <= i < |times| ==> times[i] == (times + [now])[i];
    assert times != [] ==> times[|times|-1] <= (times + [now])[|times|];
    CounterCounts(times, limit, size, till);
  }

  // ----- Many keys -----

  // Every call brings its own limit.
  datatype Call = Call(key: string, at: real, limit: int)

  // All counters after the calls.
  function Counters(calls: seq<Call>, size: real): map<string, Window>
  {
    if calls == [] then map[]
    else
      var n := |calls| - 1;
      var m := Counters(calls[..n], size);
      var call := calls[n];
      var w := Decide(Lookup(m, call.key), call.at, call.limit, size).0;
      if w.Some? then m[call.key := w.value] else m
  }

  function Lookup(m: map<string, Window>, key: string): Option<Window>
  {
    if key in m then Some(m[key]) else None
  }

  function OwnCalls(calls: seq<Call>, key: string): seq<Call>
  {
    if calls == [] then []
    else
      var n := |calls| - 1;
      OwnCalls(calls[..n], key) + (if calls[n].key == key then [calls[n]] else [])
  }

  // One counter that answers all the calls, whatever their keys.
  function AfterCalls(calls: seq<Call>, size: real): Option<Window>
  {
    if calls == [] then None
    else
      var n := |calls| - 1;
      Decide(AfterCalls(calls[..n], size), calls[n].at, calls[n].limit, size).0
  }

  // Whether the last of the calls is admitted.
  predicate AdmitsLast(calls: seq<Call>, size: real)
    requires calls != []
  {
    var n := |calls| - 1;
    Decide(AfterCalls(calls[..n], size), calls[n].at, calls[n].limit, size).1
  }

  // A key's counter, and so every decision about it, is what that key's calls alone would give.
  lemma {:induction false} KeysAreIndependent(calls: seq<Call>, size: real, key: string)
    ensures Lookup(Counters(calls, size), key) == AfterCalls(OwnCalls(calls, key), size)
    ensures calls != [] && calls[|calls|-1].key == key ==>
              OwnCalls(calls, key) != []
              && Decide(Lookup(Counters(calls[..|calls|-1], size), key), calls[|calls|-1].at,
                        calls[|calls|-1].limit, size).1
                 == AdmitsLast(OwnCalls(calls, key), size)
  {
    if calls != [] {
      var n := |calls| - 1;
      KeysAreIndependent(calls[..n], size, key);
      var earlier := OwnCalls(calls[..n], key);
      if calls[n].key == key {
        assert (earlier + [calls[n]])[..|earlier|] == earlier;
      } else {
        assert earlier + [] == earlier;
      }
    }
  }

  function Times(calls: seq<Call>): (times: seq<real>)
    ensures |times| == |calls| && forall i :: 0 <= i < |calls| ==> times[i] == calls[i].at
  {
    seq(|calls|, i requires 0 <= i < |calls| => calls[i].at)
  }

  // While a key's calls all bring the same limit, they are answered as in the sections above.
  lemma {:induction false} OneLimit(calls: seq<Call>, limit: int, size: real)
    requires forall i :: 0 <= i < |calls| ==> calls[i].limit == limit
    ensures AfterCalls(calls, size) == After(Times(calls), limit, size)
    ensures calls != [] ==> AdmitsLast(calls, size) == Admits(Times(calls), limit, size)
  {
    if calls != [] {
      var n := |calls| - 1;
      OneLimit(calls[..n], limit, size);
      assert Times(calls)[..n] == Times(calls[..n]);
    }
  }

  // ----- The class -----

  class WindowCounter {
    const windowStart: real
    var count: int

    constructor (start: real)
      ensures windowStart == start && count == 1
    {
      windowStart := start;
      count := 1;
    }
  }

  class InMemoryRateLimiter {
    const windowSeconds: real
    var counters: map<string, WindowCounter>

    // Keys do not share a counter.
    ghost predicate Valid()
      reads this
    {
      forall a, b :: a in counters && b in counters && counters[a] == counters[b] ==> a == b
    }

    ghost function View(): map<string, Window>
      reads this, counters.Values
    {
      map key | key in counters :: Window(counters[key].windowStart, counters[key].count)
    }

    constructor (seconds: real)
      ensures Valid() && View() == map[] && windowSeconds == seconds
    {
      windowSeconds := seconds;
      counters := map[];
    }

    // False stands for RateLimitExceededError.
    method Check(key: string, limit: int, now: real) returns (admitted: bool)
      requires Valid()
      modifies this, counters.Values
      ensures Valid()
      ensures forall c :: c in counters.Values ==> c in old(counters.Values) || fresh(c)
      ensures var (w, ok) := Decide(Lookup(old(View()), key), now, limit, windowSeconds);
              admitted == ok && w.Some? && View() == old(View())[key := w.value]
    {
      if key !in counters || now - counters[key].windowStart >= windowSeconds {
        var counter := new WindowCounter(now);
        counters := counters[key := counter];
        return true;
      }
      var counter := counters[key];
      assert counter in counters.Values;
      if counter.count >= limit {
        return false;
      }
      counter.count := counter.count + 1;
      return true;
    }
  }
}
