// Shared vocabulary: optional values, results, and a tally over sequences.
module Prelude {

  datatype Option<+T> = None | Some(value: T)

  datatype Result<+T, +E> = Ok(value: T) | Err(error: E)

  function Min(a: int, b: int): int { if a <= b then a else b }

  function Max(a: int, b: int): int { if a >= b then a else b }

  // Each element leads to the next; link is also told its number.
  ghost predicate Chained<T(!new)>(link: (nat, T, T) -> bool, xs: seq<T>)
  {
    xs != [] && forall i: nat :: i + 1 < |xs| ==> link(i, xs[i], xs[i+1])
  }

  lemma ChainGrows<T(!new)>(link: (nat, T, T) -> bool, xs: seq<T>, x: T)
    requires Chained(link, xs) && link(|xs| - 1, xs[|xs|-1], x)
    ensures Chained(link, xs + [x])
  {
  }

  lemma TailMultiset<T>(s: seq<T>)
    requires s != []
    ensures multiset(s) == multiset{s[0]} + multiset(s[1..]) && s[0] in multiset(s)
  {
    assert s == [s[0]] + s[1..];
  }

  lemma SameMultisetSameSize<T>(s: seq<T>, t: seq<T>)
    requires multiset(s) == multiset(t)
    ensures |s| == |t|
  {
    assert |multiset(s)| == |s| && |multiset(t)| == |t|;
  }

  // Two sequences of the same elements that begin alike go on with the same elements.
  lemma TailsAgree<T>(s: seq<T>, t: seq<T>)
    requires multiset(s) == multiset(t) && s != [] && t != [] && s[0] == t[0]
    ensures multiset(s[1..]) == multiset(t[1..])
  {
    TailMultiset(s);
    TailMultiset(t);
    assert multiset(s[1..]) == multiset(s) - multiset{s[0]};
    assert multiset(t[1..]) == multiset(t) - multiset{t[0]};
  }

  // The sum of w over the elements of s.
  ghost function Tally<T>(s: seq<T>, w: T -> int): int
  {
    if s == [] then 0 else Tally(s[..|s|-1], w) + w(s[|s|-1])
  }

  lemma {:induction false} TallyUpdate<T>(s: seq<T>, i: nat, x: T, w: T -> int)
    requires i < |s|
    ensures Tally(s[i := x], w) == Tally(s, w) - w(s[i]) + w(x)
  {
    var n := |s| - 1;
    if i == n {
      assert s[i := x][..n] == s[..n];
    } else {
      assert s[i := x][..n] == s[..n][i := x];
      TallyUpdate(s[..n], i, x, w);
    }
  }

  lemma TallyAppend<T>(s: seq<T>, x: T, w: T -> int)
    ensures Tally(s + [x], w) == Tally(s, w) + w(x)
  {
    assert (s + [x])[..|s|] == s;
  }

  lemma {:induction false} TallyZero<T>(s: seq<T>, w: T -> int)
    requires forall i :: 0 <= i < |s| ==> w(s[i]) == 0
    ensures Tally(s, w) == 0
  {
    if s != [] {
      TallyZero(s[..|s|-1], w);
    }
  }
}
