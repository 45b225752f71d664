// Python's sorted(): a stable sort, here of positions into a key sequence.
module StableSort {
  import opened Prelude

  // i comes out strictly before j: a smaller key, or the same key and an earlier position.
  ghost predicate Before(keys: seq<int>, i: nat, j: nat)
    requires i < |keys| && j < |keys|
  {
    keys[i] < keys[j] || (keys[i] == keys[j] && i < j)
  }

  ghost predicate Within(keys: seq<int>, s: seq<nat>)
  {
    forall p :: 0 <= p < |s| ==> s[p] < |keys|
  }

  ghost predicate Increasing(s: seq<nat>)
  {
    forall p, q :: 0 <= p < q < |s| ==> s[p] < s[q]
  }

  ghost predicate InOrder(keys: seq<int>, s: seq<nat>)
    requires Within(keys, s)
  {
    forall p, q :: 0 <= p < q < |s| ==> Before(keys, s[p], s[q])
  }

  function Insert(keys: seq<int>, i: nat, s: seq<nat>): (r: seq<nat>)
    requires i < |keys| && Within(keys, s)
    ensures Within(keys, r) && multiset(r) == multiset(s) + multiset{i}
  {
    if s == [] then [i]
    else if keys[i] <= keys[s[0]] then
      assert [i] + s == [i] + ([s[0]] + s[1..]);
      [i] + s
    else
      assert s == [s[0]] + s[1..];
      [s[0]] + Insert(keys, i, s[1..])
  }

  function Sorted(keys: seq<int>, s: seq<nat>): (r: seq<nat>)
    requires Within(keys, s)
    ensures Within(keys, r) && multiset(r) == multiset(s)
    ensures |r| == |s|
  {
    if s == [] then []
    else
      assert s == [s[0]] + s[1..];
      var r := Insert(keys, s[0], Sorted(keys, s[1..]));
      assert |multiset(r)| == |multiset(s)|;
      r
  }

  lemma {:induction false} InsertInOrder(keys: seq<int>, i: nat, s: seq<nat>)
    requires i < |keys| && Within(keys, s) && InOrder(keys, s)
    requires forall p :: 0 <= p < |s| ==> i < s[p]
    ensures InOrder(keys, Insert(keys, i, s))
  {
    if s != [] && keys[i] > keys[s[0]] {
      var rest := Insert(keys, i, s[1..]);
      InsertInOrder(keys, i, s[1..]);
      forall q | 0 <= q < |rest| ensures Before(keys, s[0], rest[q]) {
        assert rest[q] in multiset(rest);
        assert rest[q] == i || rest[q] in s[1..];
      }
    }
  }

  // Sorting positions given in increasing order is stable: equal keys keep their order.
  lemma {:induction false} SortedInOrder(keys: seq<int>, s: seq<nat>)
    requires Within(keys, s) && Increasing(s)
    ensures InOrder(keys, Sorted(keys, s))
  {
    if s != [] {
      SortedInOrder(keys, s[1..]);
      var rest := Sorted(keys, s[1..]);
      forall p | 0 <= p < |rest| ensures s[0] < rest[p] {
        assert rest[p] in multiset(rest);
        assert rest[p] in s[1..];
      }
      InsertInOrder(keys, s[0], rest);
    }
  }

  lemma SameHead(keys: seq<int>, r: seq<nat>, t: seq<nat>)
    requires Within(keys, r) && Within(keys, t) && InOrder(keys, r) && InOrder(keys, t)
    requires r != [] && t != [] && r[0] in t && t[0] in r
    ensures r[0] == t[0]
  {
    var p :| 0 <= p < |t| && t[p] == r[0];
    var q :| 0 <= q < |r| && r[q] == t[0];
  }

  // There is only one such order of the same positions, so the sort is fixed by what it promises.
  lemma {:induction false} InOrderUnique(keys: seq<int>, r: seq<nat>, t: seq<nat>)
    requires Within(keys, r) && Within(keys, t) && InOrder(keys, r) && InOrder(keys, t)
    requires multiset(r) == multiset(t)
    ensures r == t
  {
    SameMultisetSameSize(r, t);
    if r != [] {
      TailMultiset(r);
      TailMultiset(t);
      SameHead(keys, r, t);
      TailsAgree(r, t);
      InOrderUnique(keys, r[1..], t[1..]);
      assert r == [r[0]] + r[1..] && t == [t[0]] + t[1..];
    }
  }
}
