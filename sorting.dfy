/** Python's stable `list.sort` by a descending real key, as both result lists of
    the spreader are ordered: the list is rebuilt by inserting each element after
    every earlier element whose key is at least as large. */
module Sorting {
  import opened Base

  /** Keys never increase from left to right. */
  ghost predicate SortedDesc<T>(s: seq<T>, key: T -> real)
  {
    forall i, j :: 0 <= i < j < |s| ==> key(s[i]) >= key(s[j])
  }

  /** Places `x` in front of the first element with a strictly smaller key, so it
      follows every element whose key is at least its own. */
  function Insert<T>(x: T, s: seq<T>, key: T -> real): (r: seq<T>)
    ensures |r| == |s| + 1
    ensures multiset(r) == multiset(s) + multiset{x}
  {
    if s == [] then [x]
    else if key(x) > key(s[0]) then [x] + s
    else
      assert s == [s[0]] + s[1..];
      [s[0]] + Insert(x, s[1..], key)
  }

  /** Inserting an element no larger than a bound into a list bounded by it keeps
      the list bounded. */
  lemma {:induction false} InsertBounded<T>(x: T, s: seq<T>, key: T -> real, bound: real)
    requires key(x) <= bound
    requires forall k :: 0 <= k < |s| ==> key(s[k]) <= bound
    ensures forall k :: 0 <= k < |Insert(x, s, key)| ==> key(Insert(x, s, key)[k]) <= bound
  {
    if s != [] && key(x) <= key(s[0]) {
      InsertBounded(x, s[1..], key, bound);
      var rest := Insert(x, s[1..], key);
      assert forall k :: 1 <= k < |rest| + 1 ==> Insert(x, s, key)[k] == rest[k - 1];
    }
  }

  /** Inserting into a sorted list keeps it sorted. */
  lemma {:induction false} InsertKeepsSorted<T>(x: T, s: seq<T>, key: T -> real)
    requires SortedDesc(s, key)
    ensures SortedDesc(Insert(x, s, key), key)
  {
    if s != [] && key(x) <= key(s[0]) {
      var rest := Insert(x, s[1..], key);
      InsertKeepsSorted(x, s[1..], key);
      InsertBounded(x, s[1..], key, key(s[0]));
      var r := [s[0]] + rest;
      forall i, j | 0 <= i < j < |r|
        ensures key(r[i]) >= key(r[j])
      {
        assert r[j] == rest[j - 1];
        if i > 0 {
          assert r[i] == rest[i - 1];
        }
      }
    }
  }

  /** The specification of the sort: the sorted rearrangement built by repeated
      insertion. */
  function SortedByKey<T>(s: seq<T>, key: T -> real): (r: seq<T>)
    ensures |r| == |s|
    ensures multiset(r) == multiset(s)
    ensures SortedDesc(r, key)
  {
    if s == [] then []
    else
      var init := SortedByKey(s[..|s| - 1], key);
      assert s == s[..|s| - 1] + [s[|s| - 1]];
      InsertKeepsSorted(s[|s| - 1], init, key);
      Insert(s[|s| - 1], init, key)
  }

  /** The in-place sort of a results list. */
  method SortDesc<T>(s: seq<T>, key: T -> real) returns (r: seq<T>)
    ensures r == SortedByKey(s, key)
    ensures SortedDesc(r, key) && multiset(r) == multiset(s)
  {
    r := [];
    for i := 0 to |s|
      invariant r == SortedByKey(s[..i], key)
    {
      assert s[..i + 1][..i] == s[..i];
      r := Insert(s[i], r, key);
    }
    assert s[..|s|] == s;
  }

  /** Two positions of a sequence are a multiset count of two. */
  lemma CountTwo<T>(s: seq<T>, i: nat, j: nat)
    requires i < j < |s| && s[i] == s[j]
    ensures multiset(s)[s[i]] >= 2
  {
    assert s == s[..i] + [s[i]] + s[i + 1..j] + [s[j]] + s[j + 1..];
    assert multiset(s) == multiset(s[..i]) + multiset{s[i]} + multiset(s[i + 1..j]) + multiset{s[j]} + multiset(s[j + 1..]);
  }

  /** A value counted twice occurs at two positions. */
  lemma {:induction false} TwoFromCount<T>(s: seq<T>, x: T)
    requires multiset(s)[x] >= 2
    ensures exists i, j :: 0 <= i < j < |s| && s[i] == x && s[j] == x
  {
    assert s == [s[0]] + s[1..];
    if s[0] == x {
      assert x in multiset(s[1..]);
      var j :| 0 <= j < |s[1..]| && s[1..][j] == x;
      assert s[j + 1] == x;
    } else {
      TwoFromCount(s[1..], x);
      var i, j :| 0 <= i < j < |s[1..]| && s[1..][i] == x && s[1..][j] == x;
      assert s[i + 1] == x && s[j + 1] == x;
    }
  }

  /** A rearrangement of a list whose items have pairwise distinct identities has
      pairwise distinct identities. */
  lemma PermutationKeepsDistinct<T, K>(s: seq<T>, t: seq<T>, idOf: T -> K)
    requires multiset(s) == multiset(t)
    requires forall i, j :: 0 <= i < j < |s| ==> idOf(s[i]) != idOf(s[j])
    ensures forall i, j :: 0 <= i < j < |t| ==> idOf(t[i]) != idOf(t[j])
  {
    forall i, j | 0 <= i < j < |t|
      ensures idOf(t[i]) != idOf(t[j])
    {
      assert t[i] in multiset(s) && t[j] in multiset(s);
      if t[i] == t[j] {
        CountTwo(t, i, j);
        TwoFromCount(s, t[i]);
      }
    }
  }

  /** A rearrangement of a list whose items all pass a test passes it too. */
  lemma PermutationKeepsAll<T>(s: seq<T>, t: seq<T>, test: T -> bool)
    requires multiset(s) == multiset(t)
    requires forall k :: 0 <= k < |s| ==> test(s[k])
    ensures forall k :: 0 <= k < |t| ==> test(t[k])
  {
    forall k | 0 <= k < |t|
      ensures test(t[k])
    {
      assert t[k] in multiset(s);
      var i :| 0 <= i < |s| && s[i] == t[k];
    }
  }

  /** Cutting a list keeps it sorted, keeps its identities distinct and keeps
      every item passing a test. */
  lemma TakeKeeps<T, K>(s: seq<T>, n: nat, key: T -> real, idOf: T -> K, test: T -> bool)
    requires SortedDesc(s, key)
    requires forall i, j :: 0 <= i < j < |s| ==> idOf(s[i]) != idOf(s[j])
    requires forall k :: 0 <= k < |s| ==> test(s[k])
    ensures SortedDesc(Take(s, n), key)
    ensures forall i, j :: 0 <= i < j < |Take(s, n)| ==> idOf(Take(s, n)[i]) != idOf(Take(s, n)[j])
    ensures forall k :: 0 <= k < |Take(s, n)| ==> test(Take(s, n)[k])
  {
    var r := Take(s, n);
    assert forall k :: 0 <= k < |r| ==> r[k] == s[k];
  }

  /** Sorting and then cutting to `n` leaves an item of the list out only when the
      cut list is full of items whose keys are at least as large. */
  lemma TakeSortedComplete<T>(s: seq<T>, n: nat, key: T -> real, x: T)
    requires x in s
    ensures var r := Take(SortedByKey(s, key), n);
      x in r || (|r| == n && forall k :: 0 <= k < |r| ==> key(r[k]) >= key(x))
  {
    var sorted := SortedByKey(s, key);
    var r := Take(sorted, n);
    assert x in multiset(s);
    assert x in multiset(sorted);
    var j :| 0 <= j < |sorted| && sorted[j] == x;
    if j < |r| {
      assert r[j] == x;
    } else {
      forall k | 0 <= k < |r|
        ensures key(r[k]) >= key(x)
      {
        assert r[k] == sorted[k];
      }
    }
  }
}
