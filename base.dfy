/** Small generic helpers shared by every module: an optional value, Python-style
    list truncation (`xs[:n]`) and the search for the first element satisfying a test,
    which is what every `for ... : if ...: return` loop of the system computes. */
module Base {

  datatype Option<+T> = None | Some(value: T)

  function Min(a: int, b: int): int
  {
    if a <= b then a else b
  }

  /** `s[:n]` for a non-negative `n`. */
  function Take<T>(s: seq<T>, n: nat): (r: seq<T>)
    ensures |r| == Min(n, |s|)
    ensures r == s[..|r|]
  {
    if n <= |s| then s[..n] else s
  }

  /** The index of the first element of `s` that satisfies `p`, if any. */
  function Find<T>(s: seq<T>, p: T -> bool): (r: Option<nat>)
    ensures r.Some? ==> r.value < |s| && p(s[r.value])
    ensures r.Some? ==> forall j :: 0 <= j < r.value ==> !p(s[j])
    ensures r.None? <==> forall j :: 0 <= j < |s| ==> !p(s[j])
  {
    if s == [] then None
    else if p(s[0]) then Some(0)
    else match Find(s[1..], p)
      case None => None
      case Some(k) => Some(k + 1)
  }

  /** The first element satisfying `p` is the one `Find` reports. */
  lemma FindAt<T>(s: seq<T>, p: T -> bool, i: nat)
    requires i < |s| && p(s[i])
    requires forall j :: 0 <= j < i ==> !p(s[j])
    ensures Find(s, p) == Some(i)
  {
  }

  /** The loop `for i, x in enumerate(s): if p(x): return i`. */
  method FindFirst<T>(s: seq<T>, p: T -> bool) returns (r: Option<nat>)
    ensures r == Find(s, p)
  {
    for i := 0 to |s|
      invariant forall j :: 0 <= j < i ==> !p(s[j])
    {
      if p(s[i]) {
        return Some(i);
      }
    }
    return None;
  }

  /** The elements of `s` that satisfy `p`, in order. */
  function Filter<T(==)>(s: seq<T>, p: T -> bool): (r: seq<T>)
    ensures |r| <= |s|
    ensures forall k :: 0 <= k < |r| ==> r[k] in s && p(r[k])
    ensures forall k :: 0 <= k < |s| && p(s[k]) ==> s[k] in r
  {
    if s == [] then []
    else if p(s[0]) then [s[0]] + Filter(s[1..], p)
    else Filter(s[1..], p)
  }

  /** `[f(x) for x in s if p(x)]`, built from the front as a loop appends. */
  function FilterMap<T, U>(s: seq<T>, p: T -> bool, f: T -> U): (r: seq<U>)
    ensures |r| <= |s|
    ensures r == [] <==> forall k :: 0 <= k < |s| ==> !p(s[k])
    ensures forall j :: 0 <= j < |r| ==> exists k :: 0 <= k < |s| && p(s[k]) && r[j] == f(s[k])
    ensures forall k :: 0 <= k < |s| && p(s[k]) ==> f(s[k]) in r
  {
    if s == [] then []
    else
      var init := s[..|s| - 1];
      var rest := FilterMap(init, p, f);
      assert forall k :: 0 <= k < |init| ==> init[k] == s[k];
      rest + (if p(s[|s| - 1]) then [f(s[|s| - 1])] else [])
  }

  /** One more element extends the filtered list by its image when it passes. */
  lemma FilterMapStep<T, U>(s: seq<T>, i: nat, p: T -> bool, f: T -> U)
    requires i < |s|
    ensures FilterMap(s[..i + 1], p, f) == FilterMap(s[..i], p, f) + (if p(s[i]) then [f(s[i])] else [])
  {
    assert s[..i + 1][..i] == s[..i];
  }

  /** The two sequences have the same length and are related position by position. */
  ghost predicate Pointwise<T, U>(s: seq<T>, t: seq<U>, rel: (T, U) -> bool)
  {
    |s| == |t| && forall k :: 0 <= k < |s| ==> rel(s[k], t[k])
  }

  /** Extending both sequences by a related pair keeps them related. */
  lemma PointwiseSnoc<T, U>(s: seq<T>, t: seq<U>, rel: (T, U) -> bool, i: nat, y: U)
    requires i < |s| && Pointwise(s[..i], t, rel) && rel(s[i], y)
    ensures Pointwise(s[..i + 1], t + [y], rel)
  {
    forall k | 0 <= k < i + 1
      ensures rel(s[..i + 1][k], (t + [y])[k])
    {
      if k < i {
        assert s[..i + 1][k] == s[..i][k] && (t + [y])[k] == t[k];
      }
    }
  }

  /** No element occurs twice. */
  predicate Distinct<T(==)>(s: seq<T>)
  {
    forall i, j :: 0 <= i < j < |s| ==> s[i] != s[j]
  }
}
