/** Sequence helpers shared by the model: the `Iterator::position`/`find`
    first-match search, flattening and filtering, and `Vec::swap_remove`. */
module Seqs {
  import opened Wrappers

  /** Index of the first element satisfying `p`, as `Iterator::position` gives it. */
  function FindIndex<T>(s: seq<T>, p: T -> bool): (r: Option<nat>)
    ensures r.Some? ==> r.value < |s| && p(s[r.value])
    ensures r.Some? ==> forall j :: 0 <= j < r.value ==> !p(s[j])
    ensures r.None? <==> forall j :: 0 <= j < |s| ==> !p(s[j])
    decreases |s|
  {
    if |s| == 0 then None
    else if p(s[0]) then Some(0)
    else
      match FindIndex(s[1..], p)
      case None => None
      case Some(k) => Some(k + 1)
  }

  /** `collect::<Result<Vec<_>, _>>()`: all the values when every element is `Ok`,
      otherwise the error of the first `Err`. */
  function Collect<T, E>(xs: seq<Result<T, E>>): (r: Result<seq<T>, E>)
    ensures r.Ok? <==> forall i :: 0 <= i < |xs| ==> xs[i].Ok?
    ensures r.Ok? ==> |r.value| == |xs| && forall i :: 0 <= i < |xs| ==> r.value[i] == xs[i].value
    ensures r.Err? ==> exists i :: 0 <= i < |xs| && xs[i] == Err(r.error) && forall j :: 0 <= j < i ==> xs[j].Ok?
    decreases |xs|
  {
    if |xs| == 0 then Ok([])
    else if xs[0].Err? then Err(xs[0].error)
    else
      match Collect(xs[1..])
      case Err(e) => Err(e)
      case Ok(rest) => Ok([xs[0].value] + rest)
  }

  /** `flat_map` over a sequence of sequences, keeping the order. */
  function Flatten<T>(ss: seq<seq<T>>): seq<T>
    decreases |ss|
  {
    if |ss| == 0 then [] else ss[0] + Flatten(ss[1..])
  }

  /** An element is in the flattening exactly when it is in one of the parts. */
  lemma {:induction false} FlattenContains<T>(ss: seq<seq<T>>, x: T)
    ensures x in Flatten(ss) <==> exists i :: 0 <= i < |ss| && x in ss[i]
    decreases |ss|
  {
    if |ss| > 0 {
      FlattenContains(ss[1..], x);
      assert forall i :: 1 <= i < |ss| ==> ss[i] == ss[1..][i - 1];
      if x in Flatten(ss[1..]) {
        var i :| 0 <= i < |ss[1..]| && x in ss[1..][i];
        assert x in ss[i + 1];
      }
    }
  }

  /** `Vec::retain` / `Iterator::filter`: the elements satisfying `p`, in order. */
  function Filter<T>(s: seq<T>, p: T -> bool): (r: seq<T>)
    ensures |r| <= |s|
    ensures forall i :: 0 <= i < |r| ==> r[i] in s && p(r[i])
    ensures (forall i :: 0 <= i < |s| ==> p(s[i])) ==> r == s
    decreases |s|
  {
    if |s| == 0 then []
    else if p(s[0]) then [s[0]] + Filter(s[1..], p)
    else Filter(s[1..], p)
  }

  lemma {:induction false} FilterAppend<T>(a: seq<T>, b: seq<T>, p: T -> bool)
    ensures Filter(a + b, p) == Filter(a, p) + Filter(b, p)
    decreases |a|
  {
    if |a| == 0 {
      assert a + b == b;
    } else {
      assert (a + b)[1..] == a[1..] + b;
      FilterAppend(a[1..], b, p);
    }
  }

  /** Every two elements, taken in order, are related by `R`. */
  predicate Pairwise<T>(s: seq<T>, R: (T, T) -> bool) {
    forall a, b :: 0 <= a < b < |s| ==> R(s[a], s[b])
  }

  /** Filtering keeps a pairwise relation: the elements kept stay in their order. */
  lemma {:induction false} FilterKeepsPairwise<T>(s: seq<T>, p: T -> bool, R: (T, T) -> bool)
    requires Pairwise(s, R)
    ensures Pairwise(Filter(s, p), R)
    decreases |s|
  {
    if |s| > 0 {
      FilterKeepsPairwise(s[1..], p, R);
      if p(s[0]) {
        var rest := Filter(s[1..], p);
        var r := [s[0]] + rest;
        forall a, b | 0 <= a < b < |r|
          ensures R(r[a], r[b])
        {
          if a == 0 {
            assert r[b] == rest[b - 1] && rest[b - 1] in s[1..];
            var j :| 0 <= j < |s[1..]| && s[1..][j] == r[b];
            assert s[j + 1] == r[b];
          } else {
            assert r[a] == rest[a - 1] && r[b] == rest[b - 1];
          }
        }
      }
    }
  }

  /** `Vec::swap_remove(i)`: the last element takes the place of the removed one. */
  function SwapRemove<T>(s: seq<T>, i: nat): (r: seq<T>)
    requires i < |s|
  {
    if i == |s| - 1 then s[..i] else s[..i] + [s[|s| - 1]] + s[i + 1..|s| - 1]
  }

  /** swap_remove removes exactly one occurrence of `s[i]` and keeps every other element. */
  lemma SwapRemoveContents<T>(s: seq<T>, i: nat)
    requires i < |s|
    ensures |SwapRemove(s, i)| == |s| - 1
    ensures multiset(SwapRemove(s, i)) + multiset{s[i]} == multiset(s)
    ensures forall j :: 0 <= j < i ==> SwapRemove(s, i)[j] == s[j]
  {
    var n := |s|;
    if i == n - 1 {
      assert s == s[..i] + [s[i]];
    } else {
      assert s == s[..i] + [s[i]] + s[i + 1..n - 1] + [s[n - 1]];
    }
  }
}
