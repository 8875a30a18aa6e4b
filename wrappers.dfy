// Optional values and the first-match search shared by every module: the
// editors keep `null`/`undefined` for "nothing selected", "no wall found" and
// similar, and use `Array.prototype.find` and `filter` throughout.

module Wrappers {

  datatype Option<T> = None | Some(value: T)

  datatype Result<T> = Success(value: T) | Failure(error: string)

  /** `Array.prototype.filter`: the elements satisfying `keep`, in their original order. */
  function Filter<T(!new)>(s: seq<T>, keep: T -> bool): (r: seq<T>)
    ensures |r| <= |s|
    ensures forall x :: x in r <==> x in s && keep(x)
  {
    if s == [] then [] else (if keep(s[0]) then [s[0]] else []) + Filter(s[1..], keep)
  }

  lemma {:induction false} FilterConcat<T(!new)>(a: seq<T>, b: seq<T>, keep: T -> bool)
    ensures Filter(a + b, keep) == Filter(a, keep) + Filter(b, keep)
  {
    if a == [] {
      assert a + b == b;
    } else {
      assert (a + b)[1..] == a[1..] + b;
      FilterConcat(a[1..], b, keep);
    }
  }

  /** Filtering keeps the whole list exactly when every element passes. */
  lemma {:induction false} FilterKeepsAll<T(!new)>(s: seq<T>, keep: T -> bool)
    ensures Filter(s, keep) == s <==> forall x :: x in s ==> keep(x)
    ensures |Filter(s, keep)| == |s| <==> forall x :: x in s ==> keep(x)
  {
    if s != [] {
      FilterKeepsAll(s[1..], keep);
      if !keep(s[0]) {
        assert |Filter(s, keep)| < |s|;
      }
    }
  }

  /** Filtering a list whose elements all fail removes everything. */
  lemma {:induction false} FilterDropsAll<T(!new)>(s: seq<T>, keep: T -> bool)
    requires forall x :: x in s ==> !keep(x)
    ensures Filter(s, keep) == []
  {
    if s != [] {
      FilterDropsAll(s[1..], keep);
    }
  }

  /** Appending an element that passes appends it to the filtered list. */
  lemma FilterSnoc<T(!new)>(s: seq<T>, x: T, keep: T -> bool)
    ensures Filter(s + [x], keep) == Filter(s, keep) + (if keep(x) then [x] else [])
  {
    FilterConcat(s, [x], keep);
  }

  /** Filters with the same verdict on every element agree. */
  lemma {:induction false} FilterSameVerdict<T(!new)>(s: seq<T>, p: T -> bool, q: T -> bool)
    requires forall x :: p(x) == q(x)
    ensures Filter(s, p) == Filter(s, q)
  {
    if s != [] {
      FilterSameVerdict(s[1..], p, q);
    }
  }

  /** Two filters in a row keep what passes both. */
  lemma {:induction false} FilterFilter<T(!new)>(s: seq<T>, p: T -> bool, q: T -> bool, both: T -> bool)
    requires forall x :: both(x) == (p(x) && q(x))
    ensures Filter(Filter(s, p), q) == Filter(s, both)
  {
    if s != [] {
      FilterFilter(s[1..], p, q, both);
      var head := if p(s[0]) then [s[0]] else [];
      FilterConcat(head, Filter(s[1..], p), q);
      if p(s[0]) {
        assert Filter(head, q) == (if q(s[0]) then [s[0]] else []) by {
          assert head[1..] == [];
        }
      }
    }
  }

  /** `P` holds of every ordered pair of elements at distinct positions. */
  ghost predicate Pairwise<T>(s: seq<T>, P: (T, T) -> bool)
  {
    forall i, j :: 0 <= i < |s| && 0 <= j < |s| && i != j ==> P(s[i], s[j])
  }

  /** A property of all pairs survives filtering, which only drops elements. */
  lemma {:induction false} FilterPairwise<T(!new)>(s: seq<T>, keep: T -> bool, P: (T, T) -> bool)
    requires Pairwise(s, P)
    ensures Pairwise(Filter(s, keep), P)
  {
    if s != [] {
      var rest := s[1..];
      assert Pairwise(rest, P) by {
        forall i, j | 0 <= i < |rest| && 0 <= j < |rest| && i != j ensures P(rest[i], rest[j]) {
          assert rest[i] == s[i + 1] && rest[j] == s[j + 1];
        }
      }
      FilterPairwise(rest, keep, P);
      var tail := Filter(rest, keep);
      if keep(s[0]) {
        var r := Filter(s, keep);
        assert r == [s[0]] + tail;
        forall i, j | 0 <= i < |r| && 0 <= j < |r| && i != j ensures P(r[i], r[j]) {
          if i == 0 {
            assert r[j] == tail[j - 1] && tail[j - 1] in rest;
            var k :| 0 <= k < |rest| && rest[k] == tail[j - 1];
            assert s[k + 1] == r[j];
          } else if j == 0 {
            assert r[i] == tail[i - 1] && tail[i - 1] in rest;
            var k :| 0 <= k < |rest| && rest[k] == tail[i - 1];
            assert s[k + 1] == r[i];
          } else {
            assert r[i] == tail[i - 1] && r[j] == tail[j - 1];
          }
        }
      }
    }
  }

  /** `Array.prototype.find`: the first element satisfying `p`. */
  function Find<T>(s: seq<T>, p: T -> bool): (r: Option<T>)
    ensures r.None? <==> forall i :: 0 <= i < |s| ==> !p(s[i])
    ensures r.Some? ==> exists i :: 0 <= i < |s| && s[i] == r.value && p(s[i])
                                    && forall j :: 0 <= j < i ==> !p(s[j])
  {
    if s == [] then None
    else if p(s[0]) then Some(s[0])
    else
      var r := Find(s[1..], p);
      assert r.Some? ==> exists i :: 1 <= i < |s| && s[i] == r.value && p(s[i])
                                     && forall j :: 0 <= j < i ==> !p(s[j]) by {
        if r.Some? {
          var i :| 0 <= i < |s[1..]| && s[1..][i] == r.value && p(s[1..][i])
                   && forall j :: 0 <= j < i ==> !p(s[1..][j]);
          assert forall j :: 1 <= j < i + 1 ==> !p(s[j]) by {
            forall j | 1 <= j < i + 1 ensures !p(s[j]) { assert s[j] == s[1..][j - 1]; }
          }
        }
      }
      r
  }

  /**
   * Index of the latest element of `es[..n]` that `hit` accepts: the scan runs
   * from the end of the list, so the topmost element wins.
   */
  function LatestHitIndex<T>(es: seq<T>, n: nat, hit: T -> bool): (k: Option<nat>)
    requires n <= |es|
    ensures k.None? <==> forall i :: 0 <= i < n ==> !hit(es[i])
    ensures k.Some? ==> k.value < n && hit(es[k.value])
                        && forall j :: k.value < j < n ==> !hit(es[j])
  {
    if n == 0 then None
    else if hit(es[n - 1]) then Some(n - 1)
    else LatestHitIndex(es, n - 1, hit)
  }

  /** One step of the backward scan: the element at `n - 1` is looked at first. */
  lemma LatestHitStep<T>(es: seq<T>, n: nat, hit: T -> bool)
    requires 0 < n <= |es|
    ensures LatestHitIndex(es, n, hit) == if hit(es[n - 1]) then Some(n - 1) else LatestHitIndex(es, n - 1, hit)
  {
  }

  /** `Array.prototype.findIndex`: the index of the first element satisfying `p`. */
  function FindIndex<T>(s: seq<T>, p: T -> bool): (r: Option<nat>)
    ensures r.None? <==> forall i :: 0 <= i < |s| ==> !p(s[i])
    ensures r.Some? ==> r.value < |s| && p(s[r.value]) && forall j :: 0 <= j < r.value ==> !p(s[j])
  {
    if s == [] then None
    else if p(s[0]) then Some(0)
    else
      var r := FindIndex(s[1..], p);
      assert forall i :: 1 <= i < |s| ==> s[i] == s[1..][i - 1];
      if r.Some? then Some(r.value + 1) else None
  }

  /** `splice(i, 1)` for an index inside the list. */
  function RemoveAt<T>(s: seq<T>, i: nat): (r: seq<T>)
    requires i < |s|
    ensures |r| == |s| - 1
    ensures forall j :: 0 <= j < i ==> r[j] == s[j]
    ensures forall j :: i <= j < |r| ==> r[j] == s[j + 1]
  {
    s[..i] + s[i + 1..]
  }
}
