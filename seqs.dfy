/** The array operations the source chains together (`filter`, `reduce`,
    `slice`), stated once over sequences, with the facts the rest of the model
    uses about them. */
module Seqs {
  import opened Wrappers

  /** `r` is made of elements of `s`, taken in the order they have in `s`. */
  ghost predicate Subsequence<T>(r: seq<T>, s: seq<T>)
    decreases |s|
  {
    r == [] || (s != [] && ((r[0] == s[0] && Subsequence(r[1..], s[1..])) || Subsequence(r, s[1..])))
  }

  /** `s.filter(p)`: the elements of `s` satisfying `p`, in order. */
  function Filter<T(==,!new)>(s: seq<T>, p: T -> bool): (r: seq<T>)
    ensures |r| <= |s|
    ensures forall x :: x in r <==> x in s && p(x)
  {
    if s == [] then []
    else if p(s[0]) then [s[0]] + Filter(s[1..], p) else Filter(s[1..], p)
  }

  /** What a filter keeps, counted with multiplicity, and that it keeps the order. */
  lemma {:induction false} FilterKeepsOrder<T(!new)>(s: seq<T>, p: T -> bool)
    ensures forall x :: multiset(Filter(s, p))[x] == if p(x) then multiset(s)[x] else 0
    ensures Subsequence(Filter(s, p), s)
  {
    if s != [] {
      FilterKeepsOrder(s[1..], p);
      assert s == [s[0]] + s[1..];
    }
  }

  lemma {:induction false} FilterCons<T(!new)>(x: T, s: seq<T>, p: T -> bool)
    ensures Filter([x] + s, p) == (if p(x) then [x] else []) + Filter(s, p)
  {
    assert ([x] + s)[1..] == s;
  }

  lemma {:induction false} FilterAppend<T(!new)>(a: seq<T>, b: seq<T>, p: T -> bool)
    ensures Filter(a + b, p) == Filter(a, p) + Filter(b, p)
  {
    if a == [] {
      assert a + b == b;
    } else {
      assert (a + b)[0] == a[0];
      assert (a + b)[1..] == a[1..] + b;
      FilterAppend(a[1..], b, p);
    }
  }

  /** A filter whose predicate holds everywhere keeps the whole sequence. */
  lemma {:induction false} FilterKeepsAll<T(!new)>(s: seq<T>, p: T -> bool)
    requires forall i :: 0 <= i < |s| ==> p(s[i])
    ensures Filter(s, p) == s
  {
    if s != [] {
      FilterKeepsAll(s[1..], p);
    }
  }

  /** Two filters in a row are one filter by the conjunction. */
  lemma {:induction false} FilterFilter<T(!new)>(s: seq<T>, p: T -> bool, q: T -> bool, pq: T -> bool)
    requires forall x :: pq(x) == (p(x) && q(x))
    ensures Filter(Filter(s, p), q) == Filter(s, pq)
  {
    if s != [] {
      FilterFilter(s[1..], p, q, pq);
      if p(s[0]) {
        FilterCons(s[0], Filter(s[1..], p), q);
      }
    }
  }

  /** Filters by pointwise-equal predicates agree. */
  lemma {:induction false} FilterSamePredicate<T(!new)>(s: seq<T>, p: T -> bool, q: T -> bool)
    requires forall i :: 0 <= i < |s| ==> p(s[i]) == q(s[i])
    ensures Filter(s, p) == Filter(s, q)
  {
    if s != [] {
      FilterSamePredicate(s[1..], p, q);
    }
  }

  /** Replacing an element the filter drops by another one it drops changes nothing. */
  lemma {:induction false} FilterUpdate<T(!new)>(s: seq<T>, i: int, y: T, p: T -> bool)
    requires 0 <= i < |s| && !p(s[i]) && !p(y)
    ensures Filter(s[i := y], p) == Filter(s, p)
  {
    var a, b := s[..i], s[i + 1..];
    assert s == a + ([s[i]] + b);
    assert s[i := y] == a + ([y] + b);
    FilterAppend(a, [s[i]] + b, p);
    FilterAppend(a, [y] + b, p);
    FilterCons(s[i], b, p);
    FilterCons(y, b, p);
  }

  /** Every two elements of `s`, taken in order, are related by `rel`. */
  ghost predicate Pairwise<T>(s: seq<T>, rel: (T, T) -> bool)
  {
    forall i, j :: 0 <= i < j < |s| ==> rel(s[i], s[j])
  }

  /** A filter keeps a pairwise property: it only drops elements. */
  lemma {:induction false} FilterPairwise<T(!new)>(s: seq<T>, p: T -> bool, rel: (T, T) -> bool)
    requires Pairwise(s, rel)
    ensures Pairwise(Filter(s, p), rel)
  {
    if s != [] {
      var t := s[1..];
      assert Pairwise(t, rel) by {
        forall i, j | 0 <= i < j < |t| ensures rel(t[i], t[j]) {
          assert t[i] == s[i + 1] && t[j] == s[j + 1];
        }
      }
      FilterPairwise(t, p, rel);
      if p(s[0]) {
        var r := Filter(s, p);
        var ft := Filter(t, p);
        assert r == [s[0]] + ft;
        forall i, j | 0 <= i < j < |r| ensures rel(r[i], r[j]) {
          if i == 0 {
            assert r[j] == ft[j - 1] && ft[j - 1] in t;
            var k :| 0 <= k < |t| && t[k] == ft[j - 1];
            assert s[k + 1] == t[k];
          } else {
            assert r[i] == ft[i - 1] && r[j] == ft[j - 1];
          }
        }
      }
    }
  }

  /** The positions of `s` whose element satisfies `p`: an independent
      account of what a filter keeps. */
  ghost function Positions<T>(s: seq<T>, p: T -> bool): set<int>
  {
    set i | 0 <= i < |s| && p(s[i])
  }

  /** Appending one element adds its position when it satisfies `p`. */
  lemma {:induction false} PositionsSnoc<T>(t: seq<T>, x: T, p: T -> bool)
    ensures Positions(t + [x], p) == Positions(t, p) + (if p(x) then {|t|} else {})
    ensures |t| !in Positions(t, p)
  {
    var s := t + [x];
    assert forall i :: 0 <= i < |t| ==> s[i] == t[i];
  }

  /** `s.filter(p).length` is the number of positions satisfying `p`. */
  lemma {:induction false} FilterLength<T(!new)>(s: seq<T>, p: T -> bool)
    ensures |Filter(s, p)| == |Positions(s, p)|
  {
    if s != [] {
      var n := |s| - 1;
      var t := s[..n];
      assert s == t + [s[n]];
      FilterLength(t, p);
      FilterAppend(t, [s[n]], p);
      FilterCons(s[n], [], p);
      PositionsSnoc(t, s[n], p);
    }
  }

  /** `s.reduce((sum, x) => sum + f(x), acc)`, a left fold as the source runs it. */
  function FoldSum<T>(s: seq<T>, acc: int, f: T -> int): int
  {
    if s == [] then acc else FoldSum(s[1..], acc + f(s[0]), f)
  }

  /** The plain sum of `f` over `s`. */
  function Sum<T>(s: seq<T>, f: T -> int): int
  {
    if s == [] then 0 else f(s[0]) + Sum(s[1..], f)
  }

  /** The sum of `f` over the elements satisfying `p`; the others count 0. */
  function SumWhere<T>(s: seq<T>, p: T -> bool, f: T -> int): int
  {
    if s == [] then 0 else (if p(s[0]) then f(s[0]) else 0) + SumWhere(s[1..], p, f)
  }

  lemma {:induction false} FoldSumIsSum<T>(s: seq<T>, acc: int, f: T -> int)
    ensures FoldSum(s, acc, f) == acc + Sum(s, f)
  {
    if s != [] {
      FoldSumIsSum(s[1..], acc + f(s[0]), f);
    }
  }

  /** Summing over a filter is summing everything with the rejected ones at 0. */
  lemma {:induction false} SumOfFilter<T(!new)>(s: seq<T>, p: T -> bool, f: T -> int)
    ensures Sum(Filter(s, p), f) == SumWhere(s, p, f)
  {
    if s != [] {
      SumOfFilter(s[1..], p, f);
      if p(s[0]) {
        assert ([s[0]] + Filter(s[1..], p))[1..] == Filter(s[1..], p);
      }
    }
  }

  /** Summing a function that is 0 outside `p` over everything. */
  lemma {:induction false} SumWhereAsSum<T>(s: seq<T>, p: T -> bool, f: T -> int, g: T -> int)
    requires forall x :: g(x) == if p(x) then f(x) else 0
    ensures SumWhere(s, p, f) == Sum(s, g)
  {
    if s != [] {
      SumWhereAsSum(s[1..], p, f, g);
    }
  }

  /** `SumWhere` only looks at `p` and `f` on the elements of `s`. */
  lemma {:induction false} SumWhereSame<T>(s: seq<T>, p: T -> bool, f: T -> int, q: T -> bool, g: T -> int)
    requires forall i :: 0 <= i < |s| ==> p(s[i]) == q(s[i])
    requires forall i :: 0 <= i < |s| && p(s[i]) ==> f(s[i]) == g(s[i])
    ensures SumWhere(s, p, f) == SumWhere(s, q, g)
  {
    if s != [] {
      SumWhereSame(s[1..], p, f, q, g);
    }
  }

  /** `s.findIndex(p)`: the first position satisfying `p`, or -1. */
  function FindIndex<T>(s: seq<T>, p: T -> bool): (r: int)
    ensures -1 <= r < |s|
    ensures r >= 0 ==> p(s[r]) && forall j :: 0 <= j < r ==> !p(s[j])
    ensures r == -1 ==> forall j :: 0 <= j < |s| ==> !p(s[j])
  {
    if s == [] then -1
    else if p(s[0]) then 0
    else
      var k := FindIndex(s[1..], p);
      if k == -1 then -1 else k + 1
  }

  /** `s.find(p)`: the first element satisfying `p`, if any. */
  function Find<T>(s: seq<T>, p: T -> bool): (r: Option<T>)
    ensures r.Some? <==> FindIndex(s, p) >= 0
    ensures r.Some? ==> r.value == s[FindIndex(s, p)] && p(r.value)
    ensures r.None? <==> forall j :: 0 <= j < |s| ==> !p(s[j])
  {
    var i := FindIndex(s, p);
    if i == -1 then None else Some(s[i])
  }

  /** `s.some(p)`. */
  predicate Exists<T>(s: seq<T>, p: T -> bool)
  {
    exists i :: 0 <= i < |s| && p(s[i])
  }

  /** `s.slice(0, n)`. */
  function Take<T>(s: seq<T>, n: nat): (r: seq<T>)
    ensures |r| == if n < |s| then n else |s|
    ensures forall i :: 0 <= i < |r| ==> r[i] == s[i]
  {
    if n < |s| then s[..n] else s
  }
}
