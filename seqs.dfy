/** Generic sequence queries: "first row that matches" and "all rows that match, in storage order". */
module Seqs {
  import opened Wrappers

  /** Index of the first element of `s` satisfying `p`, or None when there is none. */
  function FirstIndex<T>(s: seq<T>, p: T -> bool): (r: Option<nat>)
    ensures r.Some? ==> r.value < |s| && p(s[r.value]) && forall j :: 0 <= j < r.value ==> !p(s[j])
    ensures r.None? ==> forall j :: 0 <= j < |s| ==> !p(s[j])
  {
    if s == [] then None
    else if p(s[0]) then Some(0)
    else match FirstIndex(s[1..], p)
      case None => None
      case Some(k) => Some(k + 1)
  }

  /** The elements of `s` satisfying `p`, in the order of `s`. */
  function Filter<T(!new)>(s: seq<T>, p: T -> bool): (r: seq<T>)
    ensures |r| <= |s|
    ensures forall x :: x in r <==> x in s && p(x)
  {
    if s == [] then []
    else
      assert s == s[..|s| - 1] + [s[|s| - 1]];
      Filter(s[..|s| - 1], p) + (if p(s[|s| - 1]) then [s[|s| - 1]] else [])
  }

  /** No element occurs twice. */
  ghost predicate Distinct<T>(s: seq<T>) {
    forall i, j :: 0 <= i < j < |s| ==> s[i] != s[j]
  }

  /** Filtering keeps distinct rows distinct: every row is returned at most once. */
  lemma {:induction false} FilterDistinct<T(!new)>(s: seq<T>, p: T -> bool)
    requires Distinct(s)
    ensures Distinct(Filter(s, p))
  {
    if s != [] {
      var init, last := s[..|s| - 1], s[|s| - 1];
      assert Distinct(init);
      FilterDistinct(init, p);
      assert last !in init;
      assert last !in Filter(init, p);
    }
  }

  /** Filtering distributes over concatenation, so it keeps the order of the input. */
  lemma {:induction false} FilterAppend<T(!new)>(a: seq<T>, b: seq<T>, p: T -> bool)
    ensures Filter(a + b, p) == Filter(a, p) + Filter(b, p)
  {
    if b != [] {
      var init := b[..|b| - 1];
      assert (a + b)[..|a + b| - 1] == a + init;
      FilterAppend(a, init, p);
    } else {
      assert a + b == a;
    }
  }

  lemma FilterSingleton<T(!new)>(x: T, p: T -> bool)
    ensures Filter([x], p) == if p(x) then [x] else []
  {
    assert [x][..0] == [];
  }

  /** At most one element of `s` satisfies `p`. */
  ghost predicate AtMostOne<T>(s: seq<T>, p: T -> bool) {
    forall i, j :: 0 <= i < j < |s| && p(s[i]) ==> !p(s[j])
  }

  /** When at most one element qualifies, the filter returns at most one row. */
  lemma {:induction false} FilterAtMostOne<T(!new)>(s: seq<T>, p: T -> bool)
    requires AtMostOne(s, p)
    ensures |Filter(s, p)| <= 1
  {
    if s != [] {
      var init, last := s[..|s| - 1], s[|s| - 1];
      assert AtMostOne(init, p);
      FilterAtMostOne(init, p);
      if p(last) {
        assert forall k :: 0 <= k < |init| ==> !p(init[k]);
        FilterNone(init, p);
      }
    }
  }

  /** Nothing qualifies, nothing is returned. */
  lemma {:induction false} FilterNone<T(!new)>(s: seq<T>, p: T -> bool)
    requires forall k :: 0 <= k < |s| ==> !p(s[k])
    ensures Filter(s, p) == []
  {
    if s != [] {
      FilterNone(s[..|s| - 1], p);
    }
  }

  /** Filtering with two predicates that agree on every element gives the same rows. */
  lemma {:induction false} FilterCongruent<T(!new)>(s: seq<T>, p: T -> bool, q: T -> bool)
    requires forall k :: 0 <= k < |s| ==> p(s[k]) == q(s[k])
    ensures Filter(s, p) == Filter(s, q)
  {
    if s != [] {
      FilterCongruent(s[..|s| - 1], p, q);
    }
  }

  /** Concatenation regroups; stated apart so that proofs about `Filter` need not rediscover it. */
  lemma AppendAssoc<T>(a: seq<T>, b: seq<T>, c: seq<T>)
    ensures a + (b + c) == (a + b) + c
  {
  }

  /** `s[:n]`: the first `n` elements, or all of them when there are fewer. */
  function Top<T>(s: seq<T>, n: nat): (r: seq<T>)
    ensures |r| == if |s| < n then |s| else n
    ensures forall k :: 0 <= k < |r| ==> r[k] == s[k]
  {
    if |s| <= n then s else s[..n]
  }

  /** A positive number of leading elements is empty only when the whole sequence is. */
  lemma TopEmpty<T>(s: seq<T>, n: nat)
    requires n > 0
    ensures Top(s, n) == [] <==> s == []
  {
  }

  /** What `f` yields for the elements of `s`, in order, skipping the elements it yields nothing for. */
  function Collect<T, U>(s: seq<T>, f: T -> Option<U>): (r: seq<U>)
    ensures |r| <= |s|
  {
    if s == [] then []
    else
      var last := f(s[|s| - 1]);
      Collect(s[..|s| - 1], f) + (if last.Some? then [last.value] else [])
  }

  /** Collecting keeps order: the values of two batches are those of each batch, in turn. */
  lemma {:induction false} CollectAppend<T, U>(a: seq<T>, b: seq<T>, f: T -> Option<U>)
    ensures Collect(a + b, f) == Collect(a, f) + Collect(b, f)
  {
    if b != [] {
      var n := |b| - 1;
      assert (a + b)[..|a + b| - 1] == a + b[..n];
      CollectAppend(a, b[..n], f);
    } else {
      assert a + b == a;
    }
  }

  /** Every element `f` yields a value for contributes that value. */
  lemma {:induction false} CollectIncludes<T, U>(s: seq<T>, f: T -> Option<U>, k: nat)
    requires k < |s| && f(s[k]).Some?
    ensures f(s[k]).value in Collect(s, f)
  {
    var n := |s| - 1;
    if k < n {
      assert s[..n][k] == s[k];
      CollectIncludes(s[..n], f, k);
    }
  }

  /** Every collected value is what `f` yields for some element. */
  lemma {:induction false} CollectFrom<T, U>(s: seq<T>, f: T -> Option<U>, x: U)
    requires x in Collect(s, f)
    ensures exists k :: 0 <= k < |s| && f(s[k]) == Some(x)
  {
    var n := |s| - 1;
    if f(s[n]) != Some(x) {
      CollectFrom(s[..n], f, x);
      var k :| 0 <= k < n && f(s[..n][k]) == Some(x);
      assert s[..n][k] == s[k];
    }
  }
}
