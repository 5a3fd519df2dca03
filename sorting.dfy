/**
 * Python's `list.sort(key=key, reverse=True)` for a real-valued key: a stable sort, highest key
 * first. Specified by a functional insertion sort; the in-place method shifts array elements.
 */
module Sorting {
  import opened Seqs

  /** Highest key first. */
  ghost predicate SortedDesc<T>(s: seq<T>, key: T -> real) {
    forall i, j :: 0 <= i < j < |s| ==> key(s[i]) >= key(s[j])
  }

  /** Puts `x` after every element whose key is at least `x`'s, before the first whose key is smaller. */
  function Insert<T>(x: T, s: seq<T>, key: T -> real): (r: seq<T>)
    ensures |r| == |s| + 1
  {
    if s == [] then [x]
    else if key(s[0]) < key(x) then [x] + s
    else
      assert s == [s[0]] + s[1..];
      [s[0]] + Insert(x, s[1..], key)
  }

  /** Inserting adds `x` and keeps every other element. */
  lemma {:induction false} InsertPermutes<T>(x: T, s: seq<T>, key: T -> real)
    ensures multiset(Insert(x, s, key)) == multiset(s) + multiset{x}
  {
    if s != [] && key(s[0]) >= key(x) {
      InsertPermutes(x, s[1..], key);
      assert s == [s[0]] + s[1..];
    }
  }

  /** Inserting into a sorted list keeps it sorted. */
  lemma {:induction false} InsertSorted<T>(x: T, s: seq<T>, key: T -> real)
    requires SortedDesc(s, key)
    ensures SortedDesc(Insert(x, s, key), key)
  {
    if s != [] && key(s[0]) >= key(x) {
      var rest := Insert(x, s[1..], key);
      InsertSorted(x, s[1..], key);
      InsertPermutes(x, s[1..], key);
      forall j | 0 <= j < |rest|
        ensures key(s[0]) >= key(rest[j])
      {
        assert rest[j] in multiset(rest);
        if rest[j] != x {
          assert rest[j] in multiset(s[1..]);
          var k :| 0 <= k < |s[1..]| && s[1..][k] == rest[j];
          assert s[k + 1] == rest[j];
        }
      }
    }
  }

  /** Stable insertion sort, highest key first. */
  function SortByKey<T>(s: seq<T>, key: T -> real): (r: seq<T>)
    ensures |r| == |s|
  {
    if s == [] then []
    else
      assert s == s[..|s| - 1] + [s[|s| - 1]];
      Insert(s[|s| - 1], SortByKey(s[..|s| - 1], key), key)
  }

  /** The sort is a permutation of its input. */
  lemma {:induction false} SortByKeyPermutes<T>(s: seq<T>, key: T -> real)
    ensures multiset(SortByKey(s, key)) == multiset(s)
  {
    if s != [] {
      SortByKeyPermutes(s[..|s| - 1], key);
      InsertPermutes(s[|s| - 1], SortByKey(s[..|s| - 1], key), key);
      assert s == s[..|s| - 1] + [s[|s| - 1]];
    }
  }

  /** The result of the sort is sorted. */
  lemma {:induction false} SortByKeySorted<T>(s: seq<T>, key: T -> real)
    ensures SortedDesc(SortByKey(s, key), key)
  {
    if s != [] {
      SortByKeySorted(s[..|s| - 1], key);
      InsertSorted(s[|s| - 1], SortByKey(s[..|s| - 1], key), key);
    }
  }

  function KeyIs<T>(key: T -> real, v: real): T -> bool {
    (x: T) => key(x) == v
  }

  /** Inserting `x` into a sorted list keeps the elements of every key in order, `x` last among its equals. */
  lemma {:induction false} InsertKeepsOrder<T(!new)>(x: T, t: seq<T>, key: T -> real, v: real)
    requires SortedDesc(t, key)
    ensures Filter(Insert(x, t, key), KeyIs(key, v)) == Filter(t, KeyIs(key, v)) + (if key(x) == v then [x] else [])
  {
    var p := KeyIs(key, v);
    FilterSingleton(x, p);
    if t == [] {
      assert Insert(x, t, key) == [x];
      assert Filter(t, p) == [];
    } else if key(t[0]) < key(x) {
      InsertInFront(x, t, key, v);
    } else {
      var rest := t[1..];
      assert SortedDesc(rest, key) by {
        forall i, j | 0 <= i < j < |rest| ensures key(rest[i]) >= key(rest[j]) {
          assert rest[i] == t[i + 1] && rest[j] == t[j + 1];
        }
      }
      InsertKeepsOrder(x, rest, key, v);
      InsertBehind(x, t, key, v);
    }
  }

  /** When `x` does not outrank the head of the list, it is inserted into the tail. */
  lemma InsertBehind<T(!new)>(x: T, t: seq<T>, key: T -> real, v: real)
    requires t != [] && key(t[0]) >= key(x)
    requires Filter(Insert(x, t[1..], key), KeyIs(key, v)) == Filter(t[1..], KeyIs(key, v)) + (if key(x) == v then [x] else [])
    ensures Filter(Insert(x, t, key), KeyIs(key, v)) == Filter(t, KeyIs(key, v)) + (if key(x) == v then [x] else [])
  {
    var p := KeyIs(key, v);
    var rest := t[1..];
    var e := if key(x) == v then [x] else [];
    assert t == [t[0]] + rest;
    assert Insert(x, t, key) == [t[0]] + Insert(x, rest, key);
    FilterAppend([t[0]], Insert(x, rest, key), p);
    FilterAppend([t[0]], rest, p);
    AppendAssoc(Filter([t[0]], p), Filter(rest, p), e);
  }


  /** When `x` outranks the whole sorted list, it goes in front and no element of the list shares its key. */
  lemma InsertInFront<T(!new)>(x: T, t: seq<T>, key: T -> real, v: real)
    requires SortedDesc(t, key)
    requires t != [] && key(t[0]) < key(x)
    ensures Filter(Insert(x, t, key), KeyIs(key, v)) == Filter(t, KeyIs(key, v)) + (if key(x) == v then [x] else [])
  {
    var p := KeyIs(key, v);
    assert Insert(x, t, key) == [x] + t;
    FilterAppend([x], t, p);
    FilterSingleton(x, p);
    if key(x) == v {
      assert forall k :: 0 <= k < |t| ==> !p(t[k]) by {
        forall k | 0 <= k < |t| ensures !p(t[k]) {
          assert key(t[k]) <= key(t[0]);
        }
      }
      FilterNone(t, p);
    }
  }

  /** The sort is stable: the elements sharing any one key come out in their input order. */
  lemma {:induction false} SortByKeyStable<T(!new)>(s: seq<T>, key: T -> real, v: real)
    ensures Filter(SortByKey(s, key), KeyIs(key, v)) == Filter(s, KeyIs(key, v))
  {
    if s != [] {
      var init, x := s[..|s| - 1], s[|s| - 1];
      SortByKeyStable(init, key, v);
      SortByKeySorted(init, key);
      InsertKeepsOrder(x, SortByKey(init, key), key, v);
      assert s == init + [x];
      FilterAppend(init, [x], KeyIs(key, v));
      assert [x] == [] + [x];
    }
  }

  /** Where the in-place shift leaves `x`: after the prefix whose keys are at least `x`'s, before the rest. */
  lemma {:induction false} InsertAt<T>(x: T, t: seq<T>, key: T -> real, j: nat)
    requires j <= |t|
    requires forall k :: 0 <= k < j ==> key(t[k]) >= key(x)
    requires forall k :: j <= k < |t| ==> key(t[k]) < key(x)
    ensures Insert(x, t, key) == t[..j] + [x] + t[j..]
  {
    if t != [] && j > 0 {
      InsertAt(x, t[1..], key, j - 1);
      assert t[1..][..j - 1] == t[1..j];
      assert t[..j] == [t[0]] + t[1..j];
    }
  }

  /** After the shift: the prefix kept, `x` at `j`, the shifted block behind it is the insertion of `x`. */
  lemma ShiftedIsInsert<T>(s: seq<T>, sorted: seq<T>, x: T, key: T -> real, j: nat)
    requires SortedDesc(sorted, key)
    requires j <= |sorted| < |s|
    requires forall k :: 0 <= k < j ==> s[k] == sorted[k]
    requires s[j] == x
    requires forall k :: j < k <= |sorted| ==> s[k] == sorted[k - 1]
    requires forall k :: j <= k < |sorted| ==> key(sorted[k]) < key(x)
    requires j == 0 || key(sorted[j - 1]) >= key(x)
    ensures s[..|sorted| + 1] == Insert(x, sorted, key)
  {
    forall k | 0 <= k < j
      ensures key(sorted[k]) >= key(x)
    {
      assert key(sorted[k]) >= key(sorted[j - 1]);
    }
    InsertAt(x, sorted, key, j);
    Spliced(s, sorted, x, j);
  }

  /** A sequence that agrees with `sorted` before `j`, holds `x` at `j` and `sorted` shifted by one after it. */
  lemma Spliced<T>(s: seq<T>, sorted: seq<T>, x: T, j: nat)
    requires j <= |sorted| < |s|
    requires forall k :: 0 <= k < j ==> s[k] == sorted[k]
    requires s[j] == x
    requires forall k :: j < k <= |sorted| ==> s[k] == sorted[k - 1]
    ensures s[..|sorted| + 1] == sorted[..j] + [x] + sorted[j..]
  {
    var n := |sorted|;
    var spliced := sorted[..j] + [x] + sorted[j..];
    forall k | 0 <= k <= n
      ensures s[k] == spliced[k]
    {
      if k < j {
        assert spliced[k] == sorted[k];
      } else if k > j {
        assert spliced[k] == sorted[k - 1];
      }
    }
  }

  /** One step of the in-place sort: moves `a[i]` left into the sorted prefix `a[..i]`. */
  method InsertInPlace<T>(a: array<T>, i: nat, key: T -> real)
    requires i < a.Length
    requires SortedDesc(a[..i], key)
    modifies a
    ensures a[..i + 1] == Insert(old(a[i]), old(a[..i]), key)
    ensures forall k :: i < k < a.Length ==> a[k] == old(a[k])
  {
    var x := a[i];
    ghost var sorted := a[..i];
    var j := i;
    while j > 0 && key(a[j - 1]) < key(x)
      invariant 0 <= j <= i
      invariant forall k :: 0 <= k < j ==> a[k] == sorted[k]
      invariant forall k :: j < k <= i ==> a[k] == sorted[k - 1]
      invariant forall k :: i < k < a.Length ==> a[k] == old(a[k])
      invariant forall k :: j <= k < i ==> key(sorted[k]) < key(x)
    {
      a[j] := a[j - 1];
      j := j - 1;
    }
    a[j] := x;
    ShiftedIsInsert(a[..], sorted, x, key, j);
  }

  /** Insertion sort in place: each element moves left past the elements whose key is smaller. */
  method SortByKeyInPlace<T>(a: array<T>, key: T -> real)
    modifies a
    ensures a[..] == SortByKey(old(a[..]), key)
  {
    ghost var input := a[..];
    var i := 0;
    while i < a.Length
      invariant 0 <= i <= a.Length
      invariant a[..i] == SortByKey(input[..i], key)
      invariant forall k :: i <= k < a.Length ==> a[k] == input[k]
    {
      SortByKeySorted(input[..i], key);
      InsertInPlace(a, i, key);
      assert input[..i + 1] == input[..i] + [input[i]];
      i := i + 1;
    }
    assert input[..a.Length] == input;
    assert a[..a.Length] == a[..];
  }

  /** The first `n` of the sort are sorted. */
  lemma TopSorted<T>(s: seq<T>, key: T -> real, n: nat)
    ensures SortedDesc(Top(SortByKey(s, key), n), key)
  {
    var sorted := SortByKey(s, key);
    var r := Top(sorted, n);
    SortByKeySorted(s, key);
    forall i, j | 0 <= i < j < |r|
      ensures key(r[i]) >= key(r[j])
    {
      assert r[i] == sorted[i] && r[j] == sorted[j];
    }
  }

  /** Everything among the first `n` of the sort comes from the input. */
  lemma TopFromInput<T>(s: seq<T>, key: T -> real, n: nat, x: T)
    requires x in Top(SortByKey(s, key), n)
    ensures x in s
  {
    var sorted := SortByKey(s, key);
    SortByKeyPermutes(s, key);
    var k :| 0 <= k < |Top(sorted, n)| && Top(sorted, n)[k] == x;
    assert sorted[k] == x;
    assert x in multiset(sorted);
  }

  /** An input element missing from the first `n` of the sort is outranked by all `n` of them. */
  lemma TopOutranks<T>(s: seq<T>, key: T -> real, n: nat, x: T)
    requires x in s
    ensures var r := Top(SortByKey(s, key), n);
      x in r || (|r| == n && forall k :: 0 <= k < n ==> key(r[k]) >= key(x))
  {
    var sorted := SortByKey(s, key);
    var r := Top(sorted, n);
    SortByKeyPermutes(s, key);
    SortByKeySorted(s, key);
    assert x in multiset(sorted);
    var i :| 0 <= i < |sorted| && sorted[i] == x;
    if i < n {
      assert r[i] == x;
    } else {
      forall k | 0 <= k < n
        ensures key(r[k]) >= key(x)
      {
        assert r[k] == sorted[k];
      }
    }
  }
}
