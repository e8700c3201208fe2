/** The ranking sort of the dashboard: `Array.prototype.sort` with the
    comparator `(a, b) => key(b) - key(a)`. The language guarantees that this
    sort is stable, so the result is the permutation of the input that is
    non-increasing by key and keeps equal-key elements in their input order;
    insertion sort computes exactly that permutation. */
module Sorting {
  import opened Seqs

  /** Non-increasing by `key`. */
  ghost predicate SortedDesc<T>(s: seq<T>, key: T -> real)
  {
    forall i, j :: 0 <= i < j < |s| ==> key(s[i]) >= key(s[j])
  }

  /** `x` placed in front of the first element whose key is not above its own. */
  function Insert<T>(x: T, s: seq<T>, key: T -> real): (r: seq<T>)
    ensures |r| == |s| + 1
  {
    if s == [] then [x]
    else if key(x) >= key(s[0]) then [x] + s
    else [s[0]] + Insert(x, s[1..], key)
  }

  /** Insertion adds `x` and loses nothing. */
  lemma {:induction false} InsertPermutes<T>(x: T, s: seq<T>, key: T -> real)
    ensures multiset(Insert(x, s, key)) == multiset(s) + multiset{x}
  {
    if s != [] && key(x) < key(s[0]) {
      InsertPermutes(x, s[1..], key);
      assert s == [s[0]] + s[1..];
    }
  }

  /** A bound on every key of `s` and on the key of `x` bounds every key after
      the insertion. */
  lemma {:induction false} InsertBounded<T>(x: T, s: seq<T>, key: T -> real, bound: real)
    requires key(x) <= bound
    requires forall i :: 0 <= i < |s| ==> key(s[i]) <= bound
    ensures forall i :: 0 <= i < |Insert(x, s, key)| ==> key(Insert(x, s, key)[i]) <= bound
  {
    if s != [] && key(x) < key(s[0]) {
      InsertBounded(x, s[1..], key, bound);
    }
  }

  /** Insertion keeps a sorted sequence sorted. */
  lemma {:induction false} InsertSorted<T>(x: T, s: seq<T>, key: T -> real)
    requires SortedDesc(s, key)
    ensures SortedDesc(Insert(x, s, key), key)
  {
    if s != [] && key(x) < key(s[0]) {
      InsertSorted(x, s[1..], key);
      InsertBounded(x, s[1..], key, key(s[0]));
    }
  }

  /** The elements of `s`, stably sorted by non-increasing `key`. */
  function SortDesc<T>(s: seq<T>, key: T -> real): (r: seq<T>)
    ensures |r| == |s|
    ensures multiset(r) == multiset(s)
    ensures SortedDesc(r, key)
  {
    if s == [] then []
    else
      assert s == [s[0]] + s[1..];
      var sorted := SortDesc(s[1..], key);
      InsertSorted(s[0], sorted, key);
      InsertPermutes(s[0], sorted, key);
      Insert(s[0], sorted, key)
  }

  /** Inserting `x` adds it in front of the elements that share its key;
      `sameKey` picks out the elements whose key is `c`. */
  lemma {:induction false} InsertStable<T>(x: T, s: seq<T>, key: T -> real, c: real, sameKey: T -> bool)
    requires forall y :: sameKey(y) <==> key(y) == c
    ensures Filter(Insert(x, s, key), sameKey) == (if sameKey(x) then [x] else []) + Filter(s, sameKey)
  {
    if s == [] {
    } else if key(x) >= key(s[0]) {
      FilterCons(x, s, sameKey);
    } else {
      var rest := Insert(x, s[1..], key);
      assert Insert(x, s, key) == [s[0]] + rest;
      assert [s[0]] + s[1..] == s;
      FilterCons(s[0], rest, sameKey);
      FilterCons(s[0], s[1..], sameKey);
      InsertStable(x, s[1..], key, c, sameKey);
      var kept := Filter(s[1..], sameKey);
      if sameKey(x) {
        assert !sameKey(s[0]);
        assert Filter(Insert(x, s, key), sameKey) == [x] + kept;
      } else {
        assert Filter(Insert(x, s, key), sameKey) == Filter(s, sameKey);
      }
    }
  }

  /** Stability: the elements with any one key keep their relative order. */
  lemma {:induction false} SortStable<T>(s: seq<T>, key: T -> real, c: real, sameKey: T -> bool)
    requires forall y :: sameKey(y) <==> key(y) == c
    ensures Filter(SortDesc(s, key), sameKey) == Filter(s, sameKey)
  {
    if s != [] {
      SortStable(s[1..], key, c, sameKey);
      InsertStable(s[0], SortDesc(s[1..], key), key, c, sameKey);
    }
  }

  /** The first `n` elements, or all of them if there are fewer
      (`Array.prototype.slice(0, n)`). */
  function Take<T>(s: seq<T>, n: nat): (r: seq<T>)
    ensures |r| == if |s| < n then |s| else n
    ensures r == s[..|r|]
  {
    if |s| <= n then s else s[..n]
  }

  /** Sorting neither loses nor invents an element. */
  lemma SortDescMembers<T>(s: seq<T>, key: T -> real)
    ensures forall i :: 0 <= i < |SortDesc(s, key)| ==> SortDesc(s, key)[i] in s
    ensures forall i :: 0 <= i < |s| ==> s[i] in SortDesc(s, key)
  {
    var r := SortDesc(s, key);
    assert forall i :: 0 <= i < |r| ==> r[i] in multiset(r);
    assert forall i :: 0 <= i < |s| ==> s[i] in multiset(s);
  }

  /** An element of a sorted sequence that is not among its first `n` has a
      key no greater than any of them. */
  lemma TakeSortedTop<T>(s: seq<T>, key: T -> real, n: nat, x: T)
    requires SortedDesc(s, key)
    requires x in s
    ensures x in Take(s, n) || forall i :: 0 <= i < |Take(s, n)| ==> key(Take(s, n)[i]) >= key(x)
  {
    var j :| 0 <= j < |s| && s[j] == x;
    if j < |Take(s, n)| {
      assert Take(s, n)[j] == x;
    }
  }

  /** The first `n` of `s` once stably sorted by non-increasing `key`
      (`[...s].sort(...).slice(0, n)`): sorted, drawn from `s`, without
      repeats when `s` has none, and no element of `s` left out has a key
      above one kept. */
  function Top<T>(s: seq<T>, key: T -> real, n: nat): (r: seq<T>)
    ensures |r| == if |s| < n then |s| else n
    ensures SortedDesc(r, key)
    ensures forall i :: 0 <= i < |r| ==> r[i] in s
    ensures Distinct(s) ==> Distinct(r)
    ensures forall x, i :: x in s && x !in r && 0 <= i < |r| ==> key(r[i]) >= key(x)
  {
    var sorted := SortDesc(s, key);
    SortDescMembers(s, key);
    assert Distinct(s) ==> Distinct(sorted) by {
      if Distinct(s) {
        DistinctPermutation(sorted, s);
      }
    }
    forall x | x in s
      ensures x in Take(sorted, n) || forall i :: 0 <= i < |Take(sorted, n)| ==> key(Take(sorted, n)[i]) >= key(x)
    {
      TakeSortedTop(sorted, key, n, x);
    }
    Take(sorted, n)
  }

  /** Stability survives the cut: the kept elements with any one key are the
      first of those elements in `s`, in their order in `s`. */
  lemma TopStable<T>(s: seq<T>, key: T -> real, n: nat, c: real, sameKey: T -> bool)
    requires forall y :: sameKey(y) <==> key(y) == c
    ensures Filter(Top(s, key, n), sameKey) <= Filter(s, sameKey)
  {
    var sorted := SortDesc(s, key);
    var top := Take(sorted, n);
    SortStable(s, key, c, sameKey);
    assert sorted == top + sorted[|top|..];
    FilterAppend(top, sorted[|top|..], sameKey);
  }
}
