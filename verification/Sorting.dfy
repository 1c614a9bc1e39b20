/** `sorted(xs, key=..., reverse=True)`: descending and stable, as Python guarantees. */
module Sorting {
  import opened Sequences

  function Insert<T>(x: T, xs: seq<T>, key: T -> real): seq<T> {
    if xs == [] || key(x) >= key(xs[0]) then [x] + xs else [xs[0]] + Insert(x, xs[1..], key)
  }

  function SortDesc<T>(xs: seq<T>, key: T -> real): seq<T> {
    if xs == [] then [] else Insert(xs[0], SortDesc(xs[1..], key), key)
  }

  predicate Descending<T>(xs: seq<T>, key: T -> real) {
    forall i, j | 0 <= i < j < |xs| :: key(xs[i]) >= key(xs[j])
  }

  /** The elements with one given key, in their order. */
  function Level<T>(xs: seq<T>, key: T -> real, v: real): seq<T> {
    if xs == [] then [] else (if key(xs[0]) == v then [xs[0]] else []) + Level(xs[1..], key, v)
  }

  lemma {:induction false} InsertPermutes<T>(x: T, xs: seq<T>, key: T -> real)
    ensures multiset(Insert(x, xs, key)) == multiset{x} + multiset(xs)
  {
    if xs == [] || key(x) >= key(xs[0]) {
    } else {
      InsertPermutes(x, xs[1..], key);
      assert xs == [xs[0]] + xs[1..];
    }
  }

  lemma {:induction false} InsertSorts<T>(x: T, xs: seq<T>, key: T -> real)
    requires Descending(xs, key)
    ensures Descending(Insert(x, xs, key), key)
  {
    if xs == [] || key(x) >= key(xs[0]) {
    } else {
      InsertSorts(x, xs[1..], key);
      InsertPermutes(x, xs[1..], key);
      var rest := Insert(x, xs[1..], key);
      forall j | 0 <= j < |rest|
        ensures key(xs[0]) >= key(rest[j])
      {
        assert rest[j] in multiset(rest);
        assert rest[j] == x || rest[j] in xs[1..];
      }
    }
  }

  lemma {:induction false} InsertKeepsLevels<T>(x: T, xs: seq<T>, key: T -> real, v: real)
    ensures Level(Insert(x, xs, key), key, v) == Level([x] + xs, key, v)
  {
    assert ([x] + xs)[1..] == xs;
    if xs == [] || key(x) >= key(xs[0]) {
    } else {
      var rest := Insert(x, xs[1..], key);
      InsertKeepsLevels(x, xs[1..], key, v);
      assert ([xs[0]] + rest)[1..] == rest;
      assert ([x] + xs[1..])[1..] == xs[1..];
    }
  }

  /** Sorting yields a descending permutation. */
  lemma {:induction false} SortSorts<T>(xs: seq<T>, key: T -> real)
    ensures Descending(SortDesc(xs, key), key)
    ensures multiset(SortDesc(xs, key)) == multiset(xs)
    ensures |SortDesc(xs, key)| == |xs|
  {
    if xs != [] {
      SortSorts(xs[1..], key);
      InsertSorts(xs[0], SortDesc(xs[1..], key), key);
      InsertPermutes(xs[0], SortDesc(xs[1..], key), key);
      assert xs == [xs[0]] + xs[1..];
    }
    assert |multiset(SortDesc(xs, key))| == |multiset(xs)|;
  }

  /** Sorting keeps elements with equal keys in their original order. */
  lemma {:induction false} SortIsStable<T>(xs: seq<T>, key: T -> real, v: real)
    ensures Level(SortDesc(xs, key), key, v) == Level(xs, key, v)
  {
    if xs != [] {
      SortIsStable(xs[1..], key, v);
      InsertKeepsLevels(xs[0], SortDesc(xs[1..], key), key, v);
      assert ([xs[0]] + SortDesc(xs[1..], key))[1..] == SortDesc(xs[1..], key);
    }
  }

  lemma {:induction false} InsertPlaces<T>(x: T, xs: seq<T>, key: T -> real) returns (p: nat)
    ensures p <= |xs| && Insert(x, xs, key) == xs[..p] + [x] + xs[p..]
    ensures forall q | 0 <= q < p :: key(xs[q]) > key(x)
  {
    if xs == [] || key(x) >= key(xs[0]) {
      p := 0;
    } else {
      var q := InsertPlaces(x, xs[1..], key);
      p := q + 1;
      assert xs[..p] == [xs[0]] + xs[1..][..q] && xs[p..] == xs[1..][q..];
    }
  }

  lemma {:induction false} SortedFrom<T>(xs: seq<T>, key: T -> real, i: nat) returns (k: nat)
    requires i < |SortDesc(xs, key)|
    ensures k < |xs| && xs[k] == SortDesc(xs, key)[i]
  {
    var rest := SortDesc(xs[1..], key);
    var p := InsertPlaces(xs[0], rest, key);
    if i == p {
      k := 0;
    } else {
      var l := SortedFrom(xs[1..], key, if i < p then i else i - 1);
      k := l + 1;
    }
  }

  /** Of two elements with equal keys, the one that comes first after sorting came first before. */
  lemma {:induction false} TiesKeepOrder<T>(xs: seq<T>, key: T -> real, i: nat, j: nat) returns (k: nat, l: nat)
    requires i < j < |SortDesc(xs, key)| && key(SortDesc(xs, key)[i]) == key(SortDesc(xs, key)[j])
    ensures k < l < |xs| && xs[k] == SortDesc(xs, key)[i] && xs[l] == SortDesc(xs, key)[j]
  {
    hide Insert;
    var x, rest := xs[0], SortDesc(xs[1..], key);
    var p := InsertPlaces(x, rest, key);
    if i == p {
      k := 0;
      var m := SortedFrom(xs[1..], key, j - 1);
      l := m + 1;
    } else {
      assert j != p;
      var m, n := TiesKeepOrder(xs[1..], key, if i < p then i else i - 1, if j < p then j else j - 1);
      k, l := m + 1, n + 1;
    }
  }

  lemma SortMembers<T>(xs: seq<T>, key: T -> real)
    ensures forall x :: x in SortDesc(xs, key) <==> x in xs
  {
    SortSorts(xs, key);
    forall x
      ensures x in SortDesc(xs, key) <==> x in xs
    {
      assert x in SortDesc(xs, key) <==> x in multiset(SortDesc(xs, key));
      assert x in xs <==> x in multiset(xs);
    }
  }

  lemma {:induction false} DistinctIffCountedOnce<T>(xs: seq<T>)
    ensures Distinct(xs) <==> forall x | x in xs :: multiset(xs)[x] == 1
  {
    if xs != [] {
      var n := |xs| - 1;
      DistinctIffCountedOnce(xs[..n]);
      assert xs == xs[..n] + [xs[n]];
      if Distinct(xs) {
        assert xs[n] !in multiset(xs[..n]);
      } else if Distinct(xs[..n]) {
        var i :| 0 <= i < n && xs[i] == xs[n];
        assert xs[n] in multiset(xs[..n]);
        assert multiset(xs)[xs[n]] >= 2;
      } else {
        var x :| x in xs[..n] && multiset(xs[..n])[x] != 1;
        assert x in multiset(xs[..n]);
        assert x in xs && multiset(xs)[x] > 1;
      }
    }
  }

  /** Sorting does not duplicate anything. */
  lemma SortKeepsDistinct<T>(xs: seq<T>, key: T -> real)
    requires Distinct(xs)
    ensures Distinct(SortDesc(xs, key))
  {
    SortSorts(xs, key);
    SortMembers(xs, key);
    DistinctIffCountedOnce(xs);
    DistinctIffCountedOnce(SortDesc(xs, key));
  }
}
