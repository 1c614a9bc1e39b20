/** List comprehensions. */
module Sequences {

  /** `[x for x in xs if p(x)]`. */
  function Filter<T>(xs: seq<T>, p: T -> bool): (r: seq<T>)
    ensures |r| <= |xs|
  {
    if xs == [] then [] else Filter(xs[..|xs| - 1], p) + (if p(xs[|xs| - 1]) then [xs[|xs| - 1]] else [])
  }

  /** `[f(x) for x in xs]`. */
  function Map<A, B>(xs: seq<A>, f: A -> B): seq<B> {
    seq(|xs|, i requires 0 <= i < |xs| => f(xs[i]))
  }

  lemma FilterNext<T>(xs: seq<T>, n: nat, p: T -> bool)
    requires n < |xs|
    ensures Filter(xs[..n + 1], p) == Filter(xs[..n], p) + (if p(xs[n]) then [xs[n]] else [])
  {
    assert xs[..n + 1][..n] == xs[..n];
  }

  lemma {:induction false} FilterFirst<T>(xs: seq<T>, p: T -> bool)
    requires xs != []
    ensures Filter(xs, p) == (if p(xs[0]) then [xs[0]] else []) + Filter(xs[1..], p)
  {
    var n := |xs| - 1;
    if n > 0 {
      FilterFirst(xs[..n], p);
      assert xs[1..][..n - 1] == xs[..n][1..];
    } else {
      assert xs[1..] == [] && xs[..0] == [];
    }
  }

  lemma {:induction false} FilterMembers<T>(xs: seq<T>, p: T -> bool)
    ensures forall x :: x in Filter(xs, p) <==> x in xs && p(x)
  {
    if xs != [] {
      FilterMembers(xs[..|xs| - 1], p);
      assert xs == xs[..|xs| - 1] + [xs[|xs| - 1]];
    }
  }

  /** All positions whose element satisfies p, from front to back. */
  ghost predicate Positions<T(!new)>(xs: seq<T>, p: T -> bool, at: seq<nat>) {
    && (forall i | 0 <= i < |at| :: at[i] < |xs| && p(xs[at[i]]))
    && (forall i, j | 0 <= i < j < |at| :: at[i] < at[j])
    && (forall k | 0 <= k < |xs| && p(xs[k]) :: k in at)
  }

  /** Filtering keeps what satisfies p, in order. */
  lemma {:induction false} FilterPositions<T(!new)>(xs: seq<T>, p: T -> bool) returns (at: seq<nat>)
    ensures Positions(xs, p, at)
    ensures |Filter(xs, p)| == |at| && forall i | 0 <= i < |at| :: Filter(xs, p)[i] == xs[at[i]]
  {
    if xs == [] {
      at := [];
    } else {
      var n := |xs| - 1;
      var before := FilterPositions(xs[..n], p);
      at := before + if p(xs[n]) then [n] else [];
      forall k | 0 <= k < |xs| && p(xs[k])
        ensures k in at
      {
        if k < n {
          assert p(xs[..n][k]);
          assert k in before;
        }
      }
    }
  }

  lemma {:induction false} FilterSame<T(!new)>(xs: seq<T>, p: T -> bool, q: T -> bool)
    requires forall x :: p(x) <==> q(x)
    ensures Filter(xs, p) == Filter(xs, q)
  {
    if xs != [] {
      FilterSame(xs[..|xs| - 1], p, q);
    }
  }

  predicate Distinct<T(==)>(xs: seq<T>) {
    forall i, j | 0 <= i < j < |xs| :: xs[i] != xs[j]
  }

  function Elements<T(==)>(xs: seq<T>): set<T> {
    set x | x in xs
  }

  lemma {:induction false} ElementsSize<T>(xs: seq<T>)
    requires Distinct(xs)
    ensures |Elements(xs)| == |xs|
  {
    if xs != [] {
      var rest, last := xs[..|xs| - 1], xs[|xs| - 1];
      ElementsSize(rest);
      assert xs == rest + [last];
      assert Elements(xs) == Elements(rest) + {last};
    }
  }
}
