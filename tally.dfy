/** Counting and grouping over sequences: the in-memory counterparts of SQL
    `COUNT(...)` and `GROUP BY`. SQL leaves the order of the groups unspecified; here each
    group is listed where its last member stands. */
module Tally {

  /** Number of occurrences of `x` in `xs`. */
  function Count<T(==)>(xs: seq<T>, x: T): (n: nat)
    ensures n <= |xs|
    ensures n > 0 <==> x in xs
  {
    if xs == [] then 0 else (if xs[0] == x then 1 else 0) + Count(xs[1..], x)
  }

  predicate NoDuplicates<T(==)>(xs: seq<T>) {
    forall i, j :: 0 <= i < j < |xs| ==> xs[i] != xs[j]
  }

  /** The distinct elements of `xs`, each kept at its last occurrence. */
  function Dedup<T(==,!new)>(xs: seq<T>): (r: seq<T>)
    ensures NoDuplicates(r)
    ensures forall x :: x in r <==> x in xs
    ensures |r| <= |xs|
  {
    if xs == [] then []
    else
      var rest := Dedup(xs[1..]);
      if xs[0] in rest then rest else [xs[0]] + rest
  }

  /** `GROUP BY x` with `COUNT(*)`: every distinct element mapped to its
      number of occurrences. */
  function GroupCount<T(==,!new)>(xs: seq<T>): (m: map<T, nat>)
    ensures forall x :: x in m <==> x in xs
    ensures forall x :: x in m ==> m[x] == Count(xs, x) && m[x] >= 1
  {
    if xs == [] then map[]
    else
      var m := GroupCount(xs[1..]);
      m[xs[0] := (if xs[0] in m then m[xs[0]] else 0) + 1]
  }

  /** The sum of the values `m` holds for the keys `ks` (absent keys add 0). */
  function SumOver<T>(m: map<T, nat>, ks: seq<T>): nat {
    if ks == [] then 0 else (if ks[0] in m then m[ks[0]] else 0) + SumOver(m, ks[1..])
  }

  /** The sum of the counts in `xs` of the elements of `ks`. */
  function SumCounts<T(==)>(xs: seq<T>, ks: seq<T>): nat {
    if ks == [] then 0 else Count(xs, ks[0]) + SumCounts(xs, ks[1..])
  }

  lemma {:induction false} CountOfDistinct<T>(ks: seq<T>, x: T)
    requires NoDuplicates(ks) && x in ks
    ensures Count(ks, x) == 1
  {
    if ks[0] == x {
      assert x !in ks[1..] by {
        forall j | 0 <= j < |ks[1..]| ensures ks[1..][j] != x {
          assert ks[1..][j] == ks[j + 1];
        }
      }
    } else {
      CountOfDistinct(ks[1..], x);
    }
  }

  lemma {:induction false} SumCountsCons<T>(x: T, xs: seq<T>, ks: seq<T>)
    ensures SumCounts([x] + xs, ks) == Count(ks, x) + SumCounts(xs, ks)
  {
    if ks != [] {
      assert ([x] + xs)[1..] == xs;
      SumCountsCons(x, xs, ks[1..]);
    }
  }

  /** Counting every distinct key once accounts for every element exactly
      once. */
  lemma {:induction false} SumCountsCovers<T>(xs: seq<T>, ks: seq<T>)
    requires NoDuplicates(ks)
    requires forall x :: x in xs ==> x in ks
    ensures SumCounts(xs, ks) == |xs|
  {
    if xs == [] {
      SumCountsOfEmpty(ks);
    } else {
      assert xs == [xs[0]] + xs[1..];
      SumCountsCons(xs[0], xs[1..], ks);
      CountOfDistinct(ks, xs[0]);
      SumCountsCovers(xs[1..], ks);
    }
  }

  lemma {:induction false} SumCountsOfEmpty<T>(ks: seq<T>)
    ensures SumCounts([], ks) == 0
  {
    if ks != [] { SumCountsOfEmpty(ks[1..]); }
  }

  lemma {:induction false} SumOverGroupCount<T(!new)>(xs: seq<T>, ks: seq<T>)
    ensures SumOver(GroupCount(xs), ks) == SumCounts(xs, ks)
  {
    if ks != [] { SumOverGroupCount(xs, ks[1..]); }
  }

  /** The counts of a `GROUP BY` add up to the number of rows. */
  lemma GroupCountTotal<T(!new)>(xs: seq<T>)
    ensures SumOver(GroupCount(xs), Dedup(xs)) == |xs|
  {
    SumOverGroupCount(xs, Dedup(xs));
    SumCountsCovers(xs, Dedup(xs));
  }
}
