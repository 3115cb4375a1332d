/** Stable ordering by a small rank: the shape of the search-priority sort of
    backend/services/products/handler.js, where the comparator only compares
    ranks and the sort keeps the database order among equals. */
module Ranking {

  /** The elements of one rank, in their original order. */
  function OfRank<T>(xs: seq<T>, rank: T -> nat, k: nat): (r: seq<T>)
  {
    if xs == [] then []
    else OfRank(xs[..|xs| - 1], rank, k) + (if rank(xs[|xs| - 1]) == k then [xs[|xs| - 1]] else [])
  }

  /** The selection holds elements of the selected rank only, and no more of
      them than there are. */
  lemma {:induction false} OfRankRanks<T>(xs: seq<T>, rank: T -> nat, k: nat)
    ensures |OfRank(xs, rank, k)| <= |xs|
    ensures forall i :: 0 <= i < |OfRank(xs, rank, k)| ==> rank(OfRank(xs, rank, k)[i]) == k
  {
    if xs != [] {
      OfRankRanks(xs[..|xs| - 1], rank, k);
    }
  }

  /** A stable sort by a rank of at most 2: the elements of each rank in turn,
      each group in its original order. */
  function GroupedByRank<T>(xs: seq<T>, rank: T -> nat): seq<T> {
    OfRank(xs, rank, 0) + OfRank(xs, rank, 1) + OfRank(xs, rank, 2)
  }

  lemma {:induction false} OfRankConcat<T>(a: seq<T>, b: seq<T>, rank: T -> nat, k: nat)
    ensures OfRank(a + b, rank, k) == OfRank(a, rank, k) + OfRank(b, rank, k)
    decreases |b|
  {
    if b == [] {
      assert a + b == a;
    } else {
      var b' := b[..|b| - 1];
      assert (a + b)[..|a + b| - 1] == a + b';
      OfRankConcat(a, b', rank, k);
    }
  }

  lemma OfRankSnoc<T>(xs: seq<T>, x: T, rank: T -> nat, k: nat)
    ensures OfRank(xs + [x], rank, k) == OfRank(xs, rank, k) + (if rank(x) == k then [x] else [])
  {
    assert (xs + [x])[..|xs|] == xs;
  }

  lemma {:induction false} OfRankSplit<T>(xs: seq<T>, rank: T -> nat)
    requires forall i :: 0 <= i < |xs| ==> rank(xs[i]) <= 2
    ensures multiset(OfRank(xs, rank, 0)) + multiset(OfRank(xs, rank, 1)) + multiset(OfRank(xs, rank, 2))
            == multiset(xs)
  {
    if xs != [] {
      var prefix, last := xs[..|xs| - 1], xs[|xs| - 1];
      OfRankSplit(prefix, rank);
      assert xs == prefix + [last];
      OfRankSnoc(prefix, last, rank, 0);
      OfRankSnoc(prefix, last, rank, 1);
      OfRankSnoc(prefix, last, rank, 2);
      SplitStep(OfRank(prefix, rank, 0), OfRank(prefix, rank, 1), OfRank(prefix, rank, 2), prefix, last, rank(last));
    }
  }

  lemma SplitStep<T>(s0: seq<T>, s1: seq<T>, s2: seq<T>, prefix: seq<T>, last: T, k: nat)
    requires multiset(s0) + multiset(s1) + multiset(s2) == multiset(prefix) && k <= 2
    ensures multiset(s0 + (if k == 0 then [last] else [])) + multiset(s1 + (if k == 1 then [last] else []))
            + multiset(s2 + (if k == 2 then [last] else [])) == multiset(prefix + [last])
  {
    assert multiset(prefix + [last]) == multiset(prefix) + multiset{last};
  }

  /** Selecting one rank from the elements of rank `j` keeps them all when the
      ranks agree and none otherwise. */
  lemma {:induction false} OfRankOfRank<T>(xs: seq<T>, rank: T -> nat, j: nat, k: nat)
    ensures OfRank(OfRank(xs, rank, j), rank, k) == if j == k then OfRank(xs, rank, j) else []
  {
    if xs != [] {
      var prefix := xs[..|xs| - 1];
      var last := xs[|xs| - 1];
      OfRankOfRank(prefix, rank, j, k);
      var tail := if rank(last) == j then [last] else [];
      OfRankConcat(OfRank(prefix, rank, j), tail, rank, k);
      if tail != [] {
        assert tail[..0] == [];
      }
    }
  }

  /** Grouping by rank is a stable sort: ranks never decrease along the result,
      it holds exactly the elements it was given, and the elements of each rank
      keep their order. */
  lemma GroupedByRankIsStableSort<T>(xs: seq<T>, rank: T -> nat)
    requires forall i :: 0 <= i < |xs| ==> rank(xs[i]) <= 2
    ensures var r := GroupedByRank(xs, rank);
      (forall i, j :: 0 <= i < j < |r| ==> rank(r[i]) <= rank(r[j]))
      && multiset(r) == multiset(xs)
      && (forall k: nat :: OfRank(r, rank, k) == OfRank(xs, rank, k))
  {
    var r0, r1, r2 := OfRank(xs, rank, 0), OfRank(xs, rank, 1), OfRank(xs, rank, 2);
    var r := GroupedByRank(xs, rank);
    OfRankRanks(xs, rank, 0);
    OfRankRanks(xs, rank, 1);
    OfRankRanks(xs, rank, 2);
    forall i, j | 0 <= i < j < |r|
      ensures rank(r[i]) <= rank(r[j])
    {
      if i < |r0| {
        assert r[i] == r0[i];
      } else if i < |r0| + |r1| {
        assert r[i] == r1[i - |r0|];
        assert j >= |r0| + |r1| ==> r[j] == r2[j - |r0| - |r1|];
        assert j < |r0| + |r1| ==> r[j] == r1[j - |r0|];
      } else {
        assert r[i] == r2[i - |r0| - |r1|];
        assert r[j] == r2[j - |r0| - |r1|];
      }
    }
    OfRankSplit(xs, rank);
    forall k: nat ensures OfRank(r, rank, k) == OfRank(xs, rank, k) {
      GroupedKeepsOrder(xs, rank, k);
    }
  }

  /** Grouping by rank holds exactly the elements it was given. */
  lemma GroupedByRankPermutes<T>(xs: seq<T>, rank: T -> nat)
    requires forall i :: 0 <= i < |xs| ==> rank(xs[i]) <= 2
    ensures multiset(GroupedByRank(xs, rank)) == multiset(xs)
  {
    OfRankSplit(xs, rank);
  }

  /** Every element grouping by rank lists was given to it. */
  lemma GroupedByRankMembers<T>(xs: seq<T>, rank: T -> nat)
    requires forall i :: 0 <= i < |xs| ==> rank(xs[i]) <= 2
    ensures forall x :: x in GroupedByRank(xs, rank) ==> x in xs
  {
    var r := GroupedByRank(xs, rank);
    GroupedByRankPermutes(xs, rank);
    forall x | x in r ensures x in xs {
      assert x in multiset(r);
    }
  }

  lemma GroupedKeepsOrder<T>(xs: seq<T>, rank: T -> nat, k: nat)
    requires forall i :: 0 <= i < |xs| ==> rank(xs[i]) <= 2
    ensures OfRank(GroupedByRank(xs, rank), rank, k) == OfRank(xs, rank, k)
  {
    var r0, r1, r2 := OfRank(xs, rank, 0), OfRank(xs, rank, 1), OfRank(xs, rank, 2);
    OfRankConcat(r0 + r1, r2, rank, k);
    OfRankConcat(r0, r1, rank, k);
    OfRankOfRank(xs, rank, 0, k);
    OfRankOfRank(xs, rank, 1, k);
    OfRankOfRank(xs, rank, 2, k);
    if k > 2 {
      OfRankAbsent(xs, rank, k);
    }
  }

  lemma {:induction false} OfRankAbsent<T>(xs: seq<T>, rank: T -> nat, k: nat)
    requires forall i :: 0 <= i < |xs| ==> rank(xs[i]) != k
    ensures OfRank(xs, rank, k) == []
  {
    if xs != [] {
      OfRankAbsent(xs[..|xs| - 1], rank, k);
    }
  }
}
