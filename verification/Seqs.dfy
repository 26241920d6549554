/** Facts about sequences that several modules share. */
module Seqs {

  function Map<A, B>(xs: seq<A>, f: A -> B): (r: seq<B>)
    ensures |r| == |xs| && forall i :: 0 <= i < |xs| ==> r[i] == f(xs[i])
  {
    seq(|xs|, i requires 0 <= i < |xs| => f(xs[i]))
  }

  ghost predicate AllDistinct<T>(xs: seq<T>) { forall i, j :: 0 <= i < j < |xs| ==> xs[i] != xs[j] }

  lemma AppendDistinct<T>(xs: seq<T>, x: T)
    requires AllDistinct(xs) && x !in xs
    ensures AllDistinct(xs + [x])
  {}

  function Removed<T>(xs: seq<T>, i: nat): (r: seq<T>)
    requires i < |xs|
    ensures |r| == |xs| - 1
  {
    xs[..i] + xs[i + 1..]
  }

  lemma RemovedOne<T>(xs: seq<T>, i: nat)
    requires i < |xs|
    ensures multiset(xs) == multiset(Removed(xs, i)) + multiset{xs[i]}
  {
    assert xs == xs[..i] + ([xs[i]] + xs[i + 1..]);
  }

  lemma MapRemoved<A, B>(xs: seq<A>, f: A -> B, i: nat)
    requires i < |xs|
    ensures Map(Removed(xs, i), f) == Removed(Map(xs, f), i)
  {}

  lemma Occurs<T>(xs: seq<T>, ys: seq<T>, i: nat) returns (j: nat)
    requires multiset(xs) == multiset(ys) && i < |xs|
    ensures j < |ys| && ys[j] == xs[i]
  {
    assert xs[i] in multiset(ys);
    j :| 0 <= j < |ys| && ys[j] == xs[i];
  }

  /** Mapping commutes with permuting. */
  lemma {:induction false} MapPermutes<A, B>(xs: seq<A>, ys: seq<A>, f: A -> B)
    requires multiset(xs) == multiset(ys)
    ensures multiset(Map(xs, f)) == multiset(Map(ys, f))
    decreases |xs|
  {
    if xs == [] {
      assert |multiset(ys)| == |ys|;
    } else {
      var j := Occurs(xs, ys, 0);
      RemovedOne(xs, 0);
      RemovedOne(ys, j);
      assert multiset(Removed(xs, 0)) == multiset(xs) - multiset{xs[0]};
      assert multiset(Removed(ys, j)) == multiset(ys) - multiset{ys[j]};
      MapPermutes(Removed(xs, 0), Removed(ys, j), f);
      MapRemoved(xs, f, 0);
      MapRemoved(ys, f, j);
      RemovedOne(Map(xs, f), 0);
      RemovedOne(Map(ys, f), j);
    }
  }

  lemma CountTwice<T>(xs: seq<T>, i: nat, j: nat)
    requires i < j < |xs| && xs[i] == xs[j]
    ensures 2 <= multiset(xs)[xs[i]]
  {
    RemovedOne(xs, j);
    assert Removed(xs, j)[i] == xs[i];
    assert xs[i] in multiset(Removed(xs, j));
  }

  lemma CountOnce<T>(xs: seq<T>, i: nat)
    requires i < |xs| && AllDistinct(xs)
    ensures multiset(xs)[xs[i]] == 1
  {
    RemovedOne(xs, i);
    assert xs[i] !in Removed(xs, i);
  }

  lemma PermutedDistinct<T>(xs: seq<T>, ys: seq<T>)
    requires multiset(xs) == multiset(ys) && AllDistinct(xs)
    ensures AllDistinct(ys)
  {
    forall i, j | 0 <= i < j < |ys|
      ensures ys[i] != ys[j]
    {
      if ys[i] == ys[j] {
        CountTwice(ys, i, j);
        var a := Occurs(ys, xs, i);
        CountOnce(xs, a);
      }
    }
  }

  /** Distinct elements, counted as a set. */
  lemma {:induction false} DistinctCount<T>(xs: seq<T>)
    requires AllDistinct(xs)
    ensures |(set x | x in xs)| == |xs|
  {
    if xs != [] {
      var rest, last := xs[..|xs| - 1], xs[|xs| - 1];
      DistinctCount(rest);
      assert xs == rest + [last];
      assert (set x | x in xs) == (set x | x in rest) + {last};
      assert last !in rest;
    }
  }

  // ---------------------------------------------------------------- places

  /** The places at which a sequence has elements of a kind. */
  function Places<T>(xs: seq<T>, p: T -> bool): set<int> { set i | 0 <= i < |xs| && p(xs[i]) }

  lemma PlacesGrow<T>(xs: seq<T>, p: T -> bool)
    requires xs != []
    ensures var n := |xs| - 1; |Places(xs, p)| == |Places(xs[..n], p)| + if p(xs[n]) then 1 else 0
  {
    var n := |xs| - 1;
    var before, after := Places(xs[..n], p), Places(xs, p);
    forall i
      ensures i in after <==> i in before || (i == n && p(xs[n]))
    {
      if 0 <= i < n { assert xs[..n][i] == xs[i]; }
    }
    assert after == before + if p(xs[n]) then {n} else {};
    assert n !in before;
  }
}
