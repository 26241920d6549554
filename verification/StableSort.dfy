/** Python's `sorted` and `list.sort`: a stable sort by a strict weak order. */
module StableSort {

  ghost predicate WeakOrder<T(!new)>(lt: (T, T) -> bool) {
    && (forall a, b :: lt(a, b) ==> !lt(b, a))
    && (forall a, b, c :: !lt(b, a) && !lt(c, b) ==> !lt(c, a))
  }

  /** Inserts after every element that is not greater, so equal elements keep their order. */
  function Insert<T>(xs: seq<T>, x: T, lt: (T, T) -> bool): (r: seq<T>)
    ensures |r| == |xs| + 1
  {
    if xs == [] then [x]
    else if lt(x, xs[|xs| - 1]) then Insert(xs[..|xs| - 1], x, lt) + [xs[|xs| - 1]]
    else xs + [x]
  }

  function Sort<T>(xs: seq<T>, lt: (T, T) -> bool): (r: seq<T>)
    ensures |r| == |xs|
  {
    if xs == [] then [] else Insert(Sort(xs[..|xs| - 1], lt), xs[|xs| - 1], lt)
  }

  ghost predicate Sorted<T(!new)>(xs: seq<T>, lt: (T, T) -> bool) {
    forall i, j :: 0 <= i < j < |xs| ==> !lt(xs[j], xs[i])
  }

  lemma {:induction false} InsertPermutes<T>(xs: seq<T>, x: T, lt: (T, T) -> bool)
    ensures multiset(Insert(xs, x, lt)) == multiset(xs) + multiset{x}
  {
    if xs != [] {
      var rest, last := xs[..|xs| - 1], xs[|xs| - 1];
      assert xs == rest + [last];
      if lt(x, last) { InsertPermutes(rest, x, lt); }
    }
  }

  lemma {:induction false} SortPermutes<T>(xs: seq<T>, lt: (T, T) -> bool)
    ensures multiset(Sort(xs, lt)) == multiset(xs)
  {
    if xs != [] {
      var rest, last := xs[..|xs| - 1], xs[|xs| - 1];
      assert xs == rest + [last];
      SortPermutes(rest, lt);
      InsertPermutes(Sort(rest, lt), last, lt);
    }
  }

  lemma SortMembers<T>(xs: seq<T>, lt: (T, T) -> bool, x: T)
    ensures x in Sort(xs, lt) <==> x in xs
  {
    SortPermutes(xs, lt);
    assert x in multiset(Sort(xs, lt)) <==> x in multiset(xs);
  }

  lemma {:induction false} InsertSorts<T(!new)>(xs: seq<T>, x: T, lt: (T, T) -> bool)
    requires WeakOrder(lt) && Sorted(xs, lt)
    ensures Sorted(Insert(xs, x, lt), lt)
    ensures forall y :: y in Insert(xs, x, lt) <==> y in xs || y == x
  {
    if xs != [] {
      var rest, last := xs[..|xs| - 1], xs[|xs| - 1];
      assert xs == rest + [last];
      if lt(x, last) {
        InsertSorts(rest, x, lt);
        var front := Insert(rest, x, lt);
        forall i | 0 <= i < |front|
          ensures !lt(last, front[i])
        {
          assert front[i] in rest || front[i] == x;
        }
      } else {
        forall i | 0 <= i < |xs|
          ensures !lt(x, xs[i])
        {
          assert i < |xs| - 1 ==> !lt(last, xs[i]);
        }
      }
    }
  }

  lemma {:induction false} SortSorts<T(!new)>(xs: seq<T>, lt: (T, T) -> bool)
    requires WeakOrder(lt)
    ensures Sorted(Sort(xs, lt), lt)
  {
    if xs != [] {
      SortSorts(xs[..|xs| - 1], lt);
      InsertSorts(Sort(xs[..|xs| - 1], lt), xs[|xs| - 1], lt);
    }
  }

  /** Elements that the order does not tell apart stand in the order of their keys. */
  ghost predicate Stable<T(!new)>(xs: seq<T>, lt: (T, T) -> bool, key: T -> int) {
    forall i, j :: 0 <= i < j < |xs| && !lt(xs[i], xs[j]) ==> key(xs[i]) < key(xs[j])
  }

  lemma {:induction false} InsertStable<T(!new)>(xs: seq<T>, x: T, lt: (T, T) -> bool, key: T -> int)
    requires WeakOrder(lt) && Sorted(xs, lt) && Stable(xs, lt, key) && forall y <- xs :: key(y) < key(x)
    ensures Stable(Insert(xs, x, lt), lt, key)
  {
    if xs != [] {
      var rest, last := xs[..|xs| - 1], xs[|xs| - 1];
      if lt(x, last) {
        InsertStable(rest, x, lt, key);
        InsertSorts(rest, x, lt);
        var front := Insert(rest, x, lt);
        forall i | 0 <= i < |front| && !lt(front[i], last)
          ensures key(front[i]) < key(last)
        {
          assert front[i] in rest;
          var k :| 0 <= k < |rest| && rest[k] == front[i];
          assert xs[k] == front[i];
        }
      }
    }
  }

  /** What was in the order of its keys stays so as far as the sort leaves it open. */
  lemma {:induction false} SortStable<T(!new)>(xs: seq<T>, lt: (T, T) -> bool, key: T -> int)
    requires WeakOrder(lt) && forall i, j :: 0 <= i < j < |xs| ==> key(xs[i]) < key(xs[j])
    ensures Stable(Sort(xs, lt), lt, key)
  {
    if xs != [] {
      var rest, last := xs[..|xs| - 1], xs[|xs| - 1];
      SortStable(rest, lt, key);
      SortSorts(rest, lt);
      forall y | y in Sort(rest, lt)
        ensures key(y) < key(last)
      {
        SortMembers(rest, lt, y);
      }
      InsertStable(Sort(rest, lt), last, lt, key);
    }
  }

  /** Sorting a sorted list changes nothing: stability, in the form its users need. */
  lemma {:induction false} SortOfSorted<T(!new)>(xs: seq<T>, lt: (T, T) -> bool)
    requires Sorted(xs, lt)
    ensures Sort(xs, lt) == xs
  {
    if xs != [] {
      var rest, last := xs[..|xs| - 1], xs[|xs| - 1];
      SortOfSorted(rest, lt);
      assert rest != [] ==> !lt(last, xs[|xs| - 2]);
      assert xs == rest + [last];
    }
  }

  /** No two different elements of `s` are equivalent. */
  ghost predicate Strict<T(!new)>(s: multiset<T>, lt: (T, T) -> bool) {
    forall a, b :: a in s && b in s && a != b ==> lt(a, b) || lt(b, a)
  }

  lemma LastIsGreatest<T(!new)>(xs: seq<T>, lt: (T, T) -> bool, y: T)
    requires WeakOrder(lt) && Sorted(xs, lt) && y in xs
    ensures !lt(xs[|xs| - 1], y)
  {
    var i :| 0 <= i < |xs| && xs[i] == y;
  }

  lemma SameLast<T(!new)>(xs: seq<T>, ys: seq<T>, lt: (T, T) -> bool)
    requires WeakOrder(lt) && Sorted(xs, lt) && Sorted(ys, lt) && multiset(xs) == multiset(ys)
    requires Strict(multiset(xs), lt) && xs != [] && ys != []
    ensures xs[|xs| - 1] == ys[|ys| - 1]
  {
    var x, y := xs[|xs| - 1], ys[|ys| - 1];
    assert y in multiset(xs) && x in multiset(ys);
    LastIsGreatest(xs, lt, y);
    LastIsGreatest(ys, lt, x);
  }

  lemma DropLast<T(!new)>(xs: seq<T>, x: T, lt: (T, T) -> bool)
    requires Sorted(xs + [x], lt) && Strict(multiset(xs + [x]), lt)
    ensures Sorted(xs, lt) && Strict(multiset(xs), lt) && multiset(xs) == multiset(xs + [x]) - multiset{x}
  {
    forall i, j | 0 <= i < j < |xs|
      ensures !lt(xs[j], xs[i])
    {
      assert (xs + [x])[i] == xs[i] && (xs + [x])[j] == xs[j];
    }
  }

  lemma SameFront<T(!new)>(xs: seq<T>, ys: seq<T>, lt: (T, T) -> bool)
    requires WeakOrder(lt) && Sorted(xs, lt) && Sorted(ys, lt) && multiset(xs) == multiset(ys)
    requires Strict(multiset(xs), lt) && xs != [] && ys != []
    ensures xs[|xs| - 1] == ys[|ys| - 1]
    ensures var front, other := xs[..|xs| - 1], ys[..|ys| - 1];
            Sorted(front, lt) && Sorted(other, lt) && multiset(front) == multiset(other) && Strict(multiset(front), lt)
  {
    SameLast(xs, ys, lt);
    var x := xs[|xs| - 1];
    assert xs == xs[..|xs| - 1] + [x] && ys == ys[..|ys| - 1] + [x];
    DropLast(xs[..|xs| - 1], x, lt);
    DropLast(ys[..|ys| - 1], x, lt);
  }

  lemma SameWhole<T(!new)>(xs: seq<T>, ys: seq<T>)
    requires xs != [] && ys != [] && xs[..|xs| - 1] == ys[..|ys| - 1] && xs[|xs| - 1] == ys[|ys| - 1]
    ensures xs == ys
  {
    assert xs == xs[..|xs| - 1] + [xs[|xs| - 1]] && ys == ys[..|ys| - 1] + [ys[|ys| - 1]];
  }

  /** When no two elements are equivalent the sorted list depends only on the elements. */
  lemma {:induction false} SortedUnique<T(!new)>(xs: seq<T>, ys: seq<T>, lt: (T, T) -> bool)
    requires WeakOrder(lt) && Sorted(xs, lt) && Sorted(ys, lt) && multiset(xs) == multiset(ys)
    requires Strict(multiset(xs), lt)
    ensures xs == ys
    decreases |xs|
  {
    assert |xs| == |multiset(xs)| == |multiset(ys)| == |ys|;
    if xs != [] {
      SameFront(xs, ys, lt);
      SortedUnique(xs[..|xs| - 1], ys[..|ys| - 1], lt);
      SameWhole(xs, ys);
    }
  }
}
