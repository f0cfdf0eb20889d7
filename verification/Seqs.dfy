/**
 Sequence operations Python spells as comprehensions, `next(...)` and `sorted(...)`, and the laws of stable
 sorting.
 */
module Seqs {

  datatype Option<+T> = None | Some(value: T)

  /** `[x for x in xs if p(x)]` */
  function Filter<T>(xs: seq<T>, p: T -> bool): seq<T> {
    if xs == [] then []
    else Filter(xs[..|xs| - 1], p) + if p(xs[|xs| - 1]) then [xs[|xs| - 1]] else []
  }

  /** `next((x for x in xs if p(x)), None)` */
  function First<T>(xs: seq<T>, p: T -> bool): Option<T> {
    if xs == [] then None
    else
      var earlier := First(xs[..|xs| - 1], p);
      if earlier.Some? then earlier else if p(xs[|xs| - 1]) then Some(xs[|xs| - 1]) else None
  }

  /** One step of a stable insertion sort: `x` goes after everything it does not come before. */
  function Insert<T>(sorted: seq<T>, x: T, before: (T, T) -> bool): seq<T> {
    if sorted == [] || !before(x, sorted[|sorted| - 1]) then sorted + [x]
    else Insert(sorted[..|sorted| - 1], x, before) + [sorted[|sorted| - 1]]
  }

  /** `sorted(xs)` under a strict order: stable. */
  function Sort<T>(xs: seq<T>, before: (T, T) -> bool): seq<T> {
    if xs == [] then [] else Insert(Sort(xs[..|xs| - 1], before), xs[|xs| - 1], before)
  }

  lemma FilterIn<T>(xs: seq<T>, p: T -> bool)
    ensures forall x :: x in Filter(xs, p) <==> x in xs && p(x)
  {
    if xs != [] {
      FilterIn(xs[..|xs| - 1], p);
      assert xs == xs[..|xs| - 1] + [xs[|xs| - 1]];
    }
  }

  lemma FilterNone<T>(xs: seq<T>, p: T -> bool)
    requires forall x | x in xs :: !p(x)
    ensures Filter(xs, p) == []
  {}

  lemma FirstIs<T>(xs: seq<T>, p: T -> bool)
    ensures First(xs, p).Some? ==> First(xs, p).value in xs && p(First(xs, p).value)
    ensures First(xs, p).None? <==> forall x | x in xs :: !p(x)
  {
    if xs != [] {
      FirstIs(xs[..|xs| - 1], p);
      assert xs == xs[..|xs| - 1] + [xs[|xs| - 1]];
    }
  }

  /** The first match stands no later than any. */
  lemma {:induction false} FirstFirst<T>(xs: seq<T>, p: T -> bool, i: nat)
    requires i < |xs| && p(xs[i])
    ensures exists k | 0 <= k <= i :: First(xs, p) == Some(xs[k]) && p(xs[k])
  {
    if i == |xs| - 1 {
      FirstIs(xs, p);
      var x := First(xs, p).value;
      var k :| 0 <= k < |xs| && xs[k] == x;
    } else { FirstFirst(xs[..|xs| - 1], p, i); }
  }

  lemma InsertContents<T>(sorted: seq<T>, x: T, before: (T, T) -> bool)
    ensures multiset(Insert(sorted, x, before)) == multiset(sorted) + multiset{x}
    ensures |Insert(sorted, x, before)| == |sorted| + 1
  {
    if sorted != [] && before(x, sorted[|sorted| - 1]) {
      InsertContents(sorted[..|sorted| - 1], x, before);
      assert sorted == sorted[..|sorted| - 1] + [sorted[|sorted| - 1]];
    }
  }

  /** Sorting permutes. */
  lemma SortContents<T>(xs: seq<T>, before: (T, T) -> bool)
    ensures multiset(Sort(xs, before)) == multiset(xs)
    ensures |Sort(xs, before)| == |xs|
  {
    if xs != [] {
      SortContents(xs[..|xs| - 1], before);
      InsertContents(Sort(xs[..|xs| - 1], before), xs[|xs| - 1], before);
      assert xs == xs[..|xs| - 1] + [xs[|xs| - 1]];
    }
  }

  lemma SortIn<T>(xs: seq<T>, before: (T, T) -> bool)
    ensures forall x :: x in Sort(xs, before) <==> x in xs
  {
    SortContents(xs, before);
    forall x ensures x in Sort(xs, before) <==> x in xs {
      assert x in multiset(Sort(xs, before)) <==> x in multiset(xs);
    }
  }

  lemma SortedElement<T>(xs: seq<T>, before: (T, T) -> bool, x: T)
    requires x in Sort(xs, before)
    ensures x in xs
  {
    SortIn(xs, before);
  }

  /** `before` never ranks two elements both ways, and "not after" is transitive. */
  ghost predicate WeakOrder<T(!new)>(before: (T, T) -> bool) {
    && (forall a, b :: before(a, b) ==> !before(b, a))
    && (forall a, b, c :: !before(b, a) && !before(c, b) ==> !before(c, a))
  }

  /** No element comes before an earlier one. */
  ghost predicate InOrder<T>(xs: seq<T>, before: (T, T) -> bool) {
    forall i, j | 0 <= i < j < |xs| :: !before(xs[j], xs[i])
  }

  lemma InsertIn<T>(sorted: seq<T>, x: T, before: (T, T) -> bool)
    ensures forall y :: y in Insert(sorted, x, before) <==> y in sorted || y == x
  {
    InsertContents(sorted, x, before);
    forall y ensures y in Insert(sorted, x, before) <==> y in sorted || y == x {
      assert y in multiset(Insert(sorted, x, before)) <==> y in multiset(sorted) + multiset{x};
    }
  }

  lemma {:induction false} InsertInOrder<T(!new)>(sorted: seq<T>, x: T, before: (T, T) -> bool)
    requires WeakOrder(before) && InOrder(sorted, before)
    ensures InOrder(Insert(sorted, x, before), before)
  {
    if sorted != [] {
      var init, last := sorted[..|sorted| - 1], sorted[|sorted| - 1];
      if before(x, last) {
        InsertInOrder(init, x, before);
        InsertIn(init, x, before);
        forall y | y in Insert(init, x, before) ensures !before(last, y) {
          if y != x {
            var i :| 0 <= i < |init| && init[i] == y;
            assert sorted[i] == y;
          }
        }
      } else {
        forall i | 0 <= i < |sorted| ensures !before(x, sorted[i]) {
          if i < |sorted| - 1 { assert !before(last, sorted[i]); }
        }
      }
    }
  }

  lemma {:induction false} SortInOrder<T(!new)>(xs: seq<T>, before: (T, T) -> bool)
    requires WeakOrder(before)
    ensures InOrder(Sort(xs, before), before)
  {
    if xs != [] {
      SortInOrder(xs[..|xs| - 1], before);
      InsertInOrder(Sort(xs[..|xs| - 1], before), xs[|xs| - 1], before);
    }
  }

  /** In an ordered sequence, what does not come before the last comes before nothing. */
  lemma NotBeforeAny<T(!new)>(xs: seq<T>, x: T, before: (T, T) -> bool, y: T)
    requires WeakOrder(before) && InOrder(xs, before) && xs != [] && !before(x, xs[|xs| - 1]) && y in xs
    ensures !before(x, y)
  {
    var i :| 0 <= i < |xs| && xs[i] == y;
    if i < |xs| - 1 { assert !before(xs[|xs| - 1], xs[i]); }
  }

  lemma FilterAppend<T>(xs: seq<T>, x: T, p: T -> bool)
    ensures Filter(xs + [x], p) == if p(x) then Filter(xs, p) + [x] else Filter(xs, p)
  {
    assert (xs + [x])[..|xs|] == xs;
  }

  lemma InsertLast<T>(xs: seq<T>, last: T, x: T, before: (T, T) -> bool)
    ensures Insert(xs + [last], x, before) == if before(x, last) then Insert(xs, x, before) + [last] else xs + [last] + [x]
  {
    assert (xs + [last])[..|xs|] == xs;
  }

  lemma FilterInsertAtEnd<T(!new)>(xs: seq<T>, x: T, before: (T, T) -> bool, p: T -> bool)
    requires WeakOrder(before) && InOrder(xs, before) && (xs == [] || !before(x, xs[|xs| - 1]))
    ensures Insert(Filter(xs, p), x, before) == Filter(xs, p) + [x]
  {
    hide InOrder, WeakOrder, Filter;
    var f := Filter(xs, p);
    if f != [] {
      FilterIn(xs, p);
      assert f[|f| - 1] in f;
      NotBeforeAny(xs, x, before, f[|f| - 1]);
    }
  }

  lemma {:induction false} FilterInsert<T(!new)>(xs: seq<T>, x: T, before: (T, T) -> bool, p: T -> bool)
    requires WeakOrder(before) && InOrder(xs, before)
    ensures Filter(Insert(xs, x, before), p) == if p(x) then Insert(Filter(xs, p), x, before) else Filter(xs, p)
  {
    if xs != [] && before(x, xs[|xs| - 1]) {
      var init, last := xs[..|xs| - 1], xs[|xs| - 1];
      FilterInsert(init, x, before, p);
      assert xs == init + [last];
      FilterAppend(init, last, p);
      InsertLast(init, last, x, before);
      FilterAppend(Insert(init, x, before), last, p);
      InsertLast(Filter(init, p), last, x, before);
      hide Insert, Filter;
    } else {
      FilterAppend(xs, x, p);
      FilterInsertAtEnd(xs, x, before, p);
    }
    hide WeakOrder, InOrder;
  }

  lemma SortAppend<T>(xs: seq<T>, x: T, before: (T, T) -> bool)
    ensures Sort(xs + [x], before) == Insert(Sort(xs, before), x, before)
  {
    assert (xs + [x])[..|xs|] == xs;
  }

  /** Sorting is stable, so it commutes with selecting. */
  lemma {:induction false} FilterSort<T(!new)>(xs: seq<T>, before: (T, T) -> bool, p: T -> bool)
    requires WeakOrder(before)
    ensures Filter(Sort(xs, before), p) == Sort(Filter(xs, p), before)
  {
    if xs != [] {
      var init, last := xs[..|xs| - 1], xs[|xs| - 1];
      FilterSort(init, before, p);
      SortInOrder(init, before);
      assert xs == init + [last];
      SortAppend(init, last, before);
      FilterAppend(init, last, p);
      FilterInsert(Sort(init, before), last, before, p);
      SortAppend(Filter(init, p), last, before);
      hide WeakOrder, InOrder, Insert, Sort, Filter;
    }
  }

  lemma {:induction false} Smaller<T>(a: set<T>, b: set<T>)
    requires a <= b
    ensures |a| <= |b|
  { if a != {} { var x :| x in a; Smaller(a - {x}, b - {x}); } }
}
