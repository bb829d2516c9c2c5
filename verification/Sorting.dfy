/** Sorting by a key, keeping the order of equals: what Python's sorted does. */
module Sorting {

  /** A key of three parts, compared part by part. */
  datatype Rank = Rank(first: real, second: real, third: real) {
    predicate Below(other: Rank) {
      || first < other.first
      || (first == other.first && second < other.second)
      || (first == other.first && second == other.second && third < other.third)
    }
  }

  /** Put `x` in front of the first element it does not come after. */
  function Insert<T>(x: T, sorted: seq<T>, rank: T -> Rank): seq<T> {
    if sorted == [] || !rank(sorted[0]).Below(rank(x)) then [x] + sorted
    else [sorted[0]] + Insert(x, sorted[1..], rank)
  }

  function SortedBy<T>(xs: seq<T>, rank: T -> Rank): seq<T> {
    if xs == [] then [] else Insert(xs[0], SortedBy(xs[1..], rank), rank)
  }

  /** By rank, and by original position among equal ranks. */
  predicate Before<T>(x: T, y: T, rank: T -> Rank, position: T -> int) {
    rank(x).Below(rank(y)) || (rank(x) == rank(y) && position(x) < position(y))
  }

  ghost predicate StrictlyOrdered<T>(s: seq<T>, rank: T -> Rank, position: T -> int) {
    forall i, j :: 0 <= i < j < |s| ==> Before(s[i], s[j], rank, position)
  }

  predicate ByPosition<T>(xs: seq<T>, position: T -> int) {
    forall i, j :: 0 <= i < j < |xs| ==> position(xs[i]) < position(xs[j])
  }

  lemma {:induction false} InsertKeepsElements<T>(x: T, sorted: seq<T>, rank: T -> Rank)
    ensures multiset(Insert(x, sorted, rank)) == multiset([x] + sorted)
  {
    if sorted != [] && rank(sorted[0]).Below(rank(x)) {
      InsertKeepsElements(x, sorted[1..], rank);
      assert sorted == [sorted[0]] + sorted[1..];
      assert multiset(Insert(x, sorted, rank)) == multiset{sorted[0]} + multiset([x] + sorted[1..]);
    }
  }

  lemma {:induction false} SortKeepsElements<T>(xs: seq<T>, rank: T -> Rank)
    ensures multiset(SortedBy(xs, rank)) == multiset(xs)
    ensures |SortedBy(xs, rank)| == |xs|
  {
    if xs != [] {
      SortKeepsElements(xs[1..], rank);
      InsertKeepsElements(xs[0], SortedBy(xs[1..], rank), rank);
      assert xs == [xs[0]] + xs[1..];
      assert |multiset(SortedBy(xs, rank))| == |multiset(xs)|;
    }
  }

  lemma {:induction false} InsertKeepsOrder<T>(x: T, sorted: seq<T>, rank: T -> Rank, position: T -> int)
    requires StrictlyOrdered(sorted, rank, position)
    requires forall y :: y in sorted ==> position(x) < position(y)
    ensures StrictlyOrdered(Insert(x, sorted, rank), rank, position)
  {
    var result := Insert(x, sorted, rank);
    if sorted != [] && rank(sorted[0]).Below(rank(x)) {
      var tail := Insert(x, sorted[1..], rank);
      InsertKeepsOrder(x, sorted[1..], rank, position);
      InsertKeepsElements(x, sorted[1..], rank);
      forall y | y in tail ensures Before(sorted[0], y, rank, position) {
        assert y in multiset([x] + sorted[1..]);
        if y != x {
          var k :| 0 <= k < |sorted[1..]| && sorted[1..][k] == y;
          assert sorted[k + 1] == y;
        }
      }
      assert result == [sorted[0]] + tail;
    } else if sorted != [] {
      forall y | y in sorted ensures Before(x, y, rank, position) {
        var k :| 0 <= k < |sorted| && sorted[k] == y;
        if k > 0 {
          assert Before(sorted[0], y, rank, position);
        }
      }
    }
  }

  /** Sorting elements listed by position orders them by rank, then position. */
  lemma {:induction false} SortOrders<T>(xs: seq<T>, rank: T -> Rank, position: T -> int)
    requires ByPosition(xs, position)
    ensures StrictlyOrdered(SortedBy(xs, rank), rank, position)
  {
    if xs != [] {
      var rest := SortedBy(xs[1..], rank);
      SortOrders(xs[1..], rank, position);
      SortKeepsElements(xs[1..], rank);
      forall y | y in rest ensures position(xs[0]) < position(y) {
        assert y in multiset(xs[1..]);
        var k :| 0 <= k < |xs[1..]| && xs[1..][k] == y;
      }
      InsertKeepsOrder(xs[0], rest, rank, position);
    }
  }

  // ----- lists in a strict order

  predicate Listed<T>(xs: seq<T>, before: (T, T) -> bool) {
    forall i, j :: 0 <= i < j < |xs| ==> before(xs[i], xs[j])
  }

  ghost predicate Asymmetric<T(!new)>(before: (T, T) -> bool) {
    forall x, y :: before(x, y) ==> !before(y, x)
  }

  ghost predicate SameMembers<T(!new)>(a: seq<T>, b: seq<T>) {
    forall x :: x in a <==> x in b
  }

  function Front<T>(xs: seq<T>): seq<T>
    requires xs != []
  {
    xs[..|xs| - 1]
  }

  lemma LastIsLatest<T(!new)>(xs: seq<T>, x: T, before: (T, T) -> bool)
    requires Listed(xs, before) && Asymmetric(before) && x in xs
    ensures x == xs[|xs| - 1] || before(x, xs[|xs| - 1])
    ensures x in Front(xs) <==> x != xs[|xs| - 1]
  {
    assert xs == Front(xs) + [xs[|xs| - 1]];
    if x in Front(xs) {
      var k :| 0 <= k < |xs| - 1 && Front(xs)[k] == x;
      assert xs[k] == x && before(xs[k], xs[|xs| - 1]);
    }
  }

  lemma SameFront<T(!new)>(a: seq<T>, b: seq<T>, before: (T, T) -> bool)
    requires Listed(a, before) && Listed(b, before) && Asymmetric(before)
    requires a != [] && b != [] && SameMembers(a, b)
    ensures a[|a| - 1] == b[|b| - 1] && SameMembers(Front(a), Front(b))
  {
    var x, y := a[|a| - 1], b[|b| - 1];
    assert x in a && y in b;
    LastIsLatest(a, y, before);
    LastIsLatest(b, x, before);
    forall e ensures e in Front(a) <==> e in Front(b) {
      if e in a {
        LastIsLatest(a, e, before);
        LastIsLatest(b, e, before);
      }
    }
  }

  /** A strict order leaves one way to list the same members. */
  lemma {:induction false} OneListing<T(!new)>(a: seq<T>, b: seq<T>, before: (T, T) -> bool)
    requires Listed(a, before) && Listed(b, before) && Asymmetric(before) && SameMembers(a, b)
    ensures a == b
  {
    assert a != [] ==> a[0] in a;
    assert b != [] ==> b[0] in b;
    if a != [] && b != [] {
      SameFront(a, b, before);
      OneListing(Front(a), Front(b), before);
      assert a == Front(a) + [a[|a| - 1]] && b == Front(b) + [b[|b| - 1]];
    }
  }
}
