// Sorting by any order, as the sorts of the modelled languages give it.

module Sorting {
  function Inserted<T>(before: (T, T) -> bool, x: T, sorted: seq<T>): (next: seq<T>)
    ensures |next| == |sorted| + 1
  {
    if sorted == [] || before(x, sorted[0]) then [x] + sorted
    else [sorted[0]] + Inserted(before, x, sorted[1..])
  }

  function SortBy<T>(before: (T, T) -> bool, values: seq<T>): (sorted: seq<T>)
    ensures |sorted| == |values|
  {
    if values == [] then []
    else Inserted(before, values[|values| - 1], SortBy(before, values[..|values| - 1]))
  }

  ghost predicate InOrder<T>(before: (T, T) -> bool, values: seq<T>) {
    forall i, j :: 0 <= i < j < |values| ==> before(values[i], values[j])
  }

  ghost predicate Transitive<T(!new)>(before: (T, T) -> bool) {
    forall a, b, c :: before(a, b) && before(b, c) ==> before(a, c)
  }

  /** Any two places of a sequence compare one way or the other. */
  ghost predicate Comparable<T>(before: (T, T) -> bool, values: seq<T>) {
    forall i, j :: 0 <= i < j < |values| ==> before(values[i], values[j]) || before(values[j], values[i])
  }

  lemma {:induction false} InsertedHolds<T>(before: (T, T) -> bool, x: T, sorted: seq<T>)
    ensures multiset(Inserted(before, x, sorted)) == multiset(sorted) + multiset{x}
    ensures forall y :: y in Inserted(before, x, sorted) <==> y in sorted || y == x
  {
    if sorted != [] && !before(x, sorted[0]) {
      InsertedHolds(before, x, sorted[1..]);
      assert sorted == [sorted[0]] + sorted[1..];
    }
  }

  lemma {:induction false} InsertedOrders<T(!new)>(before: (T, T) -> bool, x: T, sorted: seq<T>)
    requires Transitive(before) && InOrder(before, sorted)
    requires forall y :: y in sorted ==> before(x, y) || before(y, x)
    ensures InOrder(before, Inserted(before, x, sorted))
  {
    if sorted != [] {
      if before(x, sorted[0]) {
        forall j | 0 <= j < |sorted| ensures before(x, sorted[j]) {
          if j > 0 { assert before(sorted[0], sorted[j]); }
        }
      } else {
        var rest := sorted[1..];
        assert before(sorted[0], x);
        InsertedOrders(before, x, rest);
        InsertedHolds(before, x, rest);
        var tail := Inserted(before, x, rest);
        forall j | 0 <= j < |tail| ensures before(sorted[0], tail[j]) {
          assert tail[j] in tail;
          if tail[j] != x {
            var k :| 0 <= k < |rest| && rest[k] == tail[j];
            assert sorted[k + 1] == tail[j];
          }
        }
      }
    }
  }

  /** Sorting keeps every value as often as it was there. */
  lemma {:induction false} SortHolds<T>(before: (T, T) -> bool, values: seq<T>)
    ensures multiset(SortBy(before, values)) == multiset(values)
    ensures forall y :: y in SortBy(before, values) <==> y in values
  {
    if values != [] {
      var n := |values| - 1;
      SortHolds(before, values[..n]);
      InsertedHolds(before, values[n], SortBy(before, values[..n]));
      assert values == values[..n] + [values[n]];
    }
  }

  /** Sorting by a transitive order that compares the values puts them in order. */
  lemma {:induction false} SortOrders<T(!new)>(before: (T, T) -> bool, values: seq<T>)
    requires Transitive(before) && Comparable(before, values)
    ensures InOrder(before, SortBy(before, values))
  {
    if values != [] {
      var n := |values| - 1;
      SortOrders(before, values[..n]);
      SortHolds(before, values[..n]);
      forall y | y in SortBy(before, values[..n]) ensures before(values[n], y) || before(y, values[n]) {
        assert y in values[..n];
        var i :| 0 <= i < n && values[i] == y;
      }
      InsertedOrders(before, values[n], SortBy(before, values[..n]));
    }
  }
}
