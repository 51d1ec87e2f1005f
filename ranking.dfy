/**
 * Ordering entries by a size, largest first, as `sort((a, b) => size(b) - size(a))`
 * does: the comparator is negative exactly when `b` is smaller, so a larger
 * entry moves ahead. The model inserts each entry after every entry at least
 * as large, as a stable sort places it. The city page
 * ranks regions by their number of stores and the data summary ranks
 * categories and neighbourhoods by their counts with this one ordering.
 */
module Ranking {
  /** Each name is listed once. */
  predicate NoDuplicates<T(==)>(xs: seq<T>) {
    forall a, b :: 0 <= a < b < |xs| ==> xs[a] != xs[b]
  }

  /** Larger entries first. */
  predicate NonIncreasing<T>(xs: seq<T>, size: T -> nat) {
    forall i, j :: 0 <= i < j < |xs| ==> size(xs[i]) >= size(xs[j])
  }

  /** The sum of the sizes. */
  function Total<T>(xs: seq<T>, size: T -> nat): nat {
    if xs == [] then 0 else size(xs[0]) + Total(xs[1..], size)
  }

  lemma {:induction false} TotalAppend<T>(xs: seq<T>, x: T, size: T -> nat)
    ensures Total(xs + [x], size) == Total(xs, size) + size(x)
  {
    if xs != [] {
      assert (xs + [x])[1..] == xs[1..] + [x];
      TotalAppend(xs[1..], x, size);
    }
  }

  /** Places `x` after every entry at least as large and before the first smaller one. */
  function Insert<T(==)>(x: T, sorted: seq<T>, size: T -> nat): (r: seq<T>)
    ensures multiset(r) == multiset(sorted) + multiset{x}
    ensures Total(r, size) == Total(sorted, size) + size(x)
  {
    if sorted == [] then [x]
    else if size(sorted[0]) >= size(x) then
      assert sorted == [sorted[0]] + sorted[1..];
      [sorted[0]] + Insert(x, sorted[1..], size)
    else
      [x] + sorted
  }

  /** An entry at least as large as every entry of an ordered list can go in front of it. */
  lemma ConsSorted<T>(head: T, rest: seq<T>, size: T -> nat)
    requires NonIncreasing(rest, size)
    requires forall x :: x in rest ==> size(x) <= size(head)
    ensures NonIncreasing([head] + rest, size)
  {
    var r := [head] + rest;
    forall i, j | 0 <= i < j < |r| ensures size(r[i]) >= size(r[j]) {
      assert r[j] == rest[j - 1];
      if i > 0 {
        assert r[i] == rest[i - 1];
      }
    }
  }

  /** Inserting keeps every entry within a bound that `x` and `sorted` keep. */
  lemma InsertBounded<T>(x: T, sorted: seq<T>, size: T -> nat, bound: nat)
    requires size(x) <= bound
    requires forall y :: y in sorted ==> size(y) <= bound
    ensures forall y :: y in Insert(x, sorted, size) ==> size(y) <= bound
  {
    forall y | y in Insert(x, sorted, size) ensures size(y) <= bound {
      assert y in multiset(Insert(x, sorted, size));
    }
  }

  /** Inserting into an ordered list keeps it ordered. */
  lemma {:induction false} InsertSorted<T>(x: T, sorted: seq<T>, size: T -> nat)
    requires NonIncreasing(sorted, size)
    ensures NonIncreasing(Insert(x, sorted, size), size)
  {
    if sorted == [] {
    } else if size(sorted[0]) >= size(x) {
      var rest := sorted[1..];
      assert NonIncreasing(rest, size) by {
        forall i, j | 0 <= i < j < |rest| ensures size(rest[i]) >= size(rest[j]) {
          assert rest[i] == sorted[i + 1] && rest[j] == sorted[j + 1];
        }
      }
      InsertSorted(x, rest, size);
      forall y | y in rest ensures size(y) <= size(sorted[0]) {
        var j :| 0 <= j < |rest| && rest[j] == y;
        assert sorted[j + 1] == y;
      }
      InsertBounded(x, rest, size, size(sorted[0]));
      ConsSorted(sorted[0], Insert(x, rest, size), size);
    } else {
      forall y | y in sorted ensures size(y) <= size(x) {
        var j :| 0 <= j < |sorted| && sorted[j] == y;
      }
      ConsSorted(x, sorted, size);
    }
  }

  /**
   * The entries reordered so that larger ones come first: the same entries
   * (a permutation), ordered, with the same total.
   */
  function SortDesc<T(==)>(xs: seq<T>, size: T -> nat): (r: seq<T>)
    ensures multiset(r) == multiset(xs)
    ensures |r| == |xs|
    ensures Total(r, size) == Total(xs, size)
    ensures NonIncreasing(r, size)
  {
    if xs == [] then []
    else
      var init := xs[..|xs| - 1];
      var last := xs[|xs| - 1];
      assert xs == init + [last];
      TotalAppend(init, last, size);
      InsertSorted(last, SortDesc(init, size), size);
      assert |multiset(Insert(last, SortDesc(init, size), size))| == |multiset(xs)|;
      Insert(last, SortDesc(init, size), size)
  }
}
