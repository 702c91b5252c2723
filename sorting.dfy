/**
 * The store's sort on a single key, as a stable insertion sort over any
 * total preorder. Only two of its properties are relied on: the result is
 * ordered by the key and is a permutation of the input.
 */
module Sorting {

  /** `le` is total and transitive on the values of `s`. */
  ghost predicate TotalPreorderOn<T>(le: (T, T) -> bool, s: set<T>) {
    && (forall a, b :: a in s && b in s ==> le(a, b) || le(b, a))
    && (forall a, b, c :: a in s && b in s && c in s && le(a, b) && le(b, c) ==> le(a, c))
  }

  predicate Sorted<T>(xs: seq<T>, le: (T, T) -> bool) {
    forall i, j :: 0 <= i < j < |xs| ==> le(xs[i], xs[j])
  }

  /** Insert `x` before the first element it may precede. */
  function Insert<T>(x: T, xs: seq<T>, le: (T, T) -> bool): seq<T> {
    if xs == [] then [x]
    else if le(x, xs[0]) then [x] + xs
    else [xs[0]] + Insert(x, xs[1..], le)
  }

  function InsertionSort<T>(xs: seq<T>, le: (T, T) -> bool): seq<T> {
    if xs == [] then [] else Insert(xs[0], InsertionSort(xs[1..], le), le)
  }

  lemma {:induction false} InsertPermutes<T>(x: T, xs: seq<T>, le: (T, T) -> bool)
    ensures multiset(Insert(x, xs, le)) == multiset(xs) + multiset{x}
  {
    if xs != [] && !le(x, xs[0]) {
      InsertPermutes(x, xs[1..], le);
      assert xs == [xs[0]] + xs[1..];
    }
  }

  lemma {:induction false} InsertSorted<T>(x: T, xs: seq<T>, le: (T, T) -> bool, s: set<T>)
    requires TotalPreorderOn(le, s)
    requires x in s && forall i :: 0 <= i < |xs| ==> xs[i] in s
    requires Sorted(xs, le)
    ensures Sorted(Insert(x, xs, le), le)
  {
    if xs == [] {
    } else if le(x, xs[0]) {
      var r := [x] + xs;
      forall i, j | 0 <= i < j < |r| ensures le(r[i], r[j]) {
        if i == 0 && j > 1 {
          assert le(x, xs[0]) && le(xs[0], xs[j - 1]);
        }
      }
    } else {
      var rest := xs[1..];
      assert Sorted(rest, le) by {
        forall i, j | 0 <= i < j < |rest| ensures le(rest[i], rest[j]) {
          assert rest[i] == xs[i + 1] && rest[j] == xs[j + 1];
        }
      }
      InsertSorted(x, rest, le, s);
      InsertPermutes(x, rest, le);
      var tail := Insert(x, rest, le);
      forall y | y in tail ensures le(xs[0], y) {
        assert y in multiset(tail);
        if y != x {
          assert y in multiset(rest);
          var k :| 0 <= k < |rest| && rest[k] == y;
          assert xs[k + 1] == y;
        }
      }
      var r := [xs[0]] + tail;
      forall i, j | 0 <= i < j < |r| ensures le(r[i], r[j]) {
        if i == 0 {
          assert r[j] == tail[j - 1];
        } else {
          assert r[i] == tail[i - 1] && r[j] == tail[j - 1];
        }
      }
    }
  }

  /** Sorting yields a permutation of the input, ordered by `le`. */
  lemma {:induction false} InsertionSortCorrect<T>(xs: seq<T>, le: (T, T) -> bool, s: set<T>)
    requires TotalPreorderOn(le, s)
    requires forall i :: 0 <= i < |xs| ==> xs[i] in s
    ensures Sorted(InsertionSort(xs, le), le)
    ensures multiset(InsertionSort(xs, le)) == multiset(xs)
  {
    if xs != [] {
      InsertionSortCorrect(xs[1..], le, s);
      var sortedTail := InsertionSort(xs[1..], le);
      forall i | 0 <= i < |sortedTail| ensures sortedTail[i] in s {
        assert sortedTail[i] in multiset(xs[1..]);
      }
      InsertSorted(xs[0], sortedTail, le, s);
      InsertPermutes(xs[0], sortedTail, le);
      assert xs == [xs[0]] + xs[1..];
    }
  }
}
