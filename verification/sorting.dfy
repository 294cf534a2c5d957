/** A stable insertion sort over any total preorder: the model of
    `Array.prototype.sort` with a comparator and of SQL `ORDER BY`. */
module Sorting {

  /** `le` is total and transitive: a comparator consistent enough to sort by. */
  ghost predicate TotalPreorder<T(!new)>(le: (T, T) -> bool) {
    && (forall a, b :: le(a, b) || le(b, a))
    && (forall a, b, c :: le(a, b) && le(b, c) ==> le(a, c))
  }

  predicate SortedBy<T>(xs: seq<T>, le: (T, T) -> bool) {
    forall i, j :: 0 <= i < j < |xs| ==> le(xs[i], xs[j])
  }

  /** Inserts `x` before the first element it does not sort after. */
  function Insert<T(!new,==)>(x: T, xs: seq<T>, le: (T, T) -> bool): (r: seq<T>)
    requires TotalPreorder(le)
    requires SortedBy(xs, le)
    ensures multiset(r) == multiset(xs) + multiset{x}
    ensures SortedBy(r, le)
  {
    if |xs| == 0 then [x]
    else if le(x, xs[0]) then [x] + xs
    else
      var rest := Insert(x, xs[1..], le);
      assert xs == [xs[0]] + xs[1..];
      assert forall y | y in multiset(rest) :: le(xs[0], y) by {
        forall y | y in multiset(rest) ensures le(xs[0], y) {
          if y != x {
            assert y in multiset(xs[1..]);
            var k :| 0 <= k < |xs[1..]| && xs[1..][k] == y;
            assert xs[k + 1] == y;
          }
        }
      }
      assert forall k | 0 <= k < |rest| :: le(xs[0], rest[k]) by {
        forall k | 0 <= k < |rest| ensures le(xs[0], rest[k]) {
          assert rest[k] in multiset(rest);
        }
      }
      [xs[0]] + rest
  }

  /** The elements of `xs` rearranged into `le` order. */
  function Sort<T(!new,==)>(xs: seq<T>, le: (T, T) -> bool): (r: seq<T>)
    requires TotalPreorder(le)
    ensures multiset(r) == multiset(xs)
    ensures SortedBy(r, le)
  {
    if |xs| == 0 then []
    else
      assert xs == [xs[0]] + xs[1..];
      Insert(xs[0], Sort(xs[1..], le), le)
  }
}
