/** Sequence helpers: `Array.prototype.filter`, de-duplication through a
    `Set` (`[...new Set(xs)]`), and distinctness. */
module Seqs {

  predicate Distinct<T(!new,==)>(xs: seq<T>) {
    forall i, j :: 0 <= i < j < |xs| ==> xs[i] != xs[j]
  }

  /** An element at two positions has two copies. */
  lemma AtTwoPositions<T(!new)>(xs: seq<T>, i: int, j: int)
    requires 0 <= i < j < |xs| && xs[i] == xs[j]
    ensures multiset(xs)[xs[i]] >= 2
  {
    assert xs == xs[..i] + [xs[i]] + xs[i + 1..j] + [xs[j]] + xs[j + 1..];
  }

  /** An element with two copies sits at two positions. */
  lemma TwoCopies<T(!new)>(xs: seq<T>, x: T)
    requires multiset(xs)[x] >= 2
    ensures exists a, b :: 0 <= a < b < |xs| && xs[a] == x && xs[b] == x
  {
    var a :| 0 <= a < |xs| && xs[a] == x;
    assert xs == xs[..a] + [x] + xs[a + 1..];
    assert multiset(xs[..a] + xs[a + 1..])[x] >= 1;
    var rest := xs[..a] + xs[a + 1..];
    var b :| 0 <= b < |rest| && rest[b] == x;
    if b < a {
      assert xs[b] == x;
    } else {
      assert xs[b + 1] == x;
    }
  }

  /** A duplicate-free sequence holds each element at most once. */
  lemma DistinctCountsOnce<T(!new)>(xs: seq<T>, x: T)
    requires Distinct(xs)
    ensures multiset(xs)[x] <= 1
    ensures x in xs ==> multiset(xs)[x] == 1
  {
    if multiset(xs)[x] >= 2 {
      TwoCopies(xs, x);
    }
  }

  /** A rearrangement of a duplicate-free sequence is duplicate-free. */
  lemma DistinctPermutation<T(!new)>(a: seq<T>, b: seq<T>)
    requires Distinct(a) && multiset(a) == multiset(b)
    ensures Distinct(b)
  {
    forall i, j | 0 <= i < j < |b| ensures b[i] != b[j] {
      if b[i] == b[j] {
        AtTwoPositions(b, i, j);
        DistinctCountsOnce(a, b[i]);
      }
    }
  }

  /** `xs.filter(keep)`: the elements satisfying `keep`, in their order, with
      every multiplicity kept for those and dropped for the others. */
  function Filter<T(!new,==)>(xs: seq<T>, keep: T -> bool): (r: seq<T>)
    ensures |r| <= |xs|
    ensures forall x | x in r :: keep(x)
    ensures forall x :: multiset(r)[x] == if keep(x) then multiset(xs)[x] else 0
  {
    if |xs| == 0 then []
    else
      var rest := Filter(xs[1..], keep);
      assert xs == [xs[0]] + xs[1..];
      if keep(xs[0]) then [xs[0]] + rest else rest
  }

  /** Filtering distributes over concatenation: the order of the input is kept. */
  lemma {:induction false} FilterAppend<T(!new)>(a: seq<T>, b: seq<T>, keep: T -> bool)
    ensures Filter(a + b, keep) == Filter(a, keep) + Filter(b, keep)
  {
    if |a| == 0 {
      assert a + b == b;
    } else {
      assert (a + b)[0] == a[0] && (a + b)[1..] == a[1..] + b;
      FilterAppend(a[1..], b, keep);
      FilterUnfold(a + b, keep);
      FilterUnfold(a, keep);
    }
  }

  /** An element is in the filtered sequence iff it is in the input and kept. */
  lemma FilterMembership<T(!new)>(xs: seq<T>, keep: T -> bool, x: T)
    ensures x in Filter(xs, keep) <==> x in xs && keep(x)
  {
    assert x in Filter(xs, keep) <==> multiset(Filter(xs, keep))[x] > 0;
    assert x in xs <==> multiset(xs)[x] > 0;
  }

  /** Filtering a sequence whose every element is kept changes nothing. */
  lemma {:induction false} FilterAll<T(!new)>(xs: seq<T>, keep: T -> bool)
    requires forall x | x in xs :: keep(x)
    ensures Filter(xs, keep) == xs
  {
    if |xs| > 0 {
      forall x | x in xs[1..] ensures keep(x) { assert x in xs; }
      FilterAll(xs[1..], keep);
      FilterUnfold(xs, keep);
      assert xs == [xs[0]] + xs[1..];
    }
  }

  /** Filtering a sequence none of whose elements is kept leaves nothing. */
  lemma {:induction false} FilterNoneKept<T(!new)>(xs: seq<T>, keep: T -> bool)
    requires forall x | x in xs :: !keep(x)
    ensures Filter(xs, keep) == []
  {
    if |xs| > 0 {
      forall x | x in xs[1..] ensures !keep(x) { assert x in xs; }
      FilterNoneKept(xs[1..], keep);
      FilterUnfold(xs, keep);
    }
  }

  /** Filtering keeps any order the input is in. */
  lemma {:induction false} FilterKeepsOrder<T(!new)>(xs: seq<T>, keep: T -> bool, le: (T, T) -> bool)
    requires forall i, j :: 0 <= i < j < |xs| ==> le(xs[i], xs[j])
    ensures forall i, j :: 0 <= i < j < |Filter(xs, keep)| ==> le(Filter(xs, keep)[i], Filter(xs, keep)[j])
  {
    if |xs| > 0 {
      var tail := xs[1..];
      OrderedTail(xs, le);
      FilterKeepsOrder(tail, keep, le);
      var rest := Filter(tail, keep);
      FilterUnfold(xs, keep);
      if keep(xs[0]) {
        HeadBeforeFiltered(xs, keep, le);
        OrderedCons(xs[0], rest, le);
      }
    }
  }

  lemma OrderedCons<T(!new)>(x: T, rest: seq<T>, le: (T, T) -> bool)
    requires forall y | y in rest :: le(x, y)
    requires forall i, j :: 0 <= i < j < |rest| ==> le(rest[i], rest[j])
    ensures forall i, j :: 0 <= i < j < |[x] + rest| ==> le(([x] + rest)[i], ([x] + rest)[j])
  {
    var r := [x] + rest;
    forall i, j | 0 <= i < j < |r| ensures le(r[i], r[j]) {
      assert r[j] == rest[j - 1] && r[j] in rest;
      if i > 0 {
        assert r[i] == rest[i - 1];
        assert le(rest[i - 1], rest[j - 1]);
      }
    }
  }

  lemma FilterUnfold<T(!new)>(xs: seq<T>, keep: T -> bool)
    requires |xs| > 0
    ensures Filter(xs, keep) == if keep(xs[0]) then [xs[0]] + Filter(xs[1..], keep) else Filter(xs[1..], keep)
  {
  }

  lemma OrderedTail<T(!new)>(xs: seq<T>, le: (T, T) -> bool)
    requires |xs| > 0
    requires forall i, j :: 0 <= i < j < |xs| ==> le(xs[i], xs[j])
    ensures forall i, j :: 0 <= i < j < |xs[1..]| ==> le(xs[1..][i], xs[1..][j])
  {
    var tail := xs[1..];
    forall i, j | 0 <= i < j < |tail| ensures le(tail[i], tail[j]) {
      assert tail[i] == xs[i + 1] && tail[j] == xs[j + 1];
      assert le(xs[i + 1], xs[j + 1]);
    }
  }

  lemma HeadBeforeFiltered<T(!new)>(xs: seq<T>, keep: T -> bool, le: (T, T) -> bool)
    requires |xs| > 0
    requires forall i, j :: 0 <= i < j < |xs| ==> le(xs[i], xs[j])
    ensures forall y | y in Filter(xs[1..], keep) :: le(xs[0], y)
  {
    forall y | y in Filter(xs[1..], keep) ensures le(xs[0], y) {
      FilterMembership(xs[1..], keep, y);
      var k :| 0 <= k < |xs[1..]| && xs[1..][k] == y;
      assert xs[k + 1] == y;
      assert le(xs[0], xs[k + 1]);
    }
  }

  /** Position of the first occurrence of `x` in `xs`. */
  function FirstIndex<T(!new,==)>(xs: seq<T>, x: T): (r: nat)
    requires x in xs
    ensures r < |xs| && xs[r] == x && x !in xs[..r]
  {
    if xs[0] == x then 0
    else
      assert xs[1..][..FirstIndex(xs[1..], x)] == xs[1..FirstIndex(xs[1..], x) + 1];
      assert xs[..FirstIndex(xs[1..], x) + 1] == [xs[0]] + xs[1..FirstIndex(xs[1..], x) + 1];
      FirstIndex(xs[1..], x) + 1
  }

  /** `[...new Set(xs)]`: one copy of each element, in first-occurrence order. */
  function Dedup<T(!new,==)>(xs: seq<T>): (r: seq<T>)
    ensures Distinct(r)
    ensures forall x :: x in r <==> x in xs
    ensures |r| <= |xs|
    decreases |xs|
  {
    if |xs| == 0 then []
    else
      var d := Dedup(xs[..|xs| - 1]);
      var last := xs[|xs| - 1];
      assert xs == xs[..|xs| - 1] + [last];
      if last in d then d else d + [last]
  }

  /** The first occurrence of `x` in a prefix is its first occurrence overall. */
  lemma FirstIndexPrefix<T(!new)>(xs: seq<T>, n: nat, x: T)
    requires n <= |xs| && x in xs[..n]
    ensures FirstIndex(xs[..n], x) == FirstIndex(xs, x)
  {
  }

  /** Dedup lists the elements in the order of their first occurrence. */
  lemma {:induction false} DedupFirstOccurrenceOrder<T(!new)>(xs: seq<T>)
    ensures forall i, j :: 0 <= i < j < |Dedup(xs)| ==>
      FirstIndex(xs, Dedup(xs)[i]) < FirstIndex(xs, Dedup(xs)[j])
    decreases |xs|
  {
    if |xs| > 0 {
      var n := |xs| - 1;
      DedupFirstOccurrenceOrder(xs[..n]);
      DedupStepOrder(xs);
    }
  }

  /** The step of the induction: appending the last element of `xs` to the
      de-duplicated prefix keeps first-occurrence order. */
  lemma DedupStepOrder<T(!new)>(xs: seq<T>)
    requires |xs| > 0
    requires var init := xs[..|xs| - 1]; forall i, j :: 0 <= i < j < |Dedup(init)| ==>
      FirstIndex(init, Dedup(init)[i]) < FirstIndex(init, Dedup(init)[j])
    ensures forall i, j :: 0 <= i < j < |Dedup(xs)| ==>
      FirstIndex(xs, Dedup(xs)[i]) < FirstIndex(xs, Dedup(xs)[j])
  {
    var n := |xs| - 1;
    var init := xs[..n];
    var d := Dedup(init);
    var last := xs[n];
    assert xs == init + [last];
    assert Dedup(xs) == if last in d then d else d + [last];
    forall x | x in d ensures FirstIndex(init, x) == FirstIndex(xs, x) {
      FirstIndexPrefix(xs, n, x);
    }
    if last !in d {
      assert last !in init;
      assert FirstIndex(xs, last) == n;
      forall i | 0 <= i < |d| ensures FirstIndex(xs, d[i]) < n {
        assert d[i] in d;
      }
    }
  }

  /** De-duplicating a duplicate-free sequence changes nothing. */
  lemma {:induction false} DedupOfDistinct<T(!new)>(xs: seq<T>)
    requires Distinct(xs)
    ensures Dedup(xs) == xs
    decreases |xs|
  {
    if |xs| > 0 {
      var n := |xs| - 1;
      DedupOfDistinct(xs[..n]);
      assert xs[n] !in xs[..n];
      assert xs == xs[..n] + [xs[n]];
    }
  }
}
