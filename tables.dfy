/**
 * The array built-ins the storage and the positions table rely on:
 * `Array.from(map.values())` on an id-keyed map, `filter` and `find`.
 */
module Tables {
  import opened Wrappers

  /** Every key is an id in [1, next): the ids handed out so far by a counter starting at 1. */
  predicate IdsBelow(keys: set<int>, next: int)
  {
    next >= 1 && forall k | k in keys :: 1 <= k < next
  }

  /** Every value is stored under its own id. */
  predicate Keyed<T>(m: map<int, T>, id: T -> int)
  {
    forall k | k in m :: id(m[k]) == k
  }

  /**
   * `Array.from(map.values())` for a map whose keys are ids below `next`. A JavaScript Map
   * iterates in insertion order; ids are inserted in increasing order and `set` on an
   * existing key keeps its place, so the order is ascending id.
   */
  function InIdOrder<T>(m: map<int, T>, next: int): (r: seq<T>)
    ensures |r| <= if next > 1 then next - 1 else 0
    decreases next
  {
    if next <= 1 then [] else InIdOrder(m, next - 1) + (if next - 1 in m then [m[next - 1]] else [])
  }

  /** Every row is a stored value with its own id in [1, next). */
  lemma {:induction false} InIdOrderStored<T>(m: map<int, T>, next: int, id: T -> int)
    requires Keyed(m, id)
    ensures forall i :: 0 <= i < |InIdOrder(m, next)| ==>
      1 <= id(InIdOrder(m, next)[i]) < next && id(InIdOrder(m, next)[i]) in m
      && m[id(InIdOrder(m, next)[i])] == InIdOrder(m, next)[i]
    decreases next
  {
    if next > 1 {
      InIdOrderStored(m, next - 1, id);
      var prefix := InIdOrder(m, next - 1);
      var r := InIdOrder(m, next);
      forall i | 0 <= i < |r|
        ensures 1 <= id(r[i]) < next && id(r[i]) in m && m[id(r[i])] == r[i]
      {
        if i < |prefix| {
          assert r[i] == prefix[i];
        }
      }
    }
  }

  /** The rows come in strictly increasing id order. */
  lemma {:induction false} InIdOrderIncreasing<T>(m: map<int, T>, next: int, id: T -> int)
    requires Keyed(m, id)
    ensures forall i, j :: 0 <= i < j < |InIdOrder(m, next)| ==>
      id(InIdOrder(m, next)[i]) < id(InIdOrder(m, next)[j])
    decreases next
  {
    if next > 1 {
      InIdOrderIncreasing(m, next - 1, id);
      InIdOrderStored(m, next - 1, id);
      var prefix := InIdOrder(m, next - 1);
      var r := InIdOrder(m, next);
      forall i, j | 0 <= i < j < |r|
        ensures id(r[i]) < id(r[j])
      {
        if j < |prefix| {
          assert r[i] == prefix[i] && r[j] == prefix[j];
        } else {
          assert r[i] == prefix[i];
        }
      }
    }
  }

  /** Every value stored under an id in [1, next) is among the rows. */
  lemma {:induction false} InIdOrderComplete<T>(m: map<int, T>, next: int)
    ensures forall k | k in m && 1 <= k < next :: m[k] in InIdOrder(m, next)
    decreases next
  {
    if next > 1 {
      InIdOrderComplete(m, next - 1);
      var prefix := InIdOrder(m, next - 1);
      var r := InIdOrder(m, next);
      forall k | k in m && 1 <= k < next
        ensures m[k] in r
      {
        if k < next - 1 {
          assert m[k] in prefix;
        } else {
          assert r[|r| - 1] == m[k];
        }
      }
    }
  }

  /**
   * When each value carries its own key as id, the rows are exactly the values stored under
   * the ids in [1, next), in strictly increasing id order.
   */
  lemma InIdOrderRows<T>(m: map<int, T>, next: int, id: T -> int)
    requires Keyed(m, id)
    ensures forall i :: 0 <= i < |InIdOrder(m, next)| ==>
      1 <= id(InIdOrder(m, next)[i]) < next && id(InIdOrder(m, next)[i]) in m
      && m[id(InIdOrder(m, next)[i])] == InIdOrder(m, next)[i]
    ensures forall i, j :: 0 <= i < j < |InIdOrder(m, next)| ==>
      id(InIdOrder(m, next)[i]) < id(InIdOrder(m, next)[j])
    ensures forall k | k in m && 1 <= k < next :: m[k] in InIdOrder(m, next)
  {
    InIdOrderStored(m, next, id);
    InIdOrderIncreasing(m, next, id);
    InIdOrderComplete(m, next);
  }

  /** `xs.filter(keep)`. */
  function Filter<T(==,!new)>(xs: seq<T>, keep: T -> bool): (r: seq<T>)
    ensures |r| <= |xs|
    ensures forall x :: x in r <==> x in xs && keep(x)
    decreases |xs|
  {
    if xs == [] then []
    else
      var rest := Filter(xs[1..], keep);
      assert forall x :: x in xs <==> x == xs[0] || x in xs[1..];
      (if keep(xs[0]) then [xs[0]] else []) + rest
  }

  /** Filtering a concatenation filters each part: the kept elements keep their relative order. */
  lemma {:induction false} FilterAppend<T(!new)>(xs: seq<T>, ys: seq<T>, keep: T -> bool)
    ensures Filter(xs + ys, keep) == Filter(xs, keep) + Filter(ys, keep)
    decreases |xs|
  {
    if xs != [] {
      var head := if keep(xs[0]) then [xs[0]] else [];
      assert (xs + ys)[0] == xs[0] && (xs + ys)[1..] == xs[1..] + ys;
      assert Filter(xs + ys, keep) == head + Filter(xs[1..] + ys, keep);
      FilterAppend(xs[1..], ys, keep);
      assert Filter(xs, keep) == head + Filter(xs[1..], keep);
      assert head + (Filter(xs[1..], keep) + Filter(ys, keep))
          == (head + Filter(xs[1..], keep)) + Filter(ys, keep);
    } else {
      assert xs + ys == ys;
    }
  }

  /** a can be obtained from b by deleting elements. */
  ghost predicate IsSubsequence<T>(a: seq<T>, b: seq<T>)
    decreases |b|
  {
    a == [] || (b != [] && if a[0] == b[0] then IsSubsequence(a[1..], b[1..]) else IsSubsequence(a, b[1..]))
  }

  /** `filter` keeps its elements in their relative order. */
  lemma {:induction false} FilterIsSubsequence<T(!new)>(xs: seq<T>, keep: T -> bool)
    ensures IsSubsequence(Filter(xs, keep), xs)
    decreases |xs|
  {
    if xs != [] {
      FilterIsSubsequence(xs[1..], keep);
      var r := Filter(xs, keep);
      if keep(xs[0]) {
        assert r[0] == xs[0] && r[1..] == Filter(xs[1..], keep);
      } else {
        assert r == Filter(xs[1..], keep);
        SkipHead(r, xs);
      }
    }
  }

  /** A subsequence of the tail is a subsequence of the whole. */
  lemma {:induction false} SkipHead<T>(a: seq<T>, b: seq<T>)
    requires b != [] && IsSubsequence(a, b[1..])
    ensures IsSubsequence(a, b)
    decreases |b|, |a|
  {
    if a != [] && a[0] == b[0] {
      // a[1..] is a subsequence of b[1..] because a is
      SubsequenceDropFirst(a, b[1..]);
    }
  }

  /** Dropping the first element of a subsequence leaves a subsequence. */
  lemma {:induction false} SubsequenceDropFirst<T>(a: seq<T>, b: seq<T>)
    requires a != [] && IsSubsequence(a, b)
    ensures IsSubsequence(a[1..], b)
    decreases |b|, |a|
  {
    if a[0] == b[0] {
      if a[1..] != [] {
        SkipHead(a[1..], b);
      }
    } else {
      SubsequenceDropFirst(a, b[1..]);
      if a[1..] != [] {
        SkipHead(a[1..], b);
      }
    }
  }

  /** Filtering keeps a strictly increasing order. */
  lemma {:induction false} FilterKeepsOrder<T(!new)>(xs: seq<T>, keep: T -> bool, id: T -> int)
    requires forall i, j :: 0 <= i < j < |xs| ==> id(xs[i]) < id(xs[j])
    ensures forall i, j :: 0 <= i < j < |Filter(xs, keep)| ==>
      id(Filter(xs, keep)[i]) < id(Filter(xs, keep)[j])
    decreases |xs|
  {
    if xs != [] {
      var rest := Filter(xs[1..], keep);
      FilterKeepsOrder(xs[1..], keep, id);
      if keep(xs[0]) {
        FilterAboveHead(xs, keep, id);
        assert Filter(xs, keep) == [xs[0]] + rest;
        ConsIncreasing(xs[0], rest, id);
      } else {
        assert Filter(xs, keep) == rest;
      }
    }
  }

  /** An element below every id of an id-increasing sequence can head it. */
  lemma ConsIncreasing<T>(x: T, rest: seq<T>, id: T -> int)
    requires forall j :: 0 <= j < |rest| ==> id(x) < id(rest[j])
    requires forall i, j :: 0 <= i < j < |rest| ==> id(rest[i]) < id(rest[j])
    ensures forall i, j :: 0 <= i < j < |[x] + rest| ==> id(([x] + rest)[i]) < id(([x] + rest)[j])
  {
    var r := [x] + rest;
    forall i, j | 0 <= i < j < |r|
      ensures id(r[i]) < id(r[j])
    {
      assert r[j] == rest[j - 1];
      if i > 0 {
        assert r[i] == rest[i - 1];
      }
    }
  }

  /** In an id-increasing sequence, what the filter keeps of the tail has ids above the head's. */
  lemma FilterAboveHead<T(!new)>(xs: seq<T>, keep: T -> bool, id: T -> int)
    requires xs != []
    requires forall i, j :: 0 <= i < j < |xs| ==> id(xs[i]) < id(xs[j])
    ensures forall j :: 0 <= j < |Filter(xs[1..], keep)| ==> id(xs[0]) < id(Filter(xs[1..], keep)[j])
  {
    var rest := Filter(xs[1..], keep);
    forall j | 0 <= j < |rest|
      ensures id(xs[0]) < id(rest[j])
    {
      assert rest[j] in rest;
      var k :| 0 <= k < |xs[1..]| && xs[1..][k] == rest[j];
      assert xs[k + 1] == rest[j];
    }
  }

  /** The index of the first element satisfying p: `findIndex`, with None for -1. */
  function FirstIndex<T>(xs: seq<T>, p: T -> bool): (r: Option<nat>)
    ensures r.Some? ==> r.value < |xs| && p(xs[r.value]) && forall j :: 0 <= j < r.value ==> !p(xs[j])
    ensures r.None? ==> forall j :: 0 <= j < |xs| ==> !p(xs[j])
    decreases |xs|
  {
    if xs == [] then None
    else if p(xs[0]) then Some(0)
    else match FirstIndex(xs[1..], p)
      case None => None
      case Some(i) => Some(i + 1)
  }

  /** `xs.find(p)`: the first element satisfying p, or undefined. */
  function Find<T>(xs: seq<T>, p: T -> bool): Option<T>
  {
    match FirstIndex(xs, p)
    case None => None
    case Some(i) => Some(xs[i])
  }

  /**
   * The rows of an id-keyed map whose values carry their own key as id, filtered: exactly the
   * stored values that pass, in strictly increasing id order.
   */
  lemma RowsWhere<T(!new)>(m: map<int, T>, next: int, id: T -> int, keep: T -> bool)
    requires Keyed(m, id)
    requires IdsBelow(m.Keys, next)
    ensures forall i :: 0 <= i < |Filter(InIdOrder(m, next), keep)| ==>
      var x := Filter(InIdOrder(m, next), keep)[i]; id(x) in m && m[id(x)] == x && keep(x)
    ensures forall k | k in m && keep(m[k]) :: m[k] in Filter(InIdOrder(m, next), keep)
    ensures forall i, j :: 0 <= i < j < |Filter(InIdOrder(m, next), keep)| ==>
      id(Filter(InIdOrder(m, next), keep)[i]) < id(Filter(InIdOrder(m, next), keep)[j])
  {
    InIdOrderRows(m, next, id);
    var rows := InIdOrder(m, next);
    var r := Filter(rows, keep);
    forall i | 0 <= i < |r|
      ensures id(r[i]) in m && m[id(r[i])] == r[i] && keep(r[i])
    {
      assert r[i] in rows;
    }
    FilterKeepsOrder(rows, keep, id);
  }

  /**
   * `find` over the rows of an id-keyed map: undefined exactly when no stored value passes,
   * otherwise the passing value with the smallest id.
   */
  lemma FindRow<T>(m: map<int, T>, next: int, id: T -> int, p: T -> bool)
    requires Keyed(m, id)
    requires IdsBelow(m.Keys, next)
    ensures Find(InIdOrder(m, next), p).None? <==> forall k | k in m :: !p(m[k])
    ensures Find(InIdOrder(m, next), p).Some? ==>
      var x := Find(InIdOrder(m, next), p).value;
      id(x) in m && m[id(x)] == x && p(x) && forall k | k in m && p(m[k]) :: id(x) <= k
  {
    var rows := InIdOrder(m, next);
    InIdOrderRows(m, next, id);
    var fi := FirstIndex(rows, p);
    if fi.Some? {
      var i := fi.value;
      forall k | k in m && p(m[k])
        ensures id(rows[i]) <= k
      {
        assert m[k] in rows;
        var j :| 0 <= j < |rows| && rows[j] == m[k];
        assert j >= i;
      }
    } else {
      forall k | k in m
        ensures !p(m[k])
      {
        assert m[k] in rows;
      }
    }
  }
}
