/**
 * The positions table's search/type filter and its sort order. The rows are the stored
 * `Position` records; the table works on a copy and never changes its input.
 */
module PositionTable {
  import opened Wrappers
  import opened Tables
  import opened Records

  // ---------------------------------------------------------------- text search

  /** `toLowerCase()` on one character; only the ASCII capitals are modelled. */
  function LowerChar(c: char): (r: char)
    ensures 'A' <= c <= 'Z' ==> r as int == c as int + 32
    ensures !('A' <= c <= 'Z') ==> r == c
  {
    if 'A' <= c <= 'Z' then (c as int + 32) as char else c
  }

  function Lower(s: string): (r: string)
    ensures |r| == |s| && forall i :: 0 <= i < |s| ==> r[i] == LowerChar(s[i])
  {
    seq(|s|, i requires 0 <= i < |s| => LowerChar(s[i]))
  }

  /** Lowering is idempotent, so a query already in lower case is unchanged by it. */
  lemma LowerIdempotent(s: string)
    ensures Lower(Lower(s)) == Lower(s)
  {
  }

  /** `s.includes(sub)`, searching from the left. */
  function Contains(s: string, sub: string): bool
    decreases |s|
  {
    (|sub| <= |s| && s[..|sub|] == sub) || (s != [] && Contains(s[1..], sub))
  }

  /** sub occurs in s starting at position i. */
  predicate OccursAt(s: string, sub: string, i: int)
  {
    0 <= i <= |s| - |sub| && s[i..i + |sub|] == sub
  }

  /** An occurrence of sub at position i is found by the search from the left. */
  lemma {:induction false} OccurrenceFound(s: string, sub: string, i: int)
    requires OccursAt(s, sub, i)
    ensures Contains(s, sub)
    decreases |s|
  {
    if i > 0 {
      assert OccursAt(s[1..], sub, i - 1);
      OccurrenceFound(s[1..], sub, i - 1);
    } else {
      assert s[..|sub|] == s[0..|sub|];
    }
  }

  /** When the search from the left succeeds, it has found an occurrence. */
  lemma {:induction false} FoundOccurrence(s: string, sub: string) returns (i: int)
    requires Contains(s, sub)
    ensures OccursAt(s, sub, i)
    decreases |s|
  {
    if |sub| <= |s| && s[..|sub|] == sub {
      i := 0;
    } else {
      var j := FoundOccurrence(s[1..], sub);
      i := j + 1;
      assert s[i..i + |sub|] == s[1..][j..j + |sub|];
    }
  }

  /** `includes` holds exactly when sub occurs at some position of s. */
  lemma ContainsAt(s: string, sub: string)
    ensures Contains(s, sub) <==> exists i :: OccursAt(s, sub, i)
  {
    if Contains(s, sub) {
      var i := FoundOccurrence(s, sub);
    }
    if exists i :: OccursAt(s, sub, i) {
      var i :| OccursAt(s, sub, i);
      OccurrenceFound(s, sub, i);
    }
  }

  /** The search box: an empty query matches; otherwise the asset or the ticker contains it, ignoring case. */
  predicate MatchesSearch(p: Position, query: string)
  {
    query == "" || Contains(Lower(p.asset), Lower(query)) || Contains(Lower(p.ticker), Lower(query))
  }

  /** `position.contractAddress` as a condition: present and not empty. */
  predicate HasContract(p: Position)
  {
    p.contractAddress.Some? && p.contractAddress.value != ""
  }

  /** The type selector: "all", "tokens" (no contract) or "contracts"; any other value matches nothing. */
  predicate MatchesType(p: Position, assetType: string)
  {
    assetType == "all" || (assetType == "tokens" && !HasContract(p)) || (assetType == "contracts" && HasContract(p))
  }

  /** `positions?.filter(...)`: undefined stays undefined. */
  function FilteredPositions(positions: Option<seq<Position>>, query: string, assetType: string): Option<seq<Position>>
  {
    match positions
    case None => None
    case Some(ps) => Some(Filter(ps, (p: Position) => MatchesSearch(p, query) && MatchesType(p, assetType)))
  }

  /**
   * The filter keeps exactly the positions matching both the search and the type, in their
   * original relative order.
   */
  lemma FilteredPositionsKeep(ps: seq<Position>, query: string, assetType: string)
    ensures var r := FilteredPositions(Some(ps), query, assetType).value;
      && (forall p :: p in r <==> p in ps && MatchesSearch(p, query) && MatchesType(p, assetType))
      && IsSubsequence(r, ps)
  {
    FilterIsSubsequence(ps, (p: Position) => MatchesSearch(p, query) && MatchesType(p, assetType));
  }

  /** A kept position's asset or ticker contains the query at some position, ignoring case. */
  lemma KeptMatchesQuery(ps: seq<Position>, query: string, assetType: string, p: Position)
    requires query != "" && p in FilteredPositions(Some(ps), query, assetType).value
    ensures var q := Lower(query);
      (exists i :: OccursAt(Lower(p.asset), q, i)) || (exists i :: OccursAt(Lower(p.ticker), q, i))
  {
    FilteredPositionsKeep(ps, query, assetType);
    ContainsAt(Lower(p.asset), Lower(query));
    ContainsAt(Lower(p.ticker), Lower(query));
  }

  /** With no query and the "all" filter, nothing is dropped. */
  lemma FilterAllKeepsEverything(ps: seq<Position>)
    ensures FilteredPositions(Some(ps), "", "all") == Some(ps)
  {
    KeepAll(ps, (p: Position) => MatchesSearch(p, "") && MatchesType(p, "all"));
  }

  lemma {:induction false} KeepAll<T(!new)>(xs: seq<T>, keep: T -> bool)
    requires forall x :: keep(x)
    ensures Filter(xs, keep) == xs
    decreases |xs|
  {
    if xs != [] {
      KeepAll(xs[1..], keep);
      assert [xs[0]] + xs[1..] == xs;
    }
  }

  // ---------------------------------------------------------------- sort

  datatype SortKey = ByValue | ByName | ByPerformance | Unsorted

  /** The sort selector's value; any other value leaves the order alone. */
  function SortKeyOf(sortBy: string): SortKey
  {
    if sortBy == "value" then ByValue
    else if sortBy == "name" then ByName
    else if sortBy == "performance" then ByPerformance
    else Unsorted
  }

  /** Code-unit order on strings, a proper prefix first. */
  predicate LexLess(a: string, b: string)
    decreases |a|
  {
    b != [] && (a == [] || a[0] < b[0] || (a[0] == b[0] && LexLess(a[1..], b[1..])))
  }

  lemma {:induction false} LexLessIrreflexive(a: string)
    ensures !LexLess(a, a)
    decreases |a|
  {
    if a != [] {
      LexLessIrreflexive(a[1..]);
    }
  }

  lemma {:induction false} LexLessTransitive(a: string, b: string, c: string)
    requires LexLess(a, b) && LexLess(b, c)
    ensures LexLess(a, c)
    decreases |a|
  {
    if a != [] && a[0] == b[0] && b[0] == c[0] {
      LexLessTransitive(a[1..], b[1..], c[1..]);
    }
  }

  /** Two strings neither of which is below the other are equal: the order is total. */
  lemma {:induction false} LexLessTotal(a: string, b: string)
    requires !LexLess(a, b) && !LexLess(b, a)
    ensures a == b
    decreases |a|
  {
    if a != [] && b != [] {
      LexLessTotal(a[1..], b[1..]);
      assert a == [a[0]] + a[1..] && b == [b[0]] + b[1..];
    }
  }

  /** The comparator is negative: a goes before b. */
  predicate Before(k: SortKey, a: Position, b: Position)
  {
    match k
    case ByValue => b.value - a.value < 0.0
    case ByName => LexLess(a.asset, b.asset)
    case ByPerformance => b.change24h - a.change24h < 0.0
    case Unsorted => false
  }

  /**
   * Neither-before is transitive; with irreflexivity this makes each comparator a strict weak
   * order, the condition under which `sort` has a defined result.
   */
  lemma NotBeforeTransitive(k: SortKey, a: Position, b: Position, c: Position)
    requires !Before(k, b, a) && !Before(k, c, b)
    ensures !Before(k, c, a)
  {
    if k.ByName? && LexLess(c.asset, a.asset) {
      if LexLess(c.asset, b.asset) {
      } else if LexLess(b.asset, c.asset) {
        LexLessTransitive(b.asset, c.asset, a.asset);
      } else {
        LexLessTotal(b.asset, c.asset);
      }
    }
  }

  /** Stable insertion of x, which came before every element of s in the input. */
  function Insert(k: SortKey, x: Position, s: seq<Position>): (r: seq<Position>)
    ensures |r| == |s| + 1
    decreases |s|
  {
    if s == [] || !Before(k, s[0], x) then [x] + s
    else [s[0]] + Insert(k, x, s[1..])
  }

  /** `[...positions].sort(comparator)`, which is stable: a copy, ordered by the key. */
  function Sort(k: SortKey, xs: seq<Position>): (r: seq<Position>)
    ensures |r| == |xs|
    decreases |xs|
  {
    if xs == [] then [] else Insert(k, xs[0], Sort(k, xs[1..]))
  }

  /** No element of s is put before one that precedes it. */
  ghost predicate Ordered(k: SortKey, s: seq<Position>)
  {
    forall i, j :: 0 <= i < j < |s| ==> !Before(k, s[j], s[i])
  }

  lemma {:induction false} InsertPermutes(k: SortKey, x: Position, s: seq<Position>)
    ensures multiset(Insert(k, x, s)) == multiset(s) + multiset{x}
    decreases |s|
  {
    if s != [] && Before(k, s[0], x) {
      InsertPermutes(k, x, s[1..]);
      assert s == [s[0]] + s[1..];
    }
  }

  lemma {:induction false} InsertOrdered(k: SortKey, x: Position, s: seq<Position>)
    requires Ordered(k, s)
    ensures Ordered(k, Insert(k, x, s))
    decreases |s|
  {
    var r := Insert(k, x, s);
    if s == [] || !Before(k, s[0], x) {
      forall j | 1 <= j < |r|
        ensures !Before(k, r[j], x)
      {
        if j > 1 {
          NotBeforeTransitive(k, x, s[0], s[j - 1]);
        }
      }
    } else {
      InsertOrdered(k, x, s[1..]);
      InsertPermutes(k, x, s[1..]);
      var tail := Insert(k, x, s[1..]);
      forall j | 0 <= j < |tail|
        ensures !Before(k, tail[j], s[0])
      {
        assert tail[j] in multiset(s[1..]) + multiset{x};
        if tail[j] != x {
          assert tail[j] in s[1..];
          var m :| 0 <= m < |s[1..]| && s[1..][m] == tail[j];
          assert s[m + 1] == tail[j];
        } else {
          BeforeAsymmetric(k, s[0], x);
        }
      }
    }
  }

  lemma BeforeAsymmetric(k: SortKey, a: Position, b: Position)
    requires Before(k, a, b)
    ensures !Before(k, b, a)
  {
    if k.ByName? && LexLess(b.asset, a.asset) {
      LexLessTransitive(a.asset, b.asset, a.asset);
      LexLessIrreflexive(a.asset);
    }
  }

  /** The sort returns the same positions, each as often as before, in the key's order. */
  lemma {:induction false} SortCorrect(k: SortKey, xs: seq<Position>)
    ensures multiset(Sort(k, xs)) == multiset(xs)
    ensures Ordered(k, Sort(k, xs))
    decreases |xs|
  {
    if xs != [] {
      SortCorrect(k, xs[1..]);
      InsertPermutes(k, xs[0], Sort(k, xs[1..]));
      InsertOrdered(k, xs[0], Sort(k, xs[1..]));
      assert xs == [xs[0]] + xs[1..];
    }
  }

  /** An unknown sort key keeps the filtered order. */
  lemma {:induction false} UnsortedKeepsOrder(xs: seq<Position>)
    ensures Sort(Unsorted, xs) == xs
    decreases |xs|
  {
    if xs != [] {
      UnsortedKeepsOrder(xs[1..]);
    }
  }

  /** `sortedPositions`: the filtered list, or an empty one when there are no positions. */
  function SortedPositions(positions: Option<seq<Position>>, query: string, assetType: string,
                           sortBy: string): seq<Position>
  {
    match FilteredPositions(positions, query, assetType)
    case None => []
    case Some(filtered) => Sort(SortKeyOf(sortBy), filtered)
  }

  /**
   * The displayed list is a rearrangement of the filtered one: by value, largest first; by
   * name, ascending asset; by performance, largest 24-hour change first; otherwise unchanged.
   */
  lemma SortedPositionsOrder(ps: seq<Position>, query: string, assetType: string, sortBy: string)
    ensures var filtered := FilteredPositions(Some(ps), query, assetType).value;
      var r := SortedPositions(Some(ps), query, assetType, sortBy);
      && multiset(r) == multiset(filtered)
      && (sortBy == "value" ==> forall i, j :: 0 <= i < j < |r| ==> r[i].value >= r[j].value)
      && (sortBy == "name" ==> forall i, j :: 0 <= i < j < |r| ==> !LexLess(r[j].asset, r[i].asset))
      && (sortBy == "performance" ==> forall i, j :: 0 <= i < j < |r| ==> r[i].change24h >= r[j].change24h)
      && (SortKeyOf(sortBy) == Unsorted ==> r == filtered)
  {
    var filtered := FilteredPositions(Some(ps), query, assetType).value;
    SortCorrect(SortKeyOf(sortBy), filtered);
    UnsortedKeepsOrder(filtered);
  }

  /** No positions at all shows an empty table. */
  lemma SortedPositionsMissing(query: string, assetType: string, sortBy: string)
    ensures SortedPositions(None, query, assetType, sortBy) == []
  {
  }
}
