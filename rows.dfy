/**
 * Generic operations over the rows of an in-memory table, kept in insertion order:
 * the first row that satisfies a condition (SQL `... LIMIT 1`, JavaScript `find`),
 * the rows that satisfy it (SQL `WHERE`, JavaScript `filter`) and the reversed order.
 */
module Rows {
  import opened Wrappers

  /** Index of the first row satisfying `p`, if any. */
  function FirstIndex<T>(rows: seq<T>, p: T -> bool): (r: Option<nat>)
    ensures r.Some? ==> r.value < |rows| && p(rows[r.value])
    ensures r.Some? ==> forall j :: 0 <= j < r.value ==> !p(rows[j])
    ensures r.None? <==> forall j :: 0 <= j < |rows| ==> !p(rows[j])
  {
    if |rows| == 0 then None
    else if p(rows[0]) then Some(0)
    else match FirstIndex(rows[1..], p)
      case None => None
      case Some(k) => Some(k + 1)
  }

  /** The first row satisfying `p`, or None: `result[0] || null`. */
  function First<T>(rows: seq<T>, p: T -> bool): (r: Option<T>)
    ensures r.Some? ==> p(r.value) && exists i :: 0 <= i < |rows| && rows[i] == r.value && IsFirst(rows, p, i)
    ensures r.None? <==> forall j :: 0 <= j < |rows| ==> !p(rows[j])
  {
    match FirstIndex(rows, p)
    case None => None
    case Some(i) => Some(rows[i])
  }

  /** No row before position `i` satisfies `p`. */
  predicate IsFirst<T>(rows: seq<T>, p: T -> bool, i: nat)
  {
    forall j :: 0 <= j < i && j < |rows| ==> !p(rows[j])
  }

  /** The rows satisfying `p`, in their original order. */
  function Filter<T>(rows: seq<T>, p: T -> bool): (r: seq<T>)
    ensures |r| <= |rows|
    ensures forall i :: 0 <= i < |r| ==> p(r[i])
  {
    if |rows| == 0 then []
    else if p(rows[0]) then [rows[0]] + Filter(rows[1..], p)
    else Filter(rows[1..], p)
  }

  /** `a` is `b` with some rows left out and the rest kept in order. */
  predicate IsSubsequence<T(==)>(a: seq<T>, b: seq<T>)
  {
    if |a| == 0 then true
    else if |b| == 0 then false
    else if a[0] == b[0] then IsSubsequence(a[1..], b[1..])
    else IsSubsequence(a, b[1..])
  }

  function Reverse<T>(s: seq<T>): (r: seq<T>)
    ensures |r| == |s|
    ensures forall i :: 0 <= i < |s| ==> r[i] == s[|s| - 1 - i]
  {
    if |s| == 0 then [] else Reverse(s[1..]) + [s[0]]
  }

  /** A row belongs to the filtered table exactly when it belongs to the table and satisfies `p`. */
  lemma {:induction false} FilterMembership<T>(rows: seq<T>, p: T -> bool, x: T)
    ensures x in Filter(rows, p) <==> x in rows && p(x)
  {
    if |rows| > 0 {
      FilterMembership(rows[1..], p, x);
      assert rows == [rows[0]] + rows[1..];
    }
  }

  /** Filtering keeps every copy of a row that satisfies `p` and no copy of one that does not. */
  lemma {:induction false} FilterMultiplicity<T>(rows: seq<T>, p: T -> bool, x: T)
    ensures multiset(Filter(rows, p))[x] == if p(x) then multiset(rows)[x] else 0
  {
    if |rows| > 0 {
      FilterMultiplicity(rows[1..], p, x);
      assert rows == [rows[0]] + rows[1..];
      if p(rows[0]) {
        assert Filter(rows, p) == [rows[0]] + Filter(rows[1..], p);
      }
    }
  }

  /** Filtering keeps the original order: the result is a subsequence of the table. */
  lemma {:induction false} FilterIsSubsequence<T>(rows: seq<T>, p: T -> bool)
    ensures IsSubsequence(Filter(rows, p), rows)
  {
    if |rows| > 0 {
      FilterIsSubsequence(rows[1..], p);
      var r := Filter(rows, p);
      if p(rows[0]) {
        assert r[0] == rows[0] && r[1..] == Filter(rows[1..], p);
      } else {
        SubsequenceOfTail(r, rows[1..], rows[0]);
        assert [rows[0]] + rows[1..] == rows;
      }
    }
  }

  /** Putting a row in front of the larger sequence keeps a subsequence one. */
  lemma {:induction false} SubsequenceOfTail<T>(a: seq<T>, b: seq<T>, x: T)
    requires IsSubsequence(a, b)
    ensures IsSubsequence(a, [x] + b)
    decreases |b|, 1
  {
    var xb := [x] + b;
    assert xb[1..] == b;
    if |a| > 0 && a[0] == x {
      SubsequenceDropHead(a, b);
    }
  }

  /** Leaving out the first row of a subsequence keeps it a subsequence. */
  lemma {:induction false} SubsequenceDropHead<T>(a: seq<T>, b: seq<T>)
    requires |a| > 0 && IsSubsequence(a, b)
    ensures IsSubsequence(a[1..], b)
    decreases |b|, 0
  {
    if |b| > 0 {
      if a[0] != b[0] {
        SubsequenceDropHead(a, b[1..]);
      }
      SubsequenceOfTail(a[1..], b[1..], b[0]);
      assert [b[0]] + b[1..] == b;
    }
  }

  /** Every table is a subsequence of itself. */
  lemma {:induction false} SubsequenceOfItself<T>(rows: seq<T>)
    ensures IsSubsequence(rows, rows)
  {
    if |rows| > 0 {
      SubsequenceOfItself(rows[1..]);
    }
  }

  /** The rows' keys strictly increase along the table. */
  predicate IncreasingBy<T>(rows: seq<T>, key: T -> int)
  {
    forall i, j :: 0 <= i < j < |rows| ==> key(rows[i]) < key(rows[j])
  }

  /** Filtering keeps increasing keys increasing. */
  lemma {:induction false} FilterKeepsIncreasing<T>(rows: seq<T>, p: T -> bool, key: T -> int)
    requires IncreasingBy(rows, key)
    ensures IncreasingBy(Filter(rows, p), key)
  {
    if |rows| > 0 {
      var rest := rows[1..];
      assert IncreasingBy(rest, key) by {
        assert forall i :: 0 <= i < |rest| ==> rest[i] == rows[i + 1];
      }
      FilterKeepsIncreasing(rest, p, key);
      if p(rows[0]) {
        var tail := Filter(rest, p);
        forall x | x in tail ensures key(rows[0]) < key(x) {
          FilterMembership(rest, p, x);
          var k :| 0 <= k < |rest| && rest[k] == x;
          assert rows[k + 1] == x;
        }
        var r := [rows[0]] + tail;
        forall i, j | 0 <= i < j < |r| ensures key(r[i]) < key(r[j]) {
          assert r[j] == tail[j - 1] && r[j] in tail;
          if i > 0 {
            assert r[i] == tail[i - 1];
          }
        }
      }
    }
  }

  /** The row `x` alone when it satisfies `p`, nothing otherwise. */
  function Keep<T>(x: T, p: T -> bool): (r: seq<T>)
    ensures r == [x] <==> p(x)
    ensures r == [] <==> !p(x)
  {
    if p(x) then [x] else []
  }

  /** Filtering a row put in front of a table: the row is kept exactly when it satisfies `p`. */
  lemma FilterCons<T>(x: T, rest: seq<T>, p: T -> bool)
    ensures Filter([x] + rest, p) == Keep(x, p) + Filter(rest, p)
  {
    var rows := [x] + rest;
    assert rows[0] == x && rows[1..] == rest;
  }
}
