/**
 * java.util.Collections.sort, as the handlers use it: on a list of strings that may hold
 * duplicates, and on the key set of a map (no duplicates). Both are specified by a strict
 * total order `lt` (Java's `compareTo(...) < 0`).
 */
module Sorting {

  ghost predicate StrictTotalOrder<T(!new)>(lt: (T, T) -> bool) {
    && (forall a :: !lt(a, a))
    && (forall a, b, c :: lt(a, b) && lt(b, c) ==> lt(a, c))
    && (forall a, b :: a != b ==> lt(a, b) || lt(b, a))
  }

  /** Non-decreasing: no later element is below an earlier one. */
  predicate Sorted<T>(s: seq<T>, lt: (T, T) -> bool) {
    forall i, j :: 0 <= i < j < |s| ==> !lt(s[j], s[i])
  }

  predicate StrictlySorted<T>(s: seq<T>, lt: (T, T) -> bool) {
    forall i, j :: 0 <= i < j < |s| ==> lt(s[i], s[j])
  }

  function InsertSorted<T(==,!new)>(x: T, s: seq<T>, lt: (T, T) -> bool): (r: seq<T>)
    requires StrictTotalOrder(lt) && Sorted(s, lt)
    ensures Sorted(r, lt) && multiset(r) == multiset(s) + multiset{x}
  {
    if s == [] then [x]
    else if !lt(s[0], x) then
      assert forall j :: 0 <= j < |s| ==> !lt(s[j], x) by {
        forall j | 0 <= j < |s| ensures !lt(s[j], x) {
          if j > 0 && s[j] != s[0] { assert !lt(s[j], s[0]); }
        }
      }
      assert s == [s[0]] + s[1..];
      [x] + s
    else
      var rest := InsertSorted(x, s[1..], lt);
      HeadBelowRest(s, x, rest, lt);
      assert s == [s[0]] + s[1..];
      [s[0]] + rest
  }

  /** The head of a sorted list is below every element of its tail with a larger `x` added. */
  lemma HeadBelowRest<T(!new)>(s: seq<T>, x: T, rest: seq<T>, lt: (T, T) -> bool)
    requires StrictTotalOrder(lt) && Sorted(s, lt) && s != [] && lt(s[0], x)
    requires multiset(rest) == multiset(s[1..]) + multiset{x}
    ensures forall k :: 0 <= k < |rest| ==> !lt(rest[k], s[0])
  {
    forall k | 0 <= k < |rest| ensures !lt(rest[k], s[0]) {
      var y := rest[k];
      assert y in multiset(rest);
      if y != x {
        assert y in multiset(s[1..]);
        var j :| 0 <= j < |s[1..]| && s[1..][j] == y;
        assert s[j + 1] == y;
      }
    }
  }

  /** Insertion sort: the result is sorted and a permutation of the input. */
  function Sort<T(==,!new)>(s: seq<T>, lt: (T, T) -> bool): (r: seq<T>)
    requires StrictTotalOrder(lt)
    ensures Sorted(r, lt) && multiset(r) == multiset(s)
  {
    if s == [] then []
    else
      assert s == [s[0]] + s[1..];
      InsertSorted(s[0], Sort(s[1..], lt), lt)
  }

  predicate IsMinimum<T>(m: T, s: set<T>, lt: (T, T) -> bool) {
    m in s && forall y :: y in s && y != m ==> lt(m, y)
  }

  lemma {:induction false} MinimumExists<T(!new)>(s: set<T>, lt: (T, T) -> bool)
    requires StrictTotalOrder(lt) && s != {}
    ensures exists m :: IsMinimum(m, s, lt)
    decreases s
  {
    var x :| x in s;
    if s - {x} == {} {
      assert s == {x};
      assert IsMinimum(x, s, lt);
    } else {
      MinimumExists(s - {x}, lt);
      var m :| IsMinimum(m, s - {x}, lt);
      if lt(x, m) {
        forall y | y in s && y != x ensures lt(x, y) {
          if y != m { assert lt(m, y); }
        }
        assert IsMinimum(x, s, lt);
      } else {
        assert IsMinimum(m, s, lt);
      }
    }
  }

  lemma MinimumUnique<T(!new)>(m: T, m': T, s: set<T>, lt: (T, T) -> bool)
    requires StrictTotalOrder(lt) && IsMinimum(m, s, lt) && IsMinimum(m', s, lt)
    ensures m == m'
  {
  }

  /** The elements of a set in ascending order. */
  ghost function SortedSet<T(!new)>(s: set<T>, lt: (T, T) -> bool): (r: seq<T>)
    requires StrictTotalOrder(lt)
    ensures StrictlySorted(r, lt) && |r| == |s|
    ensures forall x :: x in r <==> x in s
    decreases s
  {
    if s == {} then []
    else
      MinimumExists(s, lt);
      var m :| IsMinimum(m, s, lt);
      var rest := SortedSet(s - {m}, lt);
      assert forall k :: 0 <= k < |rest| ==> rest[k] in s - {m};
      [m] + rest
  }

  lemma SortedSetHead<T(!new)>(s: set<T>, m: T, lt: (T, T) -> bool)
    requires StrictTotalOrder(lt) && IsMinimum(m, s, lt)
    ensures SortedSet(s, lt) == [m] + SortedSet(s - {m}, lt)
  {
    var r := SortedSet(s, lt);
    assert r[0] in s;
    assert IsMinimum(r[0], s, lt) by {
      forall y | y in s && y != r[0] ensures lt(r[0], y) {
        var k :| 0 <= k < |r| && r[k] == y;
      }
    }
    MinimumUnique(r[0], m, s, lt);
  }

  lemma SelectMinimum<T(!new)>(s: set<T>, rest: set<T>, r: seq<T>, m: T, lt: (T, T) -> bool)
    requires StrictTotalOrder(lt) && IsMinimum(m, rest, lt)
    requires r + SortedSet(rest, lt) == SortedSet(s, lt)
    ensures (r + [m]) + SortedSet(rest - {m}, lt) == SortedSet(s, lt)
  {
    var tail := SortedSet(rest - {m}, lt);
    assert SortedSet(rest, lt) == [m] + tail by { SortedSetHead(rest, m, lt); }
    assert (r + [m]) + tail == r + ([m] + tail);
  }

  /** Collections.sort over a copy of a key set: selection of the minimum, one at a time. */
  method SortSet<T(!new)>(s: set<T>, lt: (T, T) -> bool) returns (r: seq<T>)
    requires StrictTotalOrder(lt)
    ensures r == SortedSet(s, lt)
  {
    r := [];
    var rest := s;
    while rest != {}
      invariant r + SortedSet(rest, lt) == SortedSet(s, lt)
      decreases |rest|
    {
      MinimumExists(rest, lt);
      var m :| IsMinimum(m, rest, lt);
      SelectMinimum(s, rest, r, m, lt);
      r := r + [m];
      rest := rest - {m};
    }
  }
}
