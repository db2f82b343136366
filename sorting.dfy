/** `Array.prototype.sort` with a comparator: a stable sort. The comparator is
    given as `le(a, b)`, "a may come before b" (the comparator returns zero or
    less). A stable sort by a total preorder has one result, which this
    insertion sort computes. */
module Sorting {
  import opened Seqs

  ghost predicate TotalPreorder<T(!new)>(le: (T, T) -> bool) {
    && (forall a, b :: le(a, b) || le(b, a))
    && (forall a, b, c :: le(a, b) && le(b, c) ==> le(a, c))
  }

  ghost predicate SortedBy<T>(s: seq<T>, le: (T, T) -> bool) {
    forall i, j :: 0 <= i < j < |s| ==> le(s[i], s[j])
  }

  /** `x` placed before the first element it may precede. */
  function Insert<T>(x: T, s: seq<T>, le: (T, T) -> bool): (r: seq<T>)
    ensures |r| == |s| + 1
    ensures multiset(r) == multiset(s) + multiset{x}
  {
    if s == [] || le(x, s[0]) then [x] + s
    else
      assert s == [s[0]] + s[1..];
      [s[0]] + Insert(x, s[1..], le)
  }

  function SortBy<T>(s: seq<T>, le: (T, T) -> bool): (r: seq<T>)
    ensures |r| == |s|
    ensures multiset(r) == multiset(s)
  {
    if s == [] then []
    else
      assert s == [s[0]] + s[1..];
      Insert(s[0], SortBy(s[1..], le), le)
  }

  lemma {:induction false} InsertSorted<T(!new)>(x: T, s: seq<T>, le: (T, T) -> bool)
    requires TotalPreorder(le) && SortedBy(s, le)
    ensures SortedBy(Insert(x, s, le), le)
  {
    if s == [] || le(x, s[0]) {
    } else {
      InsertSorted(x, s[1..], le);
      var r := Insert(x, s, le);
      var tail := Insert(x, s[1..], le);
      assert r == [s[0]] + tail;
      assert forall k :: 0 <= k < |tail| ==> le(s[0], tail[k]) by {
        forall k | 0 <= k < |tail|
          ensures le(s[0], tail[k])
        {
          assert tail[k] in multiset(tail);
          assert tail[k] == x || tail[k] in multiset(s[1..]);
          if tail[k] != x {
            var m :| 0 <= m < |s[1..]| && s[1..][m] == tail[k];
            assert s[m + 1] == tail[k];
          }
        }
      }
    }
  }

  /** The elements the comparator cannot tell apart from `y`. */
  function Ties<T>(le: (T, T) -> bool, y: T): T -> bool {
    z => le(z, y) && le(y, z)
  }

  /** Two elements tied with `y` may each precede the other. */
  lemma NotBothTied<T(!new)>(x: T, a: T, le: (T, T) -> bool, y: T)
    requires TotalPreorder(le) && !le(x, a)
    ensures !(Ties(le, y)(x) && Ties(le, y)(a))
  {
  }

  /** Inserting `x` keeps the order among the elements tied with any `y`:
      the elements `x` is placed after are ones it may not precede, so none
      of them is tied with `x`. */
  lemma {:induction false} InsertStable<T(!new)>(x: T, s: seq<T>, le: (T, T) -> bool, y: T)
    requires TotalPreorder(le)
    ensures Filter(Insert(x, s, le), Ties(le, y)) == Filter([x] + s, Ties(le, y))
  {
    var tie := Ties(le, y);
    if s != [] && !le(x, s[0]) {
      var a, b, rest := s[0], Insert(x, s[1..], le), s[1..];
      NotBothTied(x, a, le, y);
      InsertStable(x, rest, le, y);
      assert Insert(x, s, le) == [a] + b;
      assert s == [a] + rest;
      FilterAppend([a], b, tie);
      FilterAppend([x], rest, tie);
      FilterAppend([x], [a] + rest, tie);
      FilterAppend([a], rest, tie);
      FilterSingle(x, tie);
      FilterSingle(a, tie);
    }
  }

  /** The sort is stable: elements tied under the comparator keep their
      original order. */
  lemma {:induction false} SortByStable<T(!new)>(s: seq<T>, le: (T, T) -> bool, y: T)
    requires TotalPreorder(le)
    ensures Filter(SortBy(s, le), Ties(le, y)) == Filter(s, Ties(le, y))
  {
    if s != [] {
      var tie := Ties(le, y);
      SortByStable(s[1..], le, y);
      InsertStable(s[0], SortBy(s[1..], le), le, y);
      FilterAppend([s[0]], SortBy(s[1..], le), tie);
      assert s == [s[0]] + s[1..];
      FilterAppend([s[0]], s[1..], tie);
    }
  }

  /** The sort puts its result in the comparator's order. */
  lemma {:induction false} SortBySorted<T(!new)>(s: seq<T>, le: (T, T) -> bool)
    requires TotalPreorder(le)
    ensures SortedBy(SortBy(s, le), le)
  {
    if s != [] {
      SortBySorted(s[1..], le);
      InsertSorted(s[0], SortBy(s[1..], le), le);
    }
  }

  /** Every element of a sorted sequence that a prefix of it leaves out may
      come after each element the prefix keeps. */
  lemma PrefixDominates<T>(s: seq<T>, le: (T, T) -> bool, n: nat, i: nat, j: nat)
    requires SortedBy(s, le) && n <= |s| && i < n <= j < |s|
    ensures le(s[i], s[j])
  {
  }

  /** An element of a sorted sequence is among its first `n` elements, or
      each of those may come before it. */
  lemma TopOf<T>(s: seq<T>, le: (T, T) -> bool, x: T, n: nat)
    requires SortedBy(s, le) && x in s && n <= |s|
    ensures x in s[..n] || forall i :: 0 <= i < n ==> le(s[i], x)
  {
    var k :| 0 <= k < |s| && s[k] == x;
    if k < n {
      assert s[..n][k] == x;
    } else {
      forall i | 0 <= i < n
        ensures le(s[i], x)
      {
        PrefixDominates(s, le, n, i, k);
      }
    }
  }
}
