/**
  Ordering of query results. JavaScript's `Array.prototype.sort` is a
  stable sort by a comparison. A database sort (`.sort({...})`) leaves the
  order of documents whose keys tie unspecified; the model fixes one of the
  orders it may return, the stable one that keeps tied documents in
  insertion order. Both are one insertion sort parameterised by a "comes no
  later than" relation; string keys use the lexicographic order the
  database uses.
 */
module Sorting {

  /** Every element of s comes no later than every element after it. */
  predicate SortedBy<T>(s: seq<T>, le: (T, T) -> bool)
  {
    forall i, j :: 0 <= i < j < |s| ==> le(s[i], s[j])
  }

  /** The relation is a total preorder on the elements of s: any two compare, and comparison chains. */
  predicate TotalPreorderOn<T>(s: seq<T>, le: (T, T) -> bool)
  {
    && (forall i, j :: 0 <= i < |s| && 0 <= j < |s| ==> le(s[i], s[j]) || le(s[j], s[i]))
    && (forall i, j, k :: 0 <= i < |s| && 0 <= j < |s| && 0 <= k < |s| && le(s[i], s[j]) && le(s[j], s[k])
          ==> le(s[i], s[k]))
  }

  /** Puts x before the first element it comes no later than. */
  function Insert<T>(x: T, s: seq<T>, le: (T, T) -> bool): (r: seq<T>)
    ensures multiset(r) == multiset(s) + multiset{x}
    ensures |r| == |s| + 1
  {
    if s == [] then [x]
    else if le(x, s[0]) then [x] + s
    else
      assert s == [s[0]] + s[1..];
      [s[0]] + Insert(x, s[1..], le)
  }

  /** A stable sort: elements that compare equal keep their original order. */
  function SortBy<T>(s: seq<T>, le: (T, T) -> bool): (r: seq<T>)
    ensures multiset(r) == multiset(s)
    ensures |r| == |s|
  {
    if s == [] then []
    else
      assert s == [s[0]] + s[1..];
      Insert(s[0], SortBy(s[1..], le), le)
  }

  lemma {:induction false} InsertSorted<T>(x: T, s: seq<T>, le: (T, T) -> bool, all: seq<T>)
    requires TotalPreorderOn(all, le)
    requires x in all && forall i :: 0 <= i < |s| ==> s[i] in all
    requires SortedBy(s, le)
    ensures SortedBy(Insert(x, s, le), le)
  {
    if s != [] && !le(x, s[0]) {
      var t := s[1..];
      assert forall i :: 0 <= i < |t| ==> t[i] == s[i + 1];
      InsertSorted(x, t, le, all);
      var r := Insert(x, t, le);
      forall k | 0 <= k < |r| ensures le(s[0], r[k]) {
        assert r[k] in multiset(t) + multiset{x};
        if r[k] == x {
          assert le(s[0], x);
        } else {
          assert r[k] in t;
          var j :| 0 <= j < |t| && t[j] == r[k];
          assert le(s[0], s[j + 1]);
        }
      }
    } else if s != [] {
      var r := [x] + s;
      forall i, j | 0 <= i < j < |r| ensures le(r[i], r[j]) {
        if i == 0 && j > 1 {
          assert le(x, s[0]) && le(s[0], s[j - 1]);
        }
      }
    }
  }

  /** Sorting neither adds nor loses an element. */
  lemma SortByMembers<T>(s: seq<T>, le: (T, T) -> bool)
    ensures forall x :: x in SortBy(s, le) <==> x in s
  {
    forall x ensures x in SortBy(s, le) <==> x in s {
      assert x in SortBy(s, le) <==> x in multiset(SortBy(s, le));
      assert x in s <==> x in multiset(s);
    }
  }

  /** The result of SortBy is ordered by le, when le is a total preorder on the input. */
  lemma {:induction false} SortBySorted<T>(s: seq<T>, le: (T, T) -> bool)
    requires TotalPreorderOn(s, le)
    ensures SortedBy(SortBy(s, le), le)
  {
    SortBySortedWithin(s, le, s);
  }

  lemma {:induction false} SortBySortedWithin<T>(s: seq<T>, le: (T, T) -> bool, all: seq<T>)
    requires TotalPreorderOn(all, le)
    requires forall i :: 0 <= i < |s| ==> s[i] in all
    ensures SortedBy(SortBy(s, le), le)
  {
    if s != [] {
      var t := s[1..];
      assert forall i :: 0 <= i < |t| ==> t[i] == s[i + 1];
      SortBySortedWithin(t, le, all);
      var r := SortBy(t, le);
      forall i | 0 <= i < |r| ensures r[i] in all {
        assert r[i] in multiset(t);
        assert r[i] in t;
      }
      InsertSorted(s[0], r, le, all);
    }
  }

  // ---------------------------------------------------------------------------
  // Lexicographic order on strings (character by character, a prefix first)

  predicate StrLe(a: string, b: string)
    decreases |a|
  {
    a == [] || (b != [] && (a[0] < b[0] || (a[0] == b[0] && StrLe(a[1..], b[1..]))))
  }

  lemma {:induction false} StrLeTotal(a: string, b: string)
    ensures StrLe(a, b) || StrLe(b, a)
    decreases |a|
  {
    if a != [] && b != [] && a[0] == b[0] {
      StrLeTotal(a[1..], b[1..]);
    }
  }

  lemma {:induction false} StrLeTransitive(a: string, b: string, c: string)
    requires StrLe(a, b) && StrLe(b, c)
    ensures StrLe(a, c)
    decreases |a|
  {
    if a != [] && a[0] == b[0] && b[0] == c[0] {
      StrLeTransitive(a[1..], b[1..], c[1..]);
    }
  }

  lemma {:induction false} StrLeAntisymmetric(a: string, b: string)
    requires StrLe(a, b) && StrLe(b, a)
    ensures a == b
    decreases |a|
  {
    if a != [] {
      StrLeAntisymmetric(a[1..], b[1..]);
      assert a == [a[0]] + a[1..] && b == [b[0]] + b[1..];
    }
  }
}
