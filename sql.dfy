/** The two parts of a SELECT that the backend relies on: a WHERE filter
    that keeps the order of its input, and ORDER BY on a nullable integer
    column with PostgreSQL's default placement of NULL (last for ASC, first
    for DESC). A table is a sequence of rows; a query without ORDER BY is
    taken to return its rows in that sequence's order. */
module Sql {
  import opened Values

  /** `a` may precede `b` under ORDER BY ... ASC: NULL sorts after every value. */
  predicate KeyLeq(a: Option<int>, b: Option<int>) {
    b.None? || (a.Some? && a.value <= b.value)
  }

  /** `a` may precede `b` under ORDER BY ... ASC, or DESC when `descending`. */
  predicate InOrder(a: Option<int>, b: Option<int>, descending: bool) {
    if descending then KeyLeq(b, a) else KeyLeq(a, b)
  }

  ghost predicate Sorted<T>(s: seq<T>, key: T -> Option<int>, descending: bool) {
    forall i, j :: 0 <= i < j < |s| ==> InOrder(key(s[i]), key(s[j]), descending)
  }

  /** WHERE p: the rows satisfying `p`, in the order of the input. */
  function Where<T(!new)>(s: seq<T>, p: T -> bool): (r: seq<T>)
    ensures forall x :: x in r <==> x in s && p(x)
  {
    if s == [] then []
    else (if p(s[0]) then [s[0]] else []) + Where(s[1..], p)
  }

  /** WHERE keeps each satisfying row as often as it is stored. */
  lemma {:induction false} WhereCount<T(!new)>(s: seq<T>, p: T -> bool)
    ensures forall x :: multiset(Where(s, p))[x] == if p(x) then multiset(s)[x] else 0
  {
    if s != [] {
      WhereCount(s[1..], p);
      assert s == [s[0]] + s[1..];
    }
  }

  /** WHERE distributes over concatenation, so it keeps the input's order. */
  lemma {:induction false} WhereAppend<T(!new)>(a: seq<T>, b: seq<T>, p: T -> bool)
    ensures Where(a + b, p) == Where(a, p) + Where(b, p)
  {
    if a == [] {
      assert a + b == b;
    } else {
      assert (a + b)[1..] == a[1..] + b;
      WhereAppend(a[1..], b, p);
    }
  }

  /** Places `x` in front of the first element it may precede. */
  function Insert<T>(x: T, s: seq<T>, key: T -> Option<int>, descending: bool): (r: seq<T>)
    ensures multiset(r) == multiset(s) + multiset{x}
  {
    if s == [] then [x]
    else if InOrder(key(x), key(s[0]), descending) then [x] + s
    else
      assert s == [s[0]] + s[1..];
      [s[0]] + Insert(x, s[1..], key, descending)
  }

  /** Every element of `Insert(x, s, ...)` is `x` or an element of `s`, so a
      lower bound of both bounds the result. */
  lemma {:induction false} InsertBounded<T>(x: T, s: seq<T>, key: T -> Option<int>, descending: bool, b: Option<int>)
    requires InOrder(b, key(x), descending)
    requires forall k :: 0 <= k < |s| ==> InOrder(b, key(s[k]), descending)
    ensures forall k :: 0 <= k < |Insert(x, s, key, descending)| ==>
              InOrder(b, key(Insert(x, s, key, descending)[k]), descending)
  {
    if s != [] && !InOrder(key(x), key(s[0]), descending) {
      InsertBounded(x, s[1..], key, descending, b);
      var r := Insert(x, s, key, descending);
      assert r == [s[0]] + Insert(x, s[1..], key, descending);
      forall k | 0 <= k < |r|
        ensures InOrder(b, key(r[k]), descending)
      {
        if k > 0 {
          assert r[k] == Insert(x, s[1..], key, descending)[k - 1];
        }
      }
    }
  }

  lemma {:induction false} InsertSorted<T>(x: T, s: seq<T>, key: T -> Option<int>, descending: bool)
    requires Sorted(s, key, descending)
    ensures Sorted(Insert(x, s, key, descending), key, descending)
  {
    if s != [] && !InOrder(key(x), key(s[0]), descending) {
      var tail := s[1..];
      assert forall k :: 0 <= k < |tail| ==> tail[k] == s[k + 1];
      InsertSorted(x, tail, key, descending);
      InsertBounded(x, tail, key, descending, key(s[0]));
      var rest := Insert(x, tail, key, descending);
      var r := [s[0]] + rest;
      assert r == Insert(x, s, key, descending);
      forall i, j | 0 <= i < j < |r|
        ensures InOrder(key(r[i]), key(r[j]), descending)
      {
        assert r[j] == rest[j - 1];
        if i > 0 {
          assert r[i] == rest[i - 1];
        }
      }
    }
  }

  /** ORDER BY key ASC (or DESC): a sorted permutation of the rows.
      PostgreSQL leaves the order of equal keys open; this definition fixes one. */
  function OrderBy<T>(s: seq<T>, key: T -> Option<int>, descending: bool): (r: seq<T>)
    ensures multiset(r) == multiset(s)
    ensures Sorted(r, key, descending)
  {
    if s == [] then []
    else
      assert s == [s[0]] + s[1..];
      var rest := OrderBy(s[1..], key, descending);
      InsertSorted(s[0], rest, key, descending);
      Insert(s[0], rest, key, descending)
  }

  /** `SELECT ... WHERE p ORDER BY key [DESC]`: the rows satisfying `p`, each
      as often as it is stored, sorted by `key`. */
  function Select<T(!new)>(s: seq<T>, p: T -> bool, key: T -> Option<int>, descending: bool): (r: seq<T>)
    ensures forall x :: x in r <==> x in s && p(x)
    ensures forall x :: multiset(r)[x] == if p(x) then multiset(s)[x] else 0
    ensures Sorted(r, key, descending)
  {
    var w := Where(s, p);
    WhereCount(s, p);
    var r := OrderBy(w, key, descending);
    assert forall x :: x in r <==> x in multiset(w);
    r
  }

  /** Rows whose elements are pairwise distinct occur once each. */
  lemma {:induction false} DistinctOnce<T>(s: seq<T>)
    requires forall i, j :: 0 <= i < j < |s| ==> s[i] != s[j]
    ensures forall x :: x in s ==> multiset(s)[x] == 1
  {
    if s != [] {
      assert s == [s[0]] + s[1..];
      DistinctOnce(s[1..]);
      assert s[0] !in s[1..];
    }
  }
}
