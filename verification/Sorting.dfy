/** Stable sorting by a key order. */
module Sorting {
  import opened Names

  /** Insert `x` before the first element it is less than. */
  function Insert<T>(less: (T, T) -> bool, x: T, s: seq<T>): (r: seq<T>)
    ensures multiset(r) == multiset(s) + multiset{x}
  {
    if s == [] || less(x, s[0]) then [x] + s
    else
      assert s == [s[0]] + s[1..];
      [s[0]] + Insert(less, x, s[1..])
  }

  /** Elements that compare equal keep their order. */
  function SortBy<T>(less: (T, T) -> bool, s: seq<T>): (r: seq<T>)
    ensures multiset(r) == multiset(s)
  {
    if s == [] then []
    else
      assert s == s[..|s| - 1] + [s[|s| - 1]];
      Insert(less, s[|s| - 1], SortBy(less, s[..|s| - 1]))
  }

  ghost predicate KeyOrder<T(!new)>(less: (T, T) -> bool) {
    && (forall a, b :: less(a, b) ==> !less(b, a))
    && (forall a, b, c :: !less(b, a) && !less(c, b) ==> !less(c, a))
  }

  ghost predicate Ascending<T>(less: (T, T) -> bool, s: seq<T>) {
    forall i, j | 0 <= i < j < |s| :: !less(s[j], s[i])
  }

  lemma SortKeeps<T>(less: (T, T) -> bool, s: seq<T>)
    ensures |SortBy(less, s)| == |s|
    ensures forall x :: x in SortBy(less, s) <==> x in s
  {
    assert |multiset(SortBy(less, s))| == |multiset(s)|;
    forall x
      ensures x in SortBy(less, s) <==> x in s
    {
      assert x in multiset(SortBy(less, s)) <==> x in multiset(s);
    }
  }

  lemma {:induction false} InsertAscends<T(!new)>(less: (T, T) -> bool, x: T, s: seq<T>)
    requires KeyOrder(less) && Ascending(less, s)
    ensures Ascending(less, Insert(less, x, s))
  {
    var r := Insert(less, x, s);
    if s != [] && !less(x, s[0]) {
      InsertAscends(less, x, s[1..]);
      var rest := Insert(less, x, s[1..]);
      forall j | 0 <= j < |rest|
        ensures !less(rest[j], s[0])
      {
        assert rest[j] in multiset(rest);
        assert rest[j] == x || rest[j] in s[1..];
      }
    } else {
      forall j | 0 < j < |r|
        ensures !less(r[j], x)
      {
        assert r[j] == s[j - 1];
      }
    }
  }

  lemma {:induction false} SortAscends<T(!new)>(less: (T, T) -> bool, s: seq<T>)
    requires KeyOrder(less)
    ensures Ascending(less, SortBy(less, s))
  {
    if s != [] {
      SortAscends(less, s[..|s| - 1]);
      InsertAscends(less, s[|s| - 1], SortBy(less, s[..|s| - 1]));
    }
  }

  /** No two elements have the same key. */
  ghost predicate DistinctBy<T>(key: T -> string, s: seq<T>) {
    forall i, j | 0 <= i < j < |s| :: key(s[i]) != key(s[j])
  }

  lemma {:induction false} InsertDistinct<T>(less: (T, T) -> bool, key: T -> string, x: T, s: seq<T>)
    requires DistinctBy(key, s) && forall y | y in s :: key(y) != key(x)
    ensures DistinctBy(key, Insert(less, x, s))
  {
    if s != [] && !less(x, s[0]) {
      InsertDistinct(less, key, x, s[1..]);
      var rest := Insert(less, x, s[1..]);
      forall j | 0 <= j < |rest|
        ensures key(rest[j]) != key(s[0])
      {
        assert rest[j] in multiset(rest);
        assert rest[j] == x || rest[j] in s[1..];
      }
    }
  }

  lemma {:induction false} SortDistinct<T>(less: (T, T) -> bool, key: T -> string, s: seq<T>)
    requires DistinctBy(key, s)
    ensures DistinctBy(key, SortBy(less, s))
  {
    hide Insert;
    if s != [] {
      var n := |s| - 1;
      SortDistinct(less, key, s[..n]);
      SortKeeps(less, s[..n]);
      forall y | y in SortBy(less, s[..n])
        ensures key(y) != key(s[n])
      {
        assert y in multiset(SortBy(less, s[..n]));
      }
      InsertDistinct(less, key, s[n], SortBy(less, s[..n]));
    }
  }
}
