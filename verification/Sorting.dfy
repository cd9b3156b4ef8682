/** Stable sorting by insertion, as the specification of the program's library sorts. */
module Sorting {

  function Insert<T>(atMost: (T, T) -> bool, x: T, s: seq<T>): seq<T> {
    if s == [] then [x] else if atMost(x, s[0]) then [x] + s else [s[0]] + Insert(atMost, x, s[1..])
  }

  function Sort<T>(atMost: (T, T) -> bool, s: seq<T>): seq<T> {
    if s == [] then [] else Insert(atMost, s[0], Sort(atMost, s[1..]))
  }

  predicate Sorted<T(==)>(atMost: (T, T) -> bool, s: seq<T>) {
    s != [] ==> (forall x | x in s[1..] :: atMost(s[0], x)) && Sorted(atMost, s[1..])
  }

  ghost predicate TotalOrder<T(!new)>(atMost: (T, T) -> bool) {
    && (forall a, b :: atMost(a, b) || atMost(b, a))
    && (forall a, b, c :: atMost(a, b) && atMost(b, c) ==> atMost(a, c))
  }

  lemma {:induction false} InsertKeeps<T>(atMost: (T, T) -> bool, x: T, s: seq<T>)
    ensures multiset(Insert(atMost, x, s)) == multiset(s) + multiset{x}
  {
    if s != [] && !atMost(x, s[0]) {
      InsertKeeps(atMost, x, s[1..]);
      assert s == [s[0]] + s[1..];
    }
  }

  /** Sorting loses and adds nothing. */
  lemma {:induction false} SortKeeps<T>(atMost: (T, T) -> bool, s: seq<T>)
    ensures multiset(Sort(atMost, s)) == multiset(s) && |Sort(atMost, s)| == |s|
  {
    if s != [] {
      SortKeeps(atMost, s[1..]);
      InsertKeeps(atMost, s[0], Sort(atMost, s[1..]));
      assert s == [s[0]] + s[1..];
    }
    assert |multiset(Sort(atMost, s))| == |Sort(atMost, s)| && |multiset(s)| == |s|;
  }

  lemma {:induction false} InsertSorts<T(!new)>(atMost: (T, T) -> bool, x: T, s: seq<T>)
    requires TotalOrder(atMost) && Sorted(atMost, s)
    ensures Sorted(atMost, Insert(atMost, x, s))
  {
    if s == [] {
    } else if atMost(x, s[0]) {
      forall y | y in s ensures atMost(x, y) {
        if y != s[0] { assert atMost(s[0], y); }
      }
      assert ([x] + s)[1..] == s;
    } else {
      var rest := Insert(atMost, x, s[1..]);
      InsertSorts(atMost, x, s[1..]);
      InsertKeeps(atMost, x, s[1..]);
      forall y | y in rest ensures atMost(s[0], y) {
        assert y in multiset(rest);
        assert y == x || y in s[1..];
      }
      assert ([s[0]] + rest)[1..] == rest;
    }
  }

  /** It sorts. */
  lemma {:induction false} SortSorts<T(!new)>(atMost: (T, T) -> bool, s: seq<T>)
    requires TotalOrder(atMost)
    ensures Sorted(atMost, Sort(atMost, s))
  {
    if s != [] {
      SortSorts(atMost, s[1..]);
      InsertSorts(atMost, s[0], Sort(atMost, s[1..]));
    }
  }

  /** A sorted sequence stays as it is. */
  lemma {:induction false} SortedStays<T>(atMost: (T, T) -> bool, s: seq<T>)
    requires Sorted(atMost, s)
    ensures Sort(atMost, s) == s
  {
    if s != [] {
      SortedStays(atMost, s[1..]);
      assert s == [s[0]] + s[1..];
    }
  }
}
