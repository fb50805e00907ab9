/** Go's `sort` package on slices whose elements the comparison tells apart. */
module Sorting {

  ghost predicate StrictOrder<T(!new)>(less: (T, T) -> bool) {
    && (forall x :: !less(x, x))
    && (forall x, y, z :: less(x, y) && less(y, z) ==> less(x, z))
  }

  ghost predicate Ascending<T>(less: (T, T) -> bool, s: seq<T>) {
    forall i, j :: 0 <= i < j < |s| ==> less(s[i], s[j])
  }

  /** Any two different positions hold elements that `less` orders one way or the other. */
  ghost predicate ToldApart<T>(less: (T, T) -> bool, s: seq<T>) {
    forall i, j :: 0 <= i < j < |s| ==> less(s[i], s[j]) || less(s[j], s[i])
  }

  function Insert<T>(less: (T, T) -> bool, s: seq<T>, x: T): seq<T> {
    if s == [] then [x]
    else if less(x, s[0]) then [x] + s
    else [s[0]] + Insert(less, s[1..], x)
  }

  function Sort<T>(less: (T, T) -> bool, s: seq<T>): seq<T> {
    if s == [] then [] else Insert(less, Sort(less, s[1..]), s[0])
  }

  lemma {:induction false} InsertMembers<T>(less: (T, T) -> bool, s: seq<T>, x: T)
    ensures forall y :: y in Insert(less, s, x) <==> y == x || y in s
  {
    if s != [] && !less(x, s[0]) {
      InsertMembers(less, s[1..], x);
      assert s == [s[0]] + s[1..];
    }
  }

  lemma {:induction false} InsertAscends<T(!new)>(less: (T, T) -> bool, s: seq<T>, x: T)
    requires StrictOrder(less) && Ascending(less, s)
    requires forall y :: y in s ==> less(x, y) || less(y, x)
    ensures Ascending(less, Insert(less, s, x))
  {
    if s != [] {
      if less(x, s[0]) {
        assert forall j :: 0 < j < |s| ==> less(s[0], s[j]);
      } else {
        assert forall y :: y in s[1..] ==> y in s;
        InsertAscends(less, s[1..], x);
        InsertMembers(less, s[1..], x);
        var r := Insert(less, s[1..], x);
        forall j | 0 <= j < |r| ensures less(s[0], r[j]) {
          assert r[j] in r;
          assert s[0] in s;
        }
      }
    }
  }

  lemma {:induction false} SortMembers<T>(less: (T, T) -> bool, s: seq<T>)
    ensures forall y :: y in Sort(less, s) <==> y in s
  {
    if s != [] {
      SortMembers(less, s[1..]);
      InsertMembers(less, Sort(less, s[1..]), s[0]);
      assert s == [s[0]] + s[1..];
    }
  }

  lemma {:induction false} SortAscends<T(!new)>(less: (T, T) -> bool, s: seq<T>)
    requires StrictOrder(less) && ToldApart(less, s)
    ensures Ascending(less, Sort(less, s))
  {
    if s != [] {
      SortAscends(less, s[1..]);
      SortMembers(less, s[1..]);
      forall y | y in Sort(less, s[1..]) ensures less(s[0], y) || less(y, s[0]) {
        var j :| 0 <= j < |s[1..]| && s[1..][j] == y;
        assert s[j + 1] == y;
      }
      InsertAscends(less, Sort(less, s[1..]), s[0]);
    }
  }

  lemma {:induction false} TailMember<T(!new)>(less: (T, T) -> bool, s: seq<T>, x: T)
    requires StrictOrder(less) && Ascending(less, s) && s != []
    ensures x in s[1..] <==> x in s && x != s[0]
  {
    assert s == [s[0]] + s[1..];
    if x in s[1..] {
      var m :| 0 <= m < |s[1..]| && s[1..][m] == x;
      assert less(s[0], s[m + 1]);
    }
  }

  lemma {:induction false} HeadLeast<T>(less: (T, T) -> bool, s: seq<T>, x: T)
    requires Ascending(less, s) && x in s
    ensures x == s[0] || less(s[0], x)
  {
    var m :| 0 <= m < |s| && s[m] == x;
  }

  /** A set has one ascending enumeration only, so the order a map is ranged over never shows. */
  lemma {:induction false} AscendingUnique<T(!new)>(less: (T, T) -> bool, a: seq<T>, b: seq<T>)
    requires StrictOrder(less) && Ascending(less, a) && Ascending(less, b)
    requires forall x :: x in a <==> x in b
    ensures a == b
  {
    if a != [] { assert a[0] in b; }
    if b != [] { assert b[0] in a; }
    if a != [] {
      assert a[0] in a && b[0] in b;
      TailMember(less, a, b[0]);
      TailMember(less, b, a[0]);
      HeadLeast(less, a, b[0]);
      HeadLeast(less, b, a[0]);
      assert a[0] == b[0];
      forall x ensures x in a[1..] <==> x in b[1..] {
        TailMember(less, a, x);
        TailMember(less, b, x);
      }
      AscendingUnique(less, a[1..], b[1..]);
      assert a == [a[0]] + a[1..] && b == [b[0]] + b[1..];
    }
  }
}
