/** Order by UTF-8 bytes, and what sorting by it does to lists with distinct keys. */
module Ordering {
  import opened Utf8

  /** What lists are ordered by: bytes or UTF-16 code units, compared one by one. */
  type Units = seq<nat>

  function TextKey(s: string): Units {
    Encode(s)
  }

  predicate Below(x: Units, y: Units) {
    y != [] && (x == [] || x[0] < y[0] || (x[0] == y[0] && Below(x[1..], y[1..])))
  }

  lemma {:induction false} BelowIsTotal(x: Units, y: Units)
    ensures x == y || Below(x, y) || Below(y, x)
    ensures !(Below(x, y) && Below(y, x)) && !(x == y && Below(x, y))
  {
    if x != [] && y != [] && x[0] == y[0] {
      BelowIsTotal(x[1..], y[1..]);
      assert x == [x[0]] + x[1..] && y == [y[0]] + y[1..];
    }
  }

  lemma {:induction false} BelowIsTransitive(x: Units, y: Units, z: Units)
    requires Below(x, y) && Below(y, z)
    ensures Below(x, z)
  {
    if x != [] && x[0] == y[0] && y[0] == z[0] {
      BelowIsTransitive(x[1..], y[1..], z[1..]);
    }
  }

  lemma {:induction false} BelowAfterShared(x: Units, y: Units, n: nat)
    requires n <= |x| && n <= |y| && x[..n] == y[..n]
    ensures Below(x, y) <==> Below(x[n..], y[n..])
  {
    if n > 0 {
      assert x[0] == x[..n][0] && y[0] == y[..n][0];
      assert x[1..][..n - 1] == x[..n][1..] && y[1..][..n - 1] == y[..n][1..];
      BelowAfterShared(x[1..], y[1..], n - 1);
      assert x[1..][n - 1..] == x[n..] && y[1..][n - 1..] == y[n..];
    }
  }

  /** The comparator: negative, zero or positive as the byte order says. */
  method CompareBytes(x: Units, y: Units) returns (order: int)
    ensures order < 0 <==> Below(x, y)
    ensures order == 0 <==> x == y
    ensures order > 0 <==> Below(y, x)
  {
    var shared := if |x| < |y| then |x| else |y|;
    BelowIsTotal(x, y);
    for i := 0 to shared
      invariant x[..i] == y[..i]
    {
      if x[i] != y[i] {
        BelowAfterShared(x, y, i);
        BelowAfterShared(y, x, i);
        var left: int, right: int := x[i], y[i];
        return left - right;
      }
      assert x[..i + 1] == x[..i] + [x[i]] && y[..i + 1] == y[..i] + [y[i]];
    }
    BelowAfterShared(x, y, shared);
    BelowAfterShared(y, x, shared);
    assert x[..|x|] == x && y[..|y|] == y;
    order := |x| - |y|;
  }

  method ByBytes(a: string, b: string) returns (order: int)
    ensures order < 0 <==> Below(Encode(a), Encode(b))
    ensures order == 0 <==> a == b
  {
    order := CompareBytes(Encode(a), Encode(b));
    if order == 0 {
      EncodeInjective(a, b);
    }
  }

  // ------------------------------------------------------------------- sorting

  /** A stable insertion into an ascending list. */
  function Insert<T>(x: T, items: seq<T>, key: T -> Units): seq<T> {
    if items == [] || Below(key(x), key(items[0])) then [x] + items
    else [items[0]] + Insert(x, items[1..], key)
  }

  /** `[...items].sort` under the byte order of `key`. */
  function SortBy<T>(items: seq<T>, key: T -> Units): seq<T> {
    if items == [] then []
    else Insert(items[|items| - 1], SortBy(items[..|items| - 1], key), key)
  }

  ghost predicate Ascending<T>(items: seq<T>, key: T -> Units) {
    forall i, j | 0 <= i < j < |items| :: Below(key(items[i]), key(items[j]))
  }

  ghost predicate DistinctKeys<T>(items: seq<T>, key: T -> Units) {
    forall i, j | 0 <= i < j < |items| :: key(items[i]) != key(items[j])
  }

  ghost predicate SameElements<T>(a: seq<T>, b: seq<T>) {
    (forall i | 0 <= i < |a| :: a[i] in b) && (forall i | 0 <= i < |b| :: b[i] in a)
  }

  lemma {:induction false} InsertKeeps<T>(x: T, items: seq<T>, key: T -> Units)
    requires Ascending(items, key) && forall i | 0 <= i < |items| :: key(items[i]) != key(x)
    ensures var r := Insert(x, items, key);
      && Ascending(r, key) && |r| == |items| + 1 && x in r
      && (forall i | 0 <= i < |r| :: r[i] == x || r[i] in items)
      && (forall i | 0 <= i < |items| :: items[i] in r)
  {
    var r := Insert(x, items, key);
    if items == [] {
    } else if Below(key(x), key(items[0])) {
      forall i, j | 0 <= i < j < |r|
        ensures Below(key(r[i]), key(r[j]))
      {
        if i == 0 && j > 1 {
          BelowIsTransitive(key(x), key(items[0]), key(items[j - 1]));
        }
      }
      assert forall i | 0 <= i < |items| :: items[i] == r[i + 1];
    } else {
      BelowIsTotal(key(x), key(items[0]));
      var tail := items[1..];
      var rest := Insert(x, tail, key);
      InsertKeeps(x, tail, key);
      assert r == [items[0]] + rest;
      forall j | 0 <= j < |rest|
        ensures Below(key(items[0]), key(rest[j])) && (rest[j] == x || rest[j] in items)
      {
        if rest[j] != x {
          assert rest[j] in tail;
          var k :| 0 <= k < |tail| && tail[k] == rest[j];
          assert items[k + 1] == rest[j];
        }
      }
      forall i | 0 <= i < |items|
        ensures items[i] in r
      {
        if i > 0 {
          assert tail[i - 1] in rest;
        }
      }
    }
  }

  /** Sorting a list with distinct keys: ascending, and the same elements. */
  lemma {:induction false} SortKeeps<T>(items: seq<T>, key: T -> Units)
    requires DistinctKeys(items, key)
    ensures var r := SortBy(items, key); Ascending(r, key) && |r| == |items| && SameElements(r, items)
  {
    if items != [] {
      var n := |items| - 1;
      var front := items[..n];
      var sorted := SortBy(front, key);
      SortKeeps(front, key);
      forall i | 0 <= i < |sorted|
        ensures sorted[i] in items && key(sorted[i]) != key(items[n])
      {
        assert sorted[i] in front;
        var k :| 0 <= k < n && front[k] == sorted[i];
        assert items[k] == sorted[i];
      }
      InsertKeeps(items[n], sorted, key);
      var r := SortBy(items, key);
      forall i | 0 <= i < |items|
        ensures items[i] in r
      {
        if i < n {
          assert front[i] in sorted;
          var k :| 0 <= k < |sorted| && sorted[k] == front[i];
          assert sorted[k] in r;
        }
      }
      forall i | 0 <= i < |r|
        ensures r[i] in items
      {
        if r[i] != items[n] {
          var k :| 0 <= k < |sorted| && sorted[k] == r[i];
        }
      }
    }
  }

  /** An element that is not first comes after the first. */
  lemma AfterFirst<T>(items: seq<T>, x: T, key: T -> Units)
    requires Ascending(items, key) && items != [] && x in items && x != items[0]
    ensures x in items[1..] && Below(key(items[0]), key(x))
  {
    var k :| 0 <= k < |items| && items[k] == x;
    assert items[1..][k - 1] == x;
  }

  lemma FirstNotAfter<T>(items: seq<T>, key: T -> Units)
    requires Ascending(items, key) && items != []
    ensures forall i | 0 <= i < |items[1..]| :: items[1..][i] != items[0]
  {
    forall i | 0 <= i < |items[1..]|
      ensures items[1..][i] != items[0]
    {
      BelowIsTotal(key(items[0]), key(items[i + 1]));
    }
  }

  lemma SameTails<T>(a: seq<T>, b: seq<T>, key: T -> Units)
    requires Ascending(a, key) && Ascending(b, key) && SameElements(a, b) && a != [] && b != [] && a[0] == b[0]
    ensures SameElements(a[1..], b[1..])
  {
    FirstNotAfter(a, key);
    FirstNotAfter(b, key);
    forall i | 0 <= i < |a[1..]|
      ensures a[1..][i] in b[1..]
    {
      assert a[i + 1] in b;
      AfterFirst(b, a[i + 1], key);
    }
    forall i | 0 <= i < |b[1..]|
      ensures b[1..][i] in a[1..]
    {
      assert b[i + 1] in a;
      AfterFirst(a, b[i + 1], key);
    }
  }

  /** There is only one ascending list of given elements. */
  lemma {:induction false} AscendingIsUnique<T>(a: seq<T>, b: seq<T>, key: T -> Units)
    requires Ascending(a, key) && Ascending(b, key) && SameElements(a, b)
    ensures a == b
  {
    assert (a != [] ==> a[0] in b) && (b != [] ==> b[0] in a);
    if a != [] && b != [] {
      if a[0] != b[0] {
        AfterFirst(a, b[0], key);
        AfterFirst(b, a[0], key);
        BelowIsTotal(key(a[0]), key(b[0]));
      }
      SameTails(a, b, key);
      AscendingIsUnique(a[1..], b[1..], key);
      assert a == [a[0]] + a[1..] && b == [b[0]] + b[1..];
    }
  }

  lemma AscendingIsSorted<T>(items: seq<T>, key: T -> Units)
    requires Ascending(items, key)
    ensures SortBy(items, key) == items && DistinctKeys(items, key)
  {
    forall i, j | 0 <= i < j < |items|
      ensures key(items[i]) != key(items[j])
    {
      BelowIsTotal(key(items[i]), key(items[j]));
    }
    SortKeeps(items, key);
    AscendingIsUnique(SortBy(items, key), items, key);
  }

  lemma SameElementsChain<T>(a: seq<T>, b: seq<T>, c: seq<T>)
    requires SameElements(a, b) && SameElements(b, c)
    ensures SameElements(a, c) && SameElements(b, a)
  {
    forall i | 0 <= i < |a|
      ensures a[i] in c
    {
      assert a[i] in b;
      var k :| 0 <= k < |b| && b[k] == a[i];
      assert b[k] in c;
    }
    forall i | 0 <= i < |c|
      ensures c[i] in a
    {
      assert c[i] in b;
      var k :| 0 <= k < |b| && b[k] == c[i];
      assert b[k] in a;
    }
  }

  /** Lists with distinct keys sort to the same list exactly when they have the same elements. */
  lemma SortIgnoresOrder<T>(a: seq<T>, b: seq<T>, key: T -> Units)
    requires DistinctKeys(a, key) && DistinctKeys(b, key)
    ensures SortBy(a, key) == SortBy(b, key) <==> SameElements(a, b)
  {
    var x, y := SortBy(a, key), SortBy(b, key);
    SortKeeps(a, key);
    SortKeeps(b, key);
    SameElementsChain(b, y, y);
    if SameElements(a, b) {
      SameElementsChain(x, a, b);
      SameElementsChain(x, b, y);
      AscendingIsUnique(x, y, key);
    }
    if x == y {
      SameElementsChain(a, x, x);
      SameElementsChain(a, x, b);
    }
  }
}
