/** Splitting text at a separator, and joining it again. */
module Rows {

  /** The first position of `c`, or the length. */
  function IndexOf<T(==)>(s: seq<T>, c: T): (r: nat)
    ensures r <= |s| && c !in s[..r] && (r < |s| ==> s[r] == c) && (r == |s| <==> c !in s)
  {
    if s == [] then 0
    else if s[0] == c then 0
    else
      var r := IndexOf(s[1..], c);
      assert s[..r + 1] == [s[0]] + s[1..][..r];
      assert s == [s[0]] + s[1..];
      r + 1
  }

  function SplitOn<T(==)>(s: seq<T>, c: T): (r: seq<seq<T>>)
    ensures r != []
    decreases |s|
  {
    var at := IndexOf(s, c);
    if at == |s| then [s] else [s[..at]] + SplitOn(s[at + 1..], c)
  }

  function JoinWith<T>(parts: seq<seq<T>>, c: T): seq<T> {
    if parts == [] then []
    else if |parts| == 1 then parts[0]
    else parts[0] + [c] + JoinWith(parts[1..], c)
  }

  predicate AllFree<T(==)>(parts: seq<seq<T>>, c: T) {
    forall i | 0 <= i < |parts| :: c !in parts[i]
  }

  lemma {:induction false} IndexAfterFree<T>(a: seq<T>, c: T, b: seq<T>)
    requires c !in a
    ensures IndexOf(a + [c] + b, c) == |a|
    ensures (a + [c] + b)[..|a|] == a && (a + [c] + b)[|a| + 1..] == b
  {
    var s := a + [c] + b;
    if a != [] {
      assert s[0] == a[0] && s[1..] == a[1..] + [c] + b;
      IndexAfterFree(a[1..], c, b);
    }
  }

  lemma {:induction false} SplitJoined<T>(parts: seq<seq<T>>, c: T)
    requires parts != [] && AllFree(parts, c)
    ensures SplitOn(JoinWith(parts, c), c) == parts
    decreases |parts|
  {
    if |parts| > 1 {
      IndexAfterFree(parts[0], c, JoinWith(parts[1..], c));
      SplitJoined(parts[1..], c);
      assert parts == [parts[0]] + parts[1..];
    } else {
      assert parts == [parts[0]];
    }
  }

  lemma {:induction false} JoinSplit<T>(s: seq<T>, c: T)
    ensures JoinWith(SplitOn(s, c), c) == s && AllFree(SplitOn(s, c), c)
    decreases |s|
  {
    var at := IndexOf(s, c);
    if at < |s| {
      JoinSplit(s[at + 1..], c);
      var rest := SplitOn(s[at + 1..], c);
      assert ([s[..at]] + rest)[1..] == rest;
      assert s == s[..at] + [c] + s[at + 1..];
    }
  }

  lemma JoinTwo<T>(a: seq<T>, b: seq<T>, c: T)
    ensures JoinWith([a, b], c) == a + [c] + b
  {
  }

  lemma JoinThree<T>(a: seq<T>, b: seq<T>, d: seq<T>, c: T)
    ensures JoinWith([a, b, d], c) == a + [c] + b + [c] + d
  {
    assert [a, b, d][1..] == [b, d];
    JoinTwo(b, d, c);
    assert a + [c] + (b + [c] + d) == a + [c] + b + [c] + d;
  }

  lemma {:induction false} JoinHas<T>(parts: seq<seq<T>>, c: T, x: T)
    requires x in JoinWith(parts, c) && x != c
    ensures exists i :: 0 <= i < |parts| && x in parts[i]
  {
    if |parts| > 1 {
      if x !in parts[0] {
        JoinHas(parts[1..], c, x);
        var i :| 0 <= i < |parts[1..]| && x in parts[1..][i];
        assert x in parts[i + 1];
      }
    }
  }
}
