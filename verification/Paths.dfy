/** Repository-relative paths, as sequences of UTF-16 code units. */
module Paths {
  import opened Options
  import opened Rows

  type Unit = u: nat | u < 0x10000
  type Text16 = seq<Unit>

  const SLASH: Unit := 47
  const BACKSLASH: Unit := 92
  const COLON: Unit := 58
  const DOT: Unit := 46
  const NUL: Unit := 0

  datatype Reason = Empty | Backslash | Absolute | SchemeQualified | NulByte | NoComponents | Traversal

  datatype Normal = Normalized(path: Text16) | Unnormalizable(reason: Reason)

  predicate IsLetter(u: Unit) {
    65 <= u <= 90 || 97 <= u <= 122
  }

  predicate IsSchemeUnit(u: Unit) {
    IsLetter(u) || 48 <= u <= 57 || u in {43, 46, 45}
  }

  /** A letter, then letters, digits, `+`, `.` or `-`, then a colon. */
  predicate IsScheme(raw: Text16) {
    var at := IndexOf(raw, COLON);
    0 < at < |raw| && IsLetter(raw[0]) && forall i | 0 <= i < at :: IsSchemeUnit(raw[i])
  }

  predicate IsPlain(segment: Text16) {
    segment != [] && segment != [DOT]
  }

  function Plain(segments: seq<Text16>): seq<Text16> {
    if segments == [] then []
    else (if IsPlain(segments[0]) then [segments[0]] else []) + Plain(segments[1..])
  }

  function Segments(path: Text16): seq<Text16> {
    SplitOn(path, SLASH)
  }

  /** Resolve `.` and empty segments; refuse everything that would need a guess. */
  function Normalize(raw: Text16): Normal {
    if raw == [] then Unnormalizable(Empty)
    else if BACKSLASH in raw then Unnormalizable(Backslash)
    else if raw[0] == SLASH then Unnormalizable(Absolute)
    else if IsScheme(raw) then Unnormalizable(SchemeQualified)
    else if NUL in raw then Unnormalizable(NulByte)
    else
      var segments := Plain(Segments(raw));
      if segments == [] then Unnormalizable(NoComponents)
      else if [DOT, DOT] in segments then Unnormalizable(Traversal)
      else Normalized(JoinWith(segments, SLASH))
  }

  predicate IsPathPrefix(prefix: Text16, path: Text16) {
    path == prefix || prefix + [SLASH] <= path
  }

  // ------------------------------------------------------------ segment prefixes

  lemma {:induction false} SplitAcross(a: Text16, b: Text16)
    ensures Segments(a + [SLASH] + b) == Segments(a) + Segments(b)
    decreases |a|
  {
    hide IndexOf, Segments;
    var at := IndexOf(a, SLASH);
    if at == |a| {
      FirstSegment(a, b);
    } else {
      var first, rest := a[..at], a[at + 1..];
      CutAt(a, at);
      SplitAcross(rest, b);
      OneMoreSegment(first, rest, b);
    }
  }

  lemma OneMoreSegment(first: Text16, rest: Text16, b: Text16)
    requires SLASH !in first && Segments(rest + [SLASH] + b) == Segments(rest) + Segments(b)
    ensures Segments((first + [SLASH] + rest) + [SLASH] + b) == Segments(first + [SLASH] + rest) + Segments(b)
  {
    hide Segments;
    Regroup(first, rest, b);
    FirstSegment(first, rest);
    FirstSegment(first, rest + [SLASH] + b);
    RegroupSegments(first, Segments(rest), Segments(b));
  }

  lemma RegroupSegments(first: Text16, x: seq<Text16>, y: seq<Text16>)
    ensures [first] + (x + y) == ([first] + x) + y
  {
  }

  lemma FirstSegment(a: Text16, b: Text16)
    requires SLASH !in a
    ensures Segments(a) == [a] && Segments(a + [SLASH] + b) == [a] + Segments(b)
  {
    IndexAfterFree(a, SLASH, b);
    hide IndexOf;
  }

  lemma CutAt(s: Text16, at: nat)
    requires at < |s| && s[at] == SLASH
    ensures s == s[..at] + [SLASH] + s[at + 1..]
  {
  }

  lemma Regroup(a: Text16, b: Text16, c: Text16)
    ensures (a + [SLASH] + b) + [SLASH] + c == a + [SLASH] + (b + [SLASH] + c)
  {
  }

  lemma {:induction false} JoinAcross(a: seq<Text16>, b: seq<Text16>)
    requires a != [] && b != []
    ensures JoinWith(a + b, SLASH) == JoinWith(a, SLASH) + [SLASH] + JoinWith(b, SLASH)
    decreases |a|
  {
    var all := a + b;
    if |a| == 1 {
      assert all[0] == a[0] && all[1..] == b;
    } else {
      assert all[0] == a[0] && all[1..] == a[1..] + b;
      JoinAcross(a[1..], b);
    }
  }

  lemma RestOfPath(prefix: Text16, path: Text16)
    requires prefix + [SLASH] <= path
    ensures path == prefix + [SLASH] + path[|prefix| + 1..]
  {
  }

  lemma StartsWithJoin(a: Text16, b: Text16)
    ensures a + [SLASH] <= a + [SLASH] + b
  {
  }

  /** One path covers another exactly when its segments are the first segments of the other. */
  lemma PrefixIsSegmentPrefix(prefix: Text16, path: Text16)
    ensures IsPathPrefix(prefix, path) <==> Segments(prefix) <= Segments(path)
  {
    hide SplitOn, JoinWith;
    JoinSplit(prefix, SLASH);
    JoinSplit(path, SLASH);
    var first, all := Segments(prefix), Segments(path);
    if prefix + [SLASH] <= path {
      RestOfPath(prefix, path);
      SplitAcross(prefix, path[|prefix| + 1..]);
    }
    if first <= all {
      var more := all[|first|..];
      assert all == first + more;
      if more == [] {
        assert first + more == first;
      } else {
        JoinAcross(first, more);
        StartsWithJoin(prefix, JoinWith(more, SLASH));
      }
    }
  }

  /** What covers a covering path covers what it covers. */
  lemma PrefixIsTransitive(a: Text16, b: Text16, c: Text16)
    requires IsPathPrefix(a, b) && IsPathPrefix(b, c)
    ensures IsPathPrefix(a, c)
  {
    PrefixIsSegmentPrefix(a, b);
    PrefixIsSegmentPrefix(b, c);
    PrefixIsSegmentPrefix(a, c);
  }

  // ------------------------------------------------------------- renormalization

  lemma {:induction false} PlainKeeps(segments: seq<Text16>, i: nat)
    requires i < |Plain(segments)|
    ensures IsPlain(Plain(segments)[i]) && Plain(segments)[i] in segments
  {
    var rest := Plain(segments[1..]);
    if IsPlain(segments[0]) {
      if i > 0 {
        PlainKeeps(segments[1..], i - 1);
        assert Plain(segments)[i] == rest[i - 1];
      }
    } else {
      assert Plain(segments) == rest;
      PlainKeeps(segments[1..], i);
    }
  }

  lemma {:induction false} PlainOfPlain(segments: seq<Text16>)
    requires forall i | 0 <= i < |segments| :: IsPlain(segments[i])
    ensures Plain(segments) == segments
  {
    if segments != [] {
      PlainOfPlain(segments[1..]);
      assert segments == [segments[0]] + segments[1..];
    }
  }

  lemma SegmentsLack(raw: Text16, u: Unit, segment: Text16)
    requires u !in raw && segment in Segments(raw) && u != SLASH
    ensures u !in segment
  {
    JoinSplit(raw, SLASH);
    var i :| 0 <= i < |Segments(raw)| && Segments(raw)[i] == segment;
    if u in segment {
      JoinHolds(Segments(raw), i, u);
    }
  }

  lemma {:induction false} JoinHolds(parts: seq<Text16>, i: nat, u: Unit)
    requires i < |parts| && u in parts[i]
    ensures u in JoinWith(parts, SLASH)
  {
    if |parts| > 1 && i > 0 {
      assert parts[1..][i - 1] == parts[i];
      JoinHolds(parts[1..], i - 1, u);
    }
  }

  lemma JoinLacks(parts: seq<Text16>, u: Unit)
    requires u != SLASH && forall i | 0 <= i < |parts| :: u !in parts[i]
    ensures u !in JoinWith(parts, SLASH)
  {
    if u in JoinWith(parts, SLASH) {
      JoinHas(parts, SLASH, u);
    }
  }

  /** The segments a normalized path is made of. */
  lemma NormalizedSegments(raw: Text16)
    requires Normalize(raw).Normalized?
    ensures var path := Normalize(raw).path;
      && Segments(path) == Plain(Segments(raw)) && Plain(Segments(path)) == Segments(path)
      && [DOT, DOT] !in Segments(path) && path != [] && path[0] != SLASH && BACKSLASH !in path && NUL !in path
  {
    var segments := Plain(Segments(raw));
    var path := Normalize(raw).path;
    JoinSplit(raw, SLASH);
    forall i | 0 <= i < |segments|
      ensures IsPlain(segments[i]) && segments[i] in Segments(raw)
    {
      PlainKeeps(Segments(raw), i);
    }
    PlainOfPlain(segments);
    forall i | 0 <= i < |segments|
      ensures SLASH !in segments[i] && BACKSLASH !in segments[i] && NUL !in segments[i]
    {
      assert segments[i] in Segments(raw);
      SegmentsLack(raw, BACKSLASH, segments[i]);
      SegmentsLack(raw, NUL, segments[i]);
      var k :| 0 <= k < |Segments(raw)| && Segments(raw)[k] == segments[i];
    }
    SplitJoined(segments, SLASH);
    JoinLacks(segments, BACKSLASH);
    JoinLacks(segments, NUL);
    assert IsPlain(segments[0]) && path[0] == segments[0][0];
  }

  /**
   * Renormalizing a normalized path returns the same path, or refuses it as scheme-qualified:
   * exactly when dropping `.` segments put a scheme at the front.
   */
  lemma RenormalizesToItself(raw: Text16)
    requires Normalize(raw).Normalized?
    ensures var path := Normalize(raw).path;
      Normalize(path) == if IsScheme(path) then Unnormalizable(SchemeQualified) else Normalized(path)
  {
    NormalizedSegments(raw);
    JoinSplit(Normalize(raw).path, SLASH);
  }

  /** `./c:x` normalizes to `c:x`, which is then refused. */
  lemma RenormalizationMayRefuse()
    ensures var raw: Text16 := [DOT, SLASH, 99, COLON, 120];
      Normalize(raw) == Normalized([99, COLON, 120]) && Normalize([99, COLON, 120]) == Unnormalizable(SchemeQualified)
  {
    OneIsAScheme();
    DotThenScheme();
    var raw: Text16, path: Text16 := [DOT, SLASH, 99, COLON, 120], [99, COLON, 120];
    hide IsScheme, Segments, Plain, Normalize;
    SchemeRefused(path);
    DotDropped(raw, path);
  }

  lemma SchemeRefused(path: Text16)
    requires IsScheme(path) && BACKSLASH !in path && path[0] != SLASH
    ensures Normalize(path) == Unnormalizable(SchemeQualified)
  {
  }

  lemma DotDropped(raw: Text16, path: Text16)
    requires !IsScheme(raw) && raw != [] && BACKSLASH !in raw && raw[0] != SLASH && NUL !in raw
    requires Plain(Segments(raw)) == [path] && |path| != 2
    ensures Normalize(raw) == Normalized(path)
  {
    hide IsScheme, Segments, Plain;
    assert JoinWith([path], SLASH) == path;
  }

  lemma OneIsAScheme()
    ensures IsScheme([99, COLON, 120]) && !IsScheme([DOT, SLASH, 99, COLON, 120])
  {
    hide IndexOf;
    ColonAt();
    var raw: Text16 := [DOT, SLASH, 99, COLON, 120];
    assert raw[0] == DOT;
  }

  lemma ColonAt()
    ensures IndexOf([99, COLON, 120], COLON) == 1 && IndexOf([DOT, SLASH, 99, COLON, 120], COLON) == 3
  {
    var a: Text16, b: Text16 := [99], [DOT, SLASH, 99];
    IndexAfterFree(a, COLON, [120]);
    assert a + [COLON] + [120] == [99, COLON, 120];
    IndexAfterFree(b, COLON, [120]);
    assert b + [COLON] + [120] == [DOT, SLASH, 99, COLON, 120];
  }

  lemma DotThenScheme()
    ensures Plain(Segments([DOT, SLASH, 99, COLON, 120])) == [[99, COLON, 120]]
  {
    var path: Text16 := [99, COLON, 120];
    var dot: Text16 := [DOT];
    SplitAcross(dot, path);
    assert dot + [SLASH] + path == [DOT, SLASH, 99, COLON, 120];
    assert Segments(dot) == [dot] && Segments(path) == [path];
    hide Segments;
    var all := [dot] + [path];
    assert all[0] == dot && all[1..] == [path] && [path][1..] == [];
    assert Plain([path]) == [path];
  }
}
