/** Materialization eligibility: protection, then roots, then bounds, over the whole change set. */
module Materialize {
  import opened Options
  import opened Ordering
  import opened Paths

  datatype Rule = Rule(implemented: bool, prefix: Text16)

  datatype Policy = Policy(rules: seq<Rule>, roots: seq<Text16>, maxFiles: nat, maxFileBytes: nat, maxTotalBytes: nat)

  datatype Change = Change(path: Text16, kind: string, bytes: nat, linkTarget: Option<Text16>)

  datatype Code =
    | MissingAuthority | Undecidable | InvalidAuthority | ContractMismatch | IncompleteEvidence
    | UnrecognizedRule | PathUndecidable | ProtectedPath | PathOutsideRoots | OverBound

  datatype Decision = Proceed(changes: seq<Change>) | Refuse(code: Code)

  /** A captured policy, a refused capture, or no capture at all. */
  datatype PolicyCapture = NoPolicy | PolicyRefused(code: Code) | PolicyCaptured(policy: Policy)

  function PathKey(c: Change): Units {
    c.path
  }

  predicate Normalizes(raw: Text16) {
    Normalize(raw).Normalized?
  }

  function NormalPath(raw: Text16): Text16 {
    if Normalizes(raw) then Normalize(raw).path else raw
  }

  function NormalPaths(raws: seq<Text16>): seq<Text16> {
    seq(|raws|, i requires 0 <= i < |raws| => NormalPath(raws[i]))
  }

  function NormalChange(c: Change): Change {
    c.(path := NormalPath(c.path))
  }

  function NormalChanges(changes: seq<Change>): seq<Change> {
    seq(|changes|, i requires 0 <= i < |changes| => NormalChange(changes[i]))
  }

  /** Where a change's write would land: its link's reported target, or its own path. */
  function TargetOf(c: Change): Text16 {
    match c.linkTarget
    case None => c.path
    case Some(target) => NormalPath(target)
  }

  /** The target recorded for a path: a later change at the same path replaces an earlier one. */
  function EffectiveOf(changes: seq<Change>, path: Text16): Text16 {
    if changes == [] then path
    else if changes[|changes| - 1].path == path then TargetOf(changes[|changes| - 1])
    else EffectiveOf(changes[..|changes| - 1], path)
  }

  predicate Covers(prefixes: seq<Text16>, path: Text16) {
    exists i | 0 <= i < |prefixes| :: IsPathPrefix(prefixes[i], path)
  }

  function RulePrefixes(rules: seq<Rule>): seq<Text16> {
    seq(|rules|, i requires 0 <= i < |rules| => rules[i].prefix)
  }

  function Protected(policy: Policy, sources: seq<Text16>): seq<Text16> {
    RulePrefixes(policy.rules) + NormalPaths(sources)
  }

  function TotalBytes(changes: seq<Change>): nat {
    if changes == [] then 0 else TotalBytes(changes[..|changes| - 1]) + changes[|changes| - 1].bytes
  }

  predicate RulesKnown(policy: Policy) {
    forall i | 0 <= i < |policy.rules| :: policy.rules[i].implemented
  }

  predicate AllNormalize(raws: seq<Text16>) {
    forall i | 0 <= i < |raws| :: Normalizes(raws[i])
  }

  predicate ChangesNormalize(changes: seq<Change>) {
    forall i | 0 <= i < |changes| ::
      Normalizes(changes[i].path) && (changes[i].linkTarget.Some? ==> Normalizes(changes[i].linkTarget.value))
  }

  /** Whether a change writes, or reaches through its link, protected material. */
  predicate Touches(protections: seq<Text16>, changes: seq<Change>, i: nat)
    requires i < |changes|
  {
    Covers(protections, changes[i].path) || Covers(protections, EffectiveOf(changes, changes[i].path))
  }

  predicate Inside(roots: seq<Text16>, changes: seq<Change>, i: nat)
    requires i < |changes|
  {
    Covers(roots, changes[i].path) && Covers(roots, EffectiveOf(changes, changes[i].path))
  }

  predicate AnyTouches(protections: seq<Text16>, changes: seq<Change>) {
    exists i | 0 <= i < |changes| :: Touches(protections, changes, i)
  }

  predicate AnyOutside(roots: seq<Text16>, changes: seq<Change>) {
    exists i | 0 <= i < |changes| :: !Inside(roots, changes, i)
  }

  predicate WithinBounds(policy: Policy, changes: seq<Change>) {
    && |changes| <= policy.maxFiles
    && (forall i | 0 <= i < |changes| :: changes[i].bytes <= policy.maxFileBytes)
    && TotalBytes(changes) <= policy.maxTotalBytes
  }

  /** The decision table, in precedence order. */
  function Decide(capture: PolicyCapture, changes: seq<Change>, sources: seq<Text16>): Decision {
    match capture
    case NoPolicy => Refuse(MissingAuthority)
    case PolicyRefused(code) => Refuse(code)
    case PolicyCaptured(policy) =>
      var normal := NormalChanges(changes);
      if !RulesKnown(policy) then Refuse(UnrecognizedRule)
      else if !AllNormalize(sources) || !AllNormalize(policy.roots) || !ChangesNormalize(changes) then Refuse(PathUndecidable)
      else if AnyTouches(Protected(policy, sources), normal) then Refuse(ProtectedPath)
      else if AnyOutside(NormalPaths(policy.roots), normal) then Refuse(PathOutsideRoots)
      else if !WithinBounds(policy, normal) then Refuse(OverBound)
      else Proceed(SortBy(normal, PathKey))
  }

  // ------------------------------------------------------------------- the method

  method NormalizeAll(raws: seq<Text16>) returns (ok: bool, paths: seq<Text16>)
    ensures ok <==> AllNormalize(raws)
    ensures ok ==> paths == NormalPaths(raws)
  {
    hide Normalize;
    paths := [];
    for i := 0 to |raws|
      invariant AllNormalize(raws[..i]) && paths == NormalPaths(raws[..i])
    {
      assert raws[..i + 1] == raws[..i] + [raws[i]];
      var normal := Normalize(raws[i]);
      if normal.Unnormalizable? {
        return false, [];
      }
      paths := paths + [normal.path];
    }
    assert raws[..|raws|] == raws;
    ok := true;
  }

  method NormalizeChanges(changes: seq<Change>) returns (ok: bool, normal: seq<Change>)
    ensures ok <==> forall i | 0 <= i < |changes| :: Normalizes(changes[i].path)
    ensures ok ==> normal == NormalChanges(changes)
  {
    hide Normalize;
    normal := [];
    for i := 0 to |changes|
      invariant forall k | 0 <= k < i :: Normalizes(changes[k].path)
      invariant normal == NormalChanges(changes[..i])
    {
      assert changes[..i + 1] == changes[..i] + [changes[i]];
      var path := Normalize(changes[i].path);
      if path.Unnormalizable? {
        return false, [];
      }
      normal := normal + [changes[i].(path := path.path)];
    }
    assert changes[..|changes|] == changes;
    ok := true;
  }

  /** The link targets, keyed by path; a repeated path keeps its last target. */
  method ResolveTargets(changes: seq<Change>) returns (ok: bool, targets: map<Text16, Text16>)
    ensures ok <==> forall i | 0 <= i < |changes| :: changes[i].linkTarget.Some? ==> Normalizes(changes[i].linkTarget.value)
    ensures ok ==> forall path :: (if path in targets then targets[path] else path) == EffectiveOf(changes, path)
  {
    hide Normalize;
    targets := map[];
    for i := 0 to |changes|
      invariant forall k | 0 <= k < i :: changes[k].linkTarget.Some? ==> Normalizes(changes[k].linkTarget.value)
      invariant forall path :: (if path in targets then targets[path] else path) == EffectiveOf(changes[..i], path)
    {
      assert changes[..i + 1][..i] == changes[..i];
      var change := changes[i];
      if change.linkTarget.Some? {
        var target := Normalize(change.linkTarget.value);
        if target.Unnormalizable? {
          return false, map[];
        }
        targets := targets[change.path := target.path];
      } else {
        targets := targets[change.path := change.path];
      }
    }
    assert changes[..|changes|] == changes;
    ok := true;
  }

  method DecideMaterialization(capture: PolicyCapture, changes: seq<Change>, sources: seq<Text16>) returns (decision: Decision)
    ensures decision == Decide(capture, changes, sources)
  {
    hide Normalize, EffectiveOf, Covers, SortBy;
    if capture.NoPolicy? {
      return Refuse(MissingAuthority);
    }
    if capture.PolicyRefused? {
      return Refuse(capture.code);
    }
    var policy := capture.policy;
    for i := 0 to |policy.rules|
      invariant forall k | 0 <= k < i :: policy.rules[k].implemented
    {
      if !policy.rules[i].implemented {
        return Refuse(UnrecognizedRule);
      }
    }
    var sourcesOk, sourcePaths := NormalizeAll(sources);
    if !sourcesOk {
      return Refuse(PathUndecidable);
    }
    var protections := RulePrefixes(policy.rules) + sourcePaths;
    var rootsOk, roots := NormalizeAll(policy.roots);
    if !rootsOk {
      return Refuse(PathUndecidable);
    }
    var changesOk, normal := NormalizeChanges(changes);
    if !changesOk {
      NotEstablished(changes);
      return Refuse(PathUndecidable);
    }
    var targetsOk, targets := ResolveTargets(normal);
    SameLinks(changes);
    if !targetsOk {
      return Refuse(PathUndecidable);
    }
    hide Normalizes, NormalChanges, AnyTouches, AnyOutside, WithinBounds;
    assert ChangesNormalize(changes) && protections == Protected(policy, sources);
    decision := DecideNormal(policy, protections, roots, normal, targets);
  }

  lemma NotEstablished(changes: seq<Change>)
    requires exists i | 0 <= i < |changes| :: !Normalizes(changes[i].path)
    ensures !ChangesNormalize(changes)
  {
  }

  lemma SameLinks(changes: seq<Change>)
    requires forall i | 0 <= i < |changes| :: Normalizes(changes[i].path)
    ensures var normal := NormalChanges(changes);
      ChangesNormalize(changes) <==>
        forall i | 0 <= i < |normal| :: normal[i].linkTarget.Some? ==> Normalizes(normal[i].linkTarget.value)
  {
    hide Normalizes, NormalPath;
    var normal := NormalChanges(changes);
    assert forall i | 0 <= i < |changes| :: normal[i].linkTarget == changes[i].linkTarget;
  }

  method DecideNormal(policy: Policy, protections: seq<Text16>, roots: seq<Text16>, normal: seq<Change>, targets: map<Text16, Text16>)
    returns (decision: Decision)
    requires forall path :: (if path in targets then targets[path] else path) == EffectiveOf(normal, path)
    ensures decision ==
      if AnyTouches(protections, normal) then Refuse(ProtectedPath)
      else if AnyOutside(roots, normal) then Refuse(PathOutsideRoots)
      else if !WithinBounds(policy, normal) then Refuse(OverBound)
      else Proceed(SortBy(normal, PathKey))
  {
    hide EffectiveOf, Covers, SortBy;
    for i := 0 to |normal|
      invariant forall k | 0 <= k < i :: !Touches(protections, normal, k)
    {
      var path := normal[i].path;
      var effective := if path in targets then targets[path] else path;
      if Covers(protections, path) || Covers(protections, effective) {
        assert Touches(protections, normal, i);
        return Refuse(ProtectedPath);
      }
    }
    for i := 0 to |normal|
      invariant forall k | 0 <= k < i :: Inside(roots, normal, k)
    {
      var path := normal[i].path;
      var effective := if path in targets then targets[path] else path;
      if !Covers(roots, path) || (effective != path && !Covers(roots, effective)) {
        assert !Inside(roots, normal, i);
        return Refuse(PathOutsideRoots);
      }
    }
    if |normal| > policy.maxFiles {
      return Refuse(OverBound);
    }
    var total := 0;
    for i := 0 to |normal|
      invariant forall k | 0 <= k < i :: normal[k].bytes <= policy.maxFileBytes
      invariant total == TotalBytes(normal[..i])
    {
      if normal[i].bytes > policy.maxFileBytes {
        return Refuse(OverBound);
      }
      assert normal[..i + 1][..i] == normal[..i];
      total := total + normal[i].bytes;
    }
    assert normal[..|normal|] == normal;
    if total > policy.maxTotalBytes {
      return Refuse(OverBound);
    }
    decision := Proceed(SortBy(normal, PathKey));
  }

  // ------------------------------------------------------------- what it means

  /** Pairwise distinct normalized paths. */
  predicate DistinctPaths(changes: seq<Change>) {
    forall i, j | 0 <= i < j < |changes| :: NormalPath(changes[i].path) != NormalPath(changes[j].path)
  }

  /** The last change at the path of change `i`. */
  function LastAt(changes: seq<Change>, i: nat): (k: nat)
    requires i < |changes|
    ensures i <= k < |changes| && changes[k].path == changes[i].path
    ensures forall j | k < j < |changes| :: changes[j].path != changes[i].path
    decreases changes
  {
    var n := |changes| - 1;
    if changes[n].path == changes[i].path then n else LastAt(changes[..n], i)
  }

  /** The target looked at for a change is the one the last change at its path records. */
  lemma {:induction false} EffectiveIsLast(normal: seq<Change>, i: nat)
    requires i < |normal|
    ensures EffectiveOf(normal, normal[i].path) == TargetOf(normal[LastAt(normal, i)])
    decreases normal
  {
    var n := |normal| - 1;
    if normal[n].path != normal[i].path {
      EffectiveIsLast(normal[..n], i);
    }
  }

  lemma EffectiveIsOwn(normal: seq<Change>, i: nat)
    requires i < |normal| && forall a, b | 0 <= a < b < |normal| :: normal[a].path != normal[b].path
    ensures EffectiveOf(normal, normal[i].path) == TargetOf(normal[i])
  {
    EffectiveIsLast(normal, i);
    assert LastAt(normal, i) == i;
  }

  /** Covered by the segments of some prefix. */
  ghost predicate SegmentCovered(prefixes: seq<Text16>, path: Text16) {
    exists i :: 0 <= i < |prefixes| && Segments(prefixes[i]) <= Segments(path)
  }

  lemma CoversIsSegments(prefixes: seq<Text16>, path: Text16)
    ensures Covers(prefixes, path) <==> SegmentCovered(prefixes, path)
  {
    forall i | 0 <= i < |prefixes|
      ensures IsPathPrefix(prefixes[i], path) <==> Segments(prefixes[i]) <= Segments(path)
    {
      PrefixIsSegmentPrefix(prefixes[i], path);
    }
  }

  /** Under some root and under no protection, segment by segment. */
  ghost predicate Allowed(policy: Policy, sources: seq<Text16>, path: Text16) {
    SegmentCovered(NormalPaths(policy.roots), path) && !SegmentCovered(Protected(policy, sources), path)
  }

  /** What is asked of change `i`: its path, and the target of the last change at that path. */
  ghost predicate IsAdmitted(policy: Policy, sources: seq<Text16>, normal: seq<Change>, i: nat)
    requires i < |normal|
  {
    Allowed(policy, sources, normal[i].path) && Allowed(policy, sources, TargetOf(normal[LastAt(normal, i)]))
  }

  lemma AdmittedIs(policy: Policy, sources: seq<Text16>, normal: seq<Change>, i: nat)
    requires i < |normal|
    ensures IsAdmitted(policy, sources, normal, i) <==>
              Inside(NormalPaths(policy.roots), normal, i) && !Touches(Protected(policy, sources), normal, i)
  {
    hide SegmentCovered, Covers;
    EffectiveIsLast(normal, i);
    var target := TargetOf(normal[LastAt(normal, i)]);
    CoversIsSegments(NormalPaths(policy.roots), normal[i].path);
    CoversIsSegments(NormalPaths(policy.roots), target);
    CoversIsSegments(Protected(policy, sources), normal[i].path);
    CoversIsSegments(Protected(policy, sources), target);
  }

  /** Everything the decision needs can be established. */
  predicate IsDecidable(policy: Policy, changes: seq<Change>, sources: seq<Text16>) {
    RulesKnown(policy) && AllNormalize(sources) && AllNormalize(policy.roots) && ChangesNormalize(changes)
  }

  /**
   * Sound and complete, for every change set: materialization proceeds exactly when everything can
   * be established, every path lies under some root and under no protection, so does the target of
   * the last change at each path, and all three bounds hold.
   */
  lemma ProceedsExactly(policy: Policy, changes: seq<Change>, sources: seq<Text16>)
    ensures var normal := NormalChanges(changes);
      Decide(PolicyCaptured(policy), changes, sources).Proceed? <==>
        && IsDecidable(policy, changes, sources)
        && (forall i | 0 <= i < |normal| :: IsAdmitted(policy, sources, normal, i))
        && WithinBounds(policy, normal)
  {
    hide IsAdmitted, Inside, Touches, WithinBounds, Normalizes, NormalPath;
    var normal := NormalChanges(changes);
    forall i | 0 <= i < |normal|
      ensures IsAdmitted(policy, sources, normal, i) <==>
                Inside(NormalPaths(policy.roots), normal, i) && !Touches(Protected(policy, sources), normal, i)
    {
      AdmittedIs(policy, sources, normal, i);
    }
  }

  /** Change `i` is followed by one at the same path that records another target. */
  ghost predicate IsSuperseded(normal: seq<Change>, i: nat)
    requires i < |normal|
  {
    exists j :: i < j < |normal| && normal[j].path == normal[i].path && TargetOf(normal[j]) != TargetOf(normal[i])
  }

  lemma LookedAtUnlessSuperseded(normal: seq<Change>, i: nat)
    requires i < |normal|
    ensures EffectiveOf(normal, normal[i].path) == TargetOf(normal[i]) || IsSuperseded(normal, i)
  {
    hide EffectiveOf, TargetOf;
    EffectiveIsLast(normal, i);
    var k := LastAt(normal, i);
    assert i < k ==> normal[k].path == normal[i].path;
  }

  /** Every recorded target is the one that is looked at exactly when no change is superseded. */
  lemma TargetsLookedAtExactly(normal: seq<Change>)
    ensures (forall i | 0 <= i < |normal| :: EffectiveOf(normal, normal[i].path) == TargetOf(normal[i]))
      <==> forall i | 0 <= i < |normal| :: !IsSuperseded(normal, i)
  {
    forall i | 0 <= i < |normal|
      ensures EffectiveOf(normal, normal[i].path) == TargetOf(normal[i]) || IsSuperseded(normal, i)
    {
      LookedAtUnlessSuperseded(normal, i);
    }
    hide EffectiveOf, TargetOf;
    forall i | 0 <= i < |normal| && IsSuperseded(normal, i)
      ensures exists k :: 0 <= k < |normal| && EffectiveOf(normal, normal[k].path) != TargetOf(normal[k])
    {
      var j :| i < j < |normal| && normal[j].path == normal[i].path && TargetOf(normal[j]) != TargetOf(normal[i]);
      assert EffectiveOf(normal, normal[i].path) == EffectiveOf(normal, normal[j].path);
    }
  }

  /**
   * When materialization proceeds, a change whose own target is not allowed can only have slipped
   * through behind a later change at its path with another target; at pairwise distinct paths every
   * target of a materialized set is allowed.
   */
  lemma OnlySupersededTargetsSlip(policy: Policy, changes: seq<Change>, sources: seq<Text16>, i: nat)
    requires i < |changes| && Decide(PolicyCaptured(policy), changes, sources).Proceed?
    ensures var normal := NormalChanges(changes);
      && Allowed(policy, sources, normal[i].path)
      && (!Allowed(policy, sources, TargetOf(normal[i])) ==> IsSuperseded(normal, i))
      && (DistinctPaths(changes) ==> Allowed(policy, sources, TargetOf(normal[i])))
  {
    ProceedsExactly(policy, changes, sources);
    var normal := NormalChanges(changes);
    hide Allowed, Decide, TargetOf, WithinBounds, IsDecidable;
    assert IsAdmitted(policy, sources, normal, i);
    LookedAtUnlessSuperseded(normal, i);
    EffectiveIsLast(normal, i);
  }

  lemma PathsAreKeys(changes: seq<Change>)
    requires DistinctPaths(changes)
    ensures DistinctKeys(NormalChanges(changes), PathKey)
  {
  }

  /** What proceeds is the normalized change set, in path order, nothing dropped. */
  lemma ProceedsWithAll(policy: Policy, changes: seq<Change>, sources: seq<Text16>)
    requires DistinctPaths(changes) && Decide(PolicyCaptured(policy), changes, sources).Proceed?
    ensures var out := Decide(PolicyCaptured(policy), changes, sources).changes;
      Ascending(out, PathKey) && |out| == |changes| && SameElements(out, NormalChanges(changes))
  {
    hide Touches, Inside, WithinBounds, Normalizes, RulesKnown, AllNormalize, ChangesNormalize, SortBy, Protected, NormalPaths,
      DistinctPaths, DistinctKeys, Ascending, SameElements;
    PathsAreKeys(changes);
    SortKeeps(NormalChanges(changes), PathKey);
    assert |NormalChanges(changes)| == |changes|;
  }

  // --------------------------------------------------------- order independence

  lemma NormalsWithin(a: seq<Change>, b: seq<Change>)
    requires forall i | 0 <= i < |a| :: a[i] in b
    ensures forall i | 0 <= i < |a| :: NormalChanges(a)[i] in NormalChanges(b)
    ensures ChangesNormalize(b) ==> ChangesNormalize(a)
  {
    hide NormalChange, Normalizes;
    forall i | 0 <= i < |a|
      ensures NormalChanges(a)[i] in NormalChanges(b)
      ensures ChangesNormalize(b) ==>
        Normalizes(a[i].path) && (a[i].linkTarget.Some? ==> Normalizes(a[i].linkTarget.value))
    {
      assert a[i] in b;
      var k :| 0 <= k < |b| && b[k] == a[i];
      assert NormalChanges(b)[k] == NormalChange(b[k]);
    }
  }

  lemma {:induction false} InsertedBytes(x: Change, items: seq<Change>)
    ensures TotalBytes(Insert(x, items, PathKey)) == TotalBytes(items) + x.bytes
  {
    var r := Insert(x, items, PathKey);
    if items == [] || Below(PathKey(x), PathKey(items[0])) {
      FirstBytes([x] + items);
      assert ([x] + items)[1..] == items;
    } else {
      InsertedBytes(x, items[1..]);
      FirstBytes(items);
      FirstBytes(r);
      assert r[1..] == Insert(x, items[1..], PathKey);
    }
  }

  lemma {:induction false} FirstBytes(items: seq<Change>)
    requires items != []
    ensures TotalBytes(items) == items[0].bytes + TotalBytes(items[1..])
  {
    var n := |items| - 1;
    if n > 0 {
      FirstBytes(items[..n]);
      assert items[..n][1..] == items[1..][..n - 1];
    }
  }

  lemma {:induction false} SortedBytes(items: seq<Change>)
    ensures TotalBytes(SortBy(items, PathKey)) == TotalBytes(items)
  {
    if items != [] {
      var n := |items| - 1;
      SortedBytes(items[..n]);
      InsertedBytes(items[n], SortBy(items[..n], PathKey));
    }
  }

  /** The same changes: bounds and admissibility cannot tell the orders apart. */
  lemma SameBounds(policy: Policy, a: seq<Change>, b: seq<Change>)
    requires DistinctKeys(a, PathKey) && DistinctKeys(b, PathKey) && SameElements(a, b)
    ensures SortBy(a, PathKey) == SortBy(b, PathKey) && (WithinBounds(policy, a) ==> WithinBounds(policy, b))
  {
    SortIgnoresOrder(a, b, PathKey);
    SortKeeps(a, PathKey);
    SortKeeps(b, PathKey);
    SortedBytes(a);
    SortedBytes(b);
    hide SortBy, TotalBytes;
    if WithinBounds(policy, a) {
      forall i | 0 <= i < |b|
        ensures b[i].bytes <= policy.maxFileBytes
      {
        assert b[i] in a;
        var k :| 0 <= k < |a| && a[k] == b[i];
      }
    }
  }

  /** Some change fails a test exactly when some change of the other order does. */
  lemma SameTests(protections: seq<Text16>, roots: seq<Text16>, a: seq<Change>, b: seq<Change>)
    requires forall i, j | 0 <= i < j < |a| :: a[i].path != a[j].path
    requires forall i, j | 0 <= i < j < |b| :: b[i].path != b[j].path
    requires forall i | 0 <= i < |a| :: a[i] in b
    ensures (exists i | 0 <= i < |a| :: Touches(protections, a, i)) ==> exists i | 0 <= i < |b| :: Touches(protections, b, i)
    ensures (exists i | 0 <= i < |a| :: !Inside(roots, a, i)) ==> exists i | 0 <= i < |b| :: !Inside(roots, b, i)
  {
    hide Covers;
    forall i | 0 <= i < |a|
      ensures exists k | 0 <= k < |b| :: b[k] == a[i] && (Touches(protections, a, i) <==> Touches(protections, b, k))
                                      && (Inside(roots, a, i) <==> Inside(roots, b, k))
    {
      assert a[i] in b;
      var k :| 0 <= k < |b| && b[k] == a[i];
      EffectiveIsOwn(a, i);
      EffectiveIsOwn(b, k);
    }
  }

  /** The table depends on the changes only through these five answers. */
  lemma DecidedBy(policy: Policy, a: seq<Change>, b: seq<Change>, sources: seq<Text16>)
    requires var x, y := NormalChanges(a), NormalChanges(b);
      && (ChangesNormalize(a) <==> ChangesNormalize(b))
      && (AnyTouches(Protected(policy, sources), x) <==> AnyTouches(Protected(policy, sources), y))
      && (AnyOutside(NormalPaths(policy.roots), x) <==> AnyOutside(NormalPaths(policy.roots), y))
      && (WithinBounds(policy, x) <==> WithinBounds(policy, y)) && SortBy(x, PathKey) == SortBy(y, PathKey)
    ensures Decide(PolicyCaptured(policy), a, sources) == Decide(PolicyCaptured(policy), b, sources)
  {
    hide Touches, Inside, WithinBounds, Normalizes, RulesKnown, AllNormalize, ChangesNormalize, SortBy, Protected, NormalPaths,
      NormalChanges;
  }

  /** For distinct normalized paths, neither the refusal code nor the result depends on input order. */
  lemma OrderDoesNotMatter(capture: PolicyCapture, a: seq<Change>, b: seq<Change>, sources: seq<Text16>)
    requires DistinctPaths(a) && DistinctPaths(b) && SameElements(a, b)
    ensures Decide(capture, a, sources) == Decide(capture, b, sources)
  {
    if capture.PolicyCaptured? {
      SameAnswers(capture.policy, a, b, sources);
      SameAnswers(capture.policy, b, a, sources);
      hide AnyTouches, AnyOutside, WithinBounds, ChangesNormalize, SortBy, Decide;
      DecidedBy(capture.policy, a, b, sources);
    }
  }

  lemma SameAnswers(policy: Policy, a: seq<Change>, b: seq<Change>, sources: seq<Text16>)
    requires DistinctPaths(a) && DistinctPaths(b) && SameElements(a, b)
    ensures var x, y := NormalChanges(a), NormalChanges(b);
      && (ChangesNormalize(b) ==> ChangesNormalize(a))
      && (AnyTouches(Protected(policy, sources), x) ==> AnyTouches(Protected(policy, sources), y))
      && (AnyOutside(NormalPaths(policy.roots), x) ==> AnyOutside(NormalPaths(policy.roots), y))
      && (WithinBounds(policy, x) ==> WithinBounds(policy, y)) && SortBy(x, PathKey) == SortBy(y, PathKey)
  {
    hide Touches, Inside, WithinBounds, SortBy, ChangesNormalize, Normalizes, NormalPath, Protected, NormalPaths;
    NormalsWithin(a, b);
    NormalsWithin(b, a);
    PathsAreKeys(a);
    PathsAreKeys(b);
    SameBounds(policy, NormalChanges(a), NormalChanges(b));
    KeysAreDistinct(NormalChanges(a));
    KeysAreDistinct(NormalChanges(b));
    SameTests(Protected(policy, sources), NormalPaths(policy.roots), NormalChanges(a), NormalChanges(b));
  }

  lemma KeysAreDistinct(changes: seq<Change>)
    requires DistinctKeys(changes, PathKey)
    ensures forall i, j | 0 <= i < j < |changes| :: changes[i].path != changes[j].path
  {
    assert forall i | 0 <= i < |changes| :: PathKey(changes[i]) == changes[i].path;
  }

  // ------------------------------------------------------------ a repeated path

  const ROOT: Text16 := [119]
  const OUTSIDE: Text16 := [120]

  lemma OneSegment(u: Unit)
    requires u in {119, 120}
    ensures Normalize([u]) == Normalized([u]) && Segments([u]) == [[u]]
  {
    assert Segments([u]) == [[u]];
    assert Plain([[u]]) == [[u]] by {
      assert [[u]][1..] == [];
    }
    assert [DOT, DOT] != [u] by {
      assert |[DOT, DOT]| == 2;
    }
  }

  /**
   * Distinctness is needed: targets are kept per path, so of two changes at one path only the last
   * one's link target is looked at, and the order of the two decides.
   */
  lemma RepeatedPathHidesATarget()
    ensures var policy := Policy([], [ROOT], 2, 0, 0);
      var linked, plain := Change(ROOT, "modified", 0, Some(OUTSIDE)), Change(ROOT, "modified", 0, None);
      && Decide(PolicyCaptured(policy), [linked, plain], []).Proceed?
      && Decide(PolicyCaptured(policy), [plain, linked], []) == Refuse(PathOutsideRoots)
  {
    var linked, plain := Change(ROOT, "modified", 0, Some(OUTSIDE)), Change(ROOT, "modified", 0, None);
    hide Decide;
    TwoAtOnePath(linked, plain);
    TwoAtOnePath(plain, linked);
  }

  /** Two changes at one path under the policy that allows only that path: the last target decides. */
  lemma TwoAtOnePath(a: Change, b: Change)
    requires a.path == ROOT && b.path == ROOT && a.bytes == 0 && b.bytes == 0
    requires a.linkTarget in {None, Some(OUTSIDE)} && b.linkTarget in {None, Some(OUTSIDE)}
    ensures var policy := Policy([], [ROOT], 2, 0, 0);
      var decision := Decide(PolicyCaptured(policy), [a, b], []);
      if b.linkTarget.None? then decision.Proceed? else decision == Refuse(PathOutsideRoots)
  {
    hide *;
    TwoEstablished(a, b);
    PolicyPaths();
    TwoTests(a, b);
    DecidedAs(Policy([], [ROOT], 2, 0, 0), [a, b]);
  }

  lemma TwoEstablished(a: Change, b: Change)
    requires a.path == ROOT && b.path == ROOT && a.bytes == 0 && b.bytes == 0
    requires a.linkTarget in {None, Some(OUTSIDE)} && b.linkTarget in {None, Some(OUTSIDE)}
    ensures var policy := Policy([], [ROOT], 2, 0, 0);
      && RulesKnown(policy) && AllNormalize(policy.roots) && ChangesNormalize([a, b])
      && NormalChanges([a, b]) == [a, b] && WithinBounds(policy, [a, b])
  {
    AsTheyStand(a, b);
    TwoEffective(a, b);
    hide Normalizes, NormalChanges, TotalBytes;
  }

  /** The table, once everything is established and nothing is protected. */
  lemma DecidedAs(policy: Policy, changes: seq<Change>)
    requires RulesKnown(policy) && AllNormalize(policy.roots) && ChangesNormalize(changes)
    requires !AnyTouches(Protected(policy, []), NormalChanges(changes)) && WithinBounds(policy, NormalChanges(changes))
    ensures var decision := Decide(PolicyCaptured(policy), changes, []);
      if AnyOutside(NormalPaths(policy.roots), NormalChanges(changes)) then decision == Refuse(PathOutsideRoots) else decision.Proceed?
  {
    hide AnyTouches, AnyOutside, NormalPaths, Protected, NormalChanges, WithinBounds, ChangesNormalize, RulesKnown, Normalizes, SortBy;
  }

  lemma TwoTests(a: Change, b: Change)
    requires a.path == ROOT && b.path == ROOT && a.bytes == 0 && b.bytes == 0
    requires b.linkTarget in {None, Some(OUTSIDE)}
    ensures !AnyTouches([], [a, b]) && (AnyOutside([ROOT], [a, b]) <==> b.linkTarget.Some?)
  {
    TwoEffective(a, b);
    RootOnly();
    NothingCovers();
    hide Covers, EffectiveOf;
    assert Inside([ROOT], [a, b], 0) <==> b.linkTarget.None?;
    assert Inside([ROOT], [a, b], 1) <==> b.linkTarget.None?;
  }

  lemma PolicyPaths()
    ensures NormalPaths([]) == [] && NormalPaths([ROOT]) == [ROOT] && Protected(Policy([], [ROOT], 2, 0, 0), []) == []
  {
    OneSegment(119);
    hide Normalize;
  }

  lemma NothingCovers()
    ensures forall path :: !Covers([], path)
  {
  }

  lemma AsTheyStand(a: Change, b: Change)
    requires a.path == ROOT && b.path == ROOT
    ensures NormalChanges([a, b]) == [a, b] && NormalPath(ROOT) == ROOT && Normalizes(ROOT) && Normalizes(OUTSIDE)
  {
    OneSegment(119);
    OneSegment(120);
    hide Normalize;
  }

  lemma TwoEffective(a: Change, b: Change)
    requires a.path == ROOT && b.path == ROOT && a.bytes == 0 && b.bytes == 0
    requires b.linkTarget == None || b.linkTarget == Some(OUTSIDE)
    ensures EffectiveOf([a, b], ROOT) == (if b.linkTarget.None? then ROOT else OUTSIDE) && TotalBytes([a, b]) == 0
  {
    OneSegment(120);
    hide Normalize;
    assert [a, b][..1] == [a] && [a][..0] == [];
    assert TotalBytes([a]) == 0;
  }

  lemma RootOnly()
    ensures Covers([ROOT], ROOT) && !Covers([ROOT], OUTSIDE)
  {
    assert IsPathPrefix([ROOT][0], ROOT);
    assert ROOT[0] != OUTSIDE[0];
    assert |ROOT + [SLASH]| == 2;
  }
}
