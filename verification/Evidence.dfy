/**
 * The evidence round trip: captured authority, the producer's bundle, and the verifier that
 * derives its expectation again. `digest` is the content digest; `schema` stands for parsing a
 * document's bytes and validating them against one contract; `valid` is the bundle's own contract.
 */
module Evidence {
  import opened Options
  import opened Ordering
  import opened Paths
  import opened Materialize

  // ------------------------------------------------------------------- authority

  datatype AuthorityBytes = Acquired(source: Text16, bytes: string) | NotAcquired(source: Text16)

  /** What bytes turn out to be under a declared contract. */
  datatype Parsed<T> = NotJson | OtherContract(observed: string) | Invalid | Valid(contractId: string, contractVersion: string, value: T)

  datatype Identity = Identity(contractId: string, contractVersion: string, digest: string)

  datatype Capture<T> =
    | Captured(source: Text16, digest: string, contract: Identity, value: T)
    | CaptureRefused(code: Code)
    | CaptureFault

  datatype Profile = Profile(name: string, version: string, capability: string)

  function CaptureAuthority<T>(digest: string -> string, schema: string -> Parsed<T>, input: AuthorityBytes): (r: Capture<T>) {
    match input
    case NotAcquired(_) => CaptureFault
    case Acquired(source, bytes) =>
      match schema(bytes)
      case NotJson => CaptureRefused(InvalidAuthority)
      case OtherContract(_) => CaptureRefused(ContractMismatch)
      case Invalid => CaptureRefused(InvalidAuthority)
      case Valid(id, version, value) => Captured(source, digest(bytes), Identity(id, version, digest(bytes)), value)
  }

  /** The recorded digest is of the bytes that governed, and equal captures came from equal content. */
  lemma CaptureBindsBytes<T>(digest: string -> string, schema: string -> Parsed<T>, a: AuthorityBytes, b: AuthorityBytes)
    requires CaptureAuthority(digest, schema, a).Captured? && CaptureAuthority(digest, schema, b).Captured?
    ensures var x, y := CaptureAuthority(digest, schema, a), CaptureAuthority(digest, schema, b);
      && x.digest == x.contract.digest == digest(a.bytes)
      && (a.bytes == b.bytes ==> x.contract == y.contract && x.value == y.value)
      && ((forall s, t :: digest(s) == digest(t) ==> s == t) && x.contract == y.contract ==> a.bytes == b.bytes && x.value == y.value)
  {
  }

  // -------------------------------------------------------------------- the bundle

  datatype Artifact = Artifact(path: Text16, content: string)

  datatype Observation = Observed(artifacts: seq<Artifact>) | Unreadable

  datatype ArtifactRow = ArtifactRow(path: Text16, digest: string)

  datatype ProfileIdentity = ProfileIdentity(name: string, version: string, digest: string)

  /** `rest` is everything that reaches the bundle unchanged: run identities, operations, gates, timing. */
  datatype Bundle = Bundle(
    profile: ProfileIdentity, pathPolicy: Identity, gateRegistry: Identity, capability: string,
    artifacts: seq<ArtifactRow>, observed: seq<(Text16, string)>, success: bool, rest: string)

  datatype Snapshots = Snapshots(
    profile: Option<Capture<Profile>>, pathPolicy: Option<Capture<Policy>>, gateRegistry: Option<Capture<string>>)

  datatype Inputs = Inputs(snapshots: Snapshots, artifacts: Observation, changes: seq<Change>, success: bool, rest: string)

  datatype Construction = Constructed(bundle: Bundle) | ConstructionRefused(code: Code) | ConstructionFault

  function RowKey(row: ArtifactRow): Units {
    row.path
  }

  function RowOf(digest: string -> string, a: Artifact): ArtifactRow {
    ArtifactRow(NormalPath(a.path), digest(a.content))
  }

  function RowsOf(digest: string -> string, artifacts: seq<Artifact>): seq<ArtifactRow> {
    seq(|artifacts|, i requires 0 <= i < |artifacts| => RowOf(digest, artifacts[i]))
  }

  predicate ArtifactsNormalize(artifacts: seq<Artifact>) {
    forall i | 0 <= i < |artifacts| :: Normalizes(artifacts[i].path)
  }

  function ObservedPairs(changes: seq<Change>): seq<(Text16, string)> {
    seq(|changes|, i requires 0 <= i < |changes| => (changes[i].path, changes[i].kind))
  }

  /** What the capture refused with, or that it is missing. */
  function Lack<T>(capture: Option<Capture<T>>): Option<Construction> {
    match capture
    case None => Some(ConstructionRefused(MissingAuthority))
    case Some(CaptureRefused(code)) => Some(ConstructionRefused(code))
    case Some(CaptureFault) => Some(ConstructionFault)
    case Some(Captured(_, _, _, _)) => None
  }

  function BundleOf(digest: string -> string, profile: Capture<Profile>, policy: Capture<Policy>, gates: Capture<string>,
                    artifacts: seq<Artifact>, inputs: Inputs): Bundle
    requires profile.Captured? && policy.Captured? && gates.Captured?
  {
    Bundle(ProfileIdentity(profile.value.name, profile.value.version, profile.digest), policy.contract, gates.contract,
           profile.value.capability, SortBy(RowsOf(digest, artifacts), RowKey), ObservedPairs(inputs.changes), inputs.success, inputs.rest)
  }

  function Construct(digest: string -> string, valid: Bundle -> bool, inputs: Inputs): Construction {
    var s := inputs.snapshots;
    if Lack(s.profile).Some? then Lack(s.profile).value
    else if Lack(s.pathPolicy).Some? then Lack(s.pathPolicy).value
    else if Lack(s.gateRegistry).Some? then Lack(s.gateRegistry).value
    else if inputs.artifacts.Unreadable? then ConstructionFault
    else
      var (profile, policy, gates) := (s.profile.value, s.pathPolicy.value, s.gateRegistry.value);
      var decision := Decide(PolicyCaptured(policy.value), inputs.changes, [profile.source, policy.source, gates.source]);
      if inputs.success && decision.Refuse? then ConstructionRefused(decision.code)
      else if !ArtifactsNormalize(inputs.artifacts.artifacts) then ConstructionRefused(PathUndecidable)
      else
        var bundle := BundleOf(digest, profile, policy, gates, inputs.artifacts.artifacts, inputs);
        if valid(bundle) then Constructed(bundle) else ConstructionRefused(IncompleteEvidence)
  }

  method ConstructEvidence(digest: string -> string, valid: Bundle -> bool, inputs: Inputs) returns (result: Construction)
    ensures result == Construct(digest, valid, inputs)
  {
    hide Decide, SortBy, Normalizes, NormalPath;
    var s := inputs.snapshots;
    if Lack(s.profile).Some? {
      return Lack(s.profile).value;
    }
    if Lack(s.pathPolicy).Some? {
      return Lack(s.pathPolicy).value;
    }
    if Lack(s.gateRegistry).Some? {
      return Lack(s.gateRegistry).value;
    }
    if inputs.artifacts.Unreadable? {
      return ConstructionFault;
    }
    var (profile, policy, gates) := (s.profile.value, s.pathPolicy.value, s.gateRegistry.value);
    if inputs.success {
      var decision := DecideMaterialization(PolicyCaptured(policy.value), inputs.changes, [profile.source, policy.source, gates.source]);
      if decision.Refuse? {
        return ConstructionRefused(decision.code);
      }
    }
    var artifacts := inputs.artifacts.artifacts;
    var rows: seq<ArtifactRow> := [];
    for i := 0 to |artifacts|
      invariant forall k | 0 <= k < i :: Normalizes(artifacts[k].path)
      invariant rows == RowsOf(digest, artifacts[..i])
    {
      assert artifacts[..i + 1] == artifacts[..i] + [artifacts[i]];
      if !Normalizes(artifacts[i].path) {
        return ConstructionRefused(PathUndecidable);
      }
      rows := rows + [RowOf(digest, artifacts[i])];
    }
    assert artifacts[..|artifacts|] == artifacts;
    var bundle := BundleOf(digest, profile, policy, gates, artifacts, inputs);
    result := if valid(bundle) then Constructed(bundle) else ConstructionRefused(IncompleteEvidence);
  }

  // ------------------------------------------------------------------ the verifier

  datatype Independent = Independent(profile: AuthorityBytes, pathPolicy: AuthorityBytes, gateRegistry: AuthorityBytes, artifacts: Observation)

  datatype Schemas = Schemas(profile: string -> Parsed<Profile>, pathPolicy: string -> Parsed<Policy>, gateRegistry: string -> Parsed<string>)

  datatype Verification = Verified(consumed: seq<ArtifactRow>) | NotVerified | VerificationFault

  /** Two rows of the bundle never give one path two digests. */
  ghost predicate Consistent(rows: seq<ArtifactRow>) {
    forall i, j | 0 <= i < |rows| && 0 <= j < |rows| && rows[i].path == rows[j].path :: rows[i].digest == rows[j].digest
  }

  /** Every identity field of the bundle is what the independent captures derive. */
  ghost predicate IdentitiesAgree(digest: string -> string, schemas: Schemas, b: Bundle, independent: Independent) {
    var profile := CaptureAuthority(digest, schemas.profile, independent.profile);
    var policy := CaptureAuthority(digest, schemas.pathPolicy, independent.pathPolicy);
    var gates := CaptureAuthority(digest, schemas.gateRegistry, independent.gateRegistry);
    && profile.Captured? && b.profile == ProfileIdentity(profile.value.name, profile.value.version, profile.digest)
    && policy.Captured? && b.pathPolicy == policy.contract
    && gates.Captured? && b.gateRegistry == gates.contract
  }

  /** The bundle accounts for exactly the observed artifacts, with the digests recomputed from them. */
  ghost predicate AccountsFor(digest: string -> string, rows: seq<ArtifactRow>, artifacts: seq<Artifact>) {
    && ArtifactsNormalize(artifacts)
    && (forall i | 0 <= i < |artifacts| :: RowOf(digest, artifacts[i]) in rows)
    && (forall j | 0 <= j < |rows| :: IsObserved(artifacts, rows[j].path))
  }

  /** What verification establishes. */
  ghost predicate IsVerified(digest: string -> string, schemas: Schemas, valid: Bundle -> bool, claimed: Option<Bundle>, independent: Independent) {
    && claimed.Some? && independent.artifacts.Observed? && valid(claimed.value)
    && Consistent(claimed.value.artifacts)
    && IdentitiesAgree(digest, schemas, claimed.value, independent)
    && AccountsFor(digest, claimed.value.artifacts, independent.artifacts.artifacts)
  }

  /** Index the claimed rows; two irreconcilable statements about one path contradict. */
  method IndexArtifacts(rows: seq<ArtifactRow>) returns (ok: bool, byPath: map<Text16, string>)
    ensures ok <==> Consistent(rows)
    ensures ok ==> forall path :: path in byPath <==> exists i :: 0 <= i < |rows| && rows[i].path == path
    ensures ok ==> forall i | 0 <= i < |rows| :: rows[i].path in byPath && byPath[rows[i].path] == rows[i].digest
  {
    byPath := map[];
    for i := 0 to |rows|
      invariant forall path :: path in byPath <==> exists k :: 0 <= k < i && rows[k].path == path
      invariant forall k | 0 <= k < i :: rows[k].path in byPath && byPath[rows[k].path] == rows[k].digest
    {
      if rows[i].path in byPath && byPath[rows[i].path] != rows[i].digest {
        return false, map[];
      }
      byPath := byPath[rows[i].path := rows[i].digest];
    }
    ok := true;
  }

  /** An observed artifact is readable, accounted for, and has the recorded digest. */
  predicate Matches(digest: string -> string, byPath: map<Text16, string>, a: Artifact) {
    Normalizes(a.path) && NormalPath(a.path) in byPath && byPath[NormalPath(a.path)] == digest(a.content)
  }

  predicate IsObserved(artifacts: seq<Artifact>, path: Text16) {
    exists i | 0 <= i < |artifacts| :: NormalPath(artifacts[i].path) == path
  }

  method CompareObserved(digest: string -> string, byPath: map<Text16, string>, artifacts: seq<Artifact>)
    returns (failures: nat, consumed: seq<ArtifactRow>, observed: set<Text16>)
    ensures failures == 0 <==> forall i | 0 <= i < |artifacts| :: Matches(digest, byPath, artifacts[i])
    ensures failures == 0 ==> consumed == RowsOf(digest, artifacts)
    ensures failures == 0 ==> forall path :: path in observed <==> IsObserved(artifacts, path)
  {
    hide Normalizes, NormalPath;
    failures, consumed, observed := 0, [], {};
    for i := 0 to |artifacts|
      invariant failures == 0 <==> forall k | 0 <= k < i :: Matches(digest, byPath, artifacts[k])
      invariant failures == 0 ==> consumed == RowsOf(digest, artifacts[..i])
      invariant failures == 0 ==> forall path :: path in observed <==> exists k :: 0 <= k < i && NormalPath(artifacts[k].path) == path
    {
      assert artifacts[..i + 1] == artifacts[..i] + [artifacts[i]];
      if !Normalizes(artifacts[i].path) {
        failures := failures + 1;
        continue;
      }
      var path := NormalPath(artifacts[i].path);
      observed := observed + {path};
      var recomputed := digest(artifacts[i].content);
      if path !in byPath || byPath[path] != recomputed {
        failures := failures + 1;
        continue;
      }
      consumed := consumed + [ArtifactRow(path, recomputed)];
    }
    assert artifacts[..|artifacts|] == artifacts;
  }

  method CountMissing(byPath: map<Text16, string>, observed: set<Text16>) returns (missing: nat)
    ensures missing == 0 <==> forall path | path in byPath :: path in observed
  {
    missing := 0;
    var todo := byPath.Keys;
    while todo != {}
      invariant todo <= byPath.Keys
      invariant missing == 0 <==> forall path | path in byPath.Keys - todo :: path in observed
    {
      var path :| path in todo;
      if path !in observed {
        missing := missing + 1;
      }
      todo := todo - {path};
    }
  }

  method VerifyEvidence(digest: string -> string, schemas: Schemas, valid: Bundle -> bool, claimed: Option<Bundle>, independent: Independent)
    returns (result: Verification)
    ensures result.Verified? <==> IsVerified(digest, schemas, valid, claimed, independent)
    ensures result.Verified? ==> result.consumed == RowsOf(digest, independent.artifacts.artifacts)
    ensures independent.artifacts.Unreadable? ==> result == VerificationFault
  {
    hide RowOf, Consistent, IdentitiesAgree;
    if independent.artifacts.Unreadable? {
      return VerificationFault;
    }
    if claimed.None? || !valid(claimed.value) {
      return NotVerified;
    }
    var b := claimed.value;
    var consistent, byPath := IndexArtifacts(b.artifacts);
    if !consistent {
      return NotVerified;
    }
    var identities := CompareIdentities(digest, schemas, b, independent);
    if !identities.Verified? {
      return identities;
    }
    var artifacts := independent.artifacts.artifacts;
    var failures, consumed, observed := CompareObserved(digest, byPath, artifacts);
    var missing := CountMissing(byPath, observed);
    AccountingByIndex(digest, b.artifacts, byPath, artifacts);
    hide Matches, IsObserved, AccountsFor;
    result := if failures + missing == 0 then Verified(consumed) else NotVerified;
  }

  lemma AccountingByIndex(digest: string -> string, rows: seq<ArtifactRow>, byPath: map<Text16, string>, artifacts: seq<Artifact>)
    requires forall path :: path in byPath <==> exists i :: 0 <= i < |rows| && rows[i].path == path
    requires forall i | 0 <= i < |rows| :: rows[i].path in byPath && byPath[rows[i].path] == rows[i].digest
    ensures AccountsFor(digest, rows, artifacts) <==>
      && (forall i | 0 <= i < |artifacts| :: Matches(digest, byPath, artifacts[i]))
      && (forall path | path in byPath :: IsObserved(artifacts, path))
  {
    hide Normalizes, NormalPath, IsObserved;
    forall i | 0 <= i < |artifacts|
      ensures Matches(digest, byPath, artifacts[i]) <==> Normalizes(artifacts[i].path) && RowOf(digest, artifacts[i]) in rows
    {
      MatchIsMembership(digest, rows, byPath, artifacts[i]);
    }
    assert (forall path | path in byPath :: IsObserved(artifacts, path))
      <==> forall j | 0 <= j < |rows| :: IsObserved(artifacts, rows[j].path);
    hide Matches, RowOf;
  }

  lemma MatchIsMembership(digest: string -> string, rows: seq<ArtifactRow>, byPath: map<Text16, string>, a: Artifact)
    requires forall path :: path in byPath <==> exists i :: 0 <= i < |rows| && rows[i].path == path
    requires forall i | 0 <= i < |rows| :: rows[i].path in byPath && byPath[rows[i].path] == rows[i].digest
    ensures Matches(digest, byPath, a) <==> Normalizes(a.path) && RowOf(digest, a) in rows
  {
    hide Normalizes, NormalPath;
    var row := RowOf(digest, a);
    if row in rows {
      var k :| 0 <= k < |rows| && rows[k] == row;
      assert rows[k].path == row.path;
    }
    if row.path in byPath && byPath[row.path] == row.digest {
      var k :| 0 <= k < |rows| && rows[k].path == row.path;
      assert rows[k] == row;
    }
  }

  /** Captures the three documents again and compares every identity field; an acquisition fault wins. */
  method CompareIdentities(digest: string -> string, schemas: Schemas, b: Bundle, independent: Independent) returns (result: Verification)
    ensures result.Verified? <==> IdentitiesAgree(digest, schemas, b, independent)
    ensures result == VerificationFault <==>
      independent.profile.NotAcquired? || independent.pathPolicy.NotAcquired? || independent.gateRegistry.NotAcquired?
  {
    var profile := CaptureAuthority(digest, schemas.profile, independent.profile);
    var policy := CaptureAuthority(digest, schemas.pathPolicy, independent.pathPolicy);
    var gates := CaptureAuthority(digest, schemas.gateRegistry, independent.gateRegistry);
    if profile.CaptureFault? || policy.CaptureFault? || gates.CaptureFault? {
      return VerificationFault;
    }
    var failures := 0;
    if !profile.Captured? || b.profile != ProfileIdentity(profile.value.name, profile.value.version, profile.digest) {
      failures := failures + 1;
    }
    if !policy.Captured? || b.pathPolicy != policy.contract {
      failures := failures + 1;
    }
    if !gates.Captured? || b.gateRegistry != gates.contract {
      failures := failures + 1;
    }
    result := if failures == 0 then Verified([]) else NotVerified;
  }

  // ------------------------------------------------------------------- agreement

  /** The snapshots were captured from these bytes. */
  ghost predicate CapturedFrom(digest: string -> string, schemas: Schemas, s: Snapshots, independent: Independent) {
    && s.profile == Some(CaptureAuthority(digest, schemas.profile, independent.profile))
    && s.pathPolicy == Some(CaptureAuthority(digest, schemas.pathPolicy, independent.pathPolicy))
    && s.gateRegistry == Some(CaptureAuthority(digest, schemas.gateRegistry, independent.gateRegistry))
  }

  /** Observations at one normalized path have one digest. */
  ghost predicate OneDigestPerPath(digest: string -> string, artifacts: seq<Artifact>) {
    forall i, j | 0 <= i < |artifacts| && 0 <= j < |artifacts| && NormalPath(artifacts[i].path) == NormalPath(artifacts[j].path) ::
      digest(artifacts[i].content) == digest(artifacts[j].content)
  }

  lemma {:induction false} InsertMembers(x: ArtifactRow, items: seq<ArtifactRow>)
    ensures forall row :: row in Insert(x, items, RowKey) <==> row == x || row in items
  {
    var r := Insert(x, items, RowKey);
    if items != [] && !Below(RowKey(x), RowKey(items[0])) {
      InsertMembers(x, items[1..]);
      var rest := Insert(x, items[1..], RowKey);
      assert r == [items[0]] + rest;
      assert forall row :: row in items <==> row == items[0] || row in items[1..];
    } else {
      assert r == [x] + items;
    }
  }

  /** Sorting rows, repeated paths or not, keeps exactly the rows. */
  lemma {:induction false} SortMembers(items: seq<ArtifactRow>)
    ensures forall row :: row in SortBy(items, RowKey) <==> row in items
  {
    if items != [] {
      var n := |items| - 1;
      SortMembers(items[..n]);
      InsertMembers(items[n], SortBy(items[..n], RowKey));
      assert forall row :: row in items <==> row == items[n] || row in items[..n];
    }
  }

  lemma RowMembers(digest: string -> string, artifacts: seq<Artifact>, row: ArtifactRow)
    ensures row in RowsOf(digest, artifacts) <==> exists i :: 0 <= i < |artifacts| && RowOf(digest, artifacts[i]) == row
  {
    hide RowOf;
    var rows := RowsOf(digest, artifacts);
    if row in rows {
      var i :| 0 <= i < |rows| && rows[i] == row;
      assert RowOf(digest, artifacts[i]) == row;
    }
    if i :| 0 <= i < |artifacts| && RowOf(digest, artifacts[i]) == row {
      assert rows[i] == row;
    }
  }

  lemma SortedRows(digest: string -> string, artifacts: seq<Artifact>, rows: seq<ArtifactRow>, k: nat) returns (i: nat)
    requires rows == SortBy(RowsOf(digest, artifacts), RowKey) && k < |rows|
    ensures i < |artifacts| && RowOf(digest, artifacts[i]) == rows[k]
  {
    hide RowOf, SortBy;
    SortMembers(RowsOf(digest, artifacts));
    assert rows[k] in rows;
    RowMembers(digest, artifacts, rows[k]);
    i :| 0 <= i < |artifacts| && RowOf(digest, artifacts[i]) == rows[k];
  }

  /** The producer's rows contradict each other exactly when the observations do. */
  lemma ProducedRows(digest: string -> string, artifacts: seq<Artifact>)
    requires ArtifactsNormalize(artifacts)
    ensures var rows := SortBy(RowsOf(digest, artifacts), RowKey);
      && AccountsFor(digest, rows, artifacts)
      && (Consistent(rows) <==> OneDigestPerPath(digest, artifacts))
  {
    hide Normalizes, NormalPath, SortBy;
    var rows := SortBy(RowsOf(digest, artifacts), RowKey);
    SortMembers(RowsOf(digest, artifacts));
    forall i | 0 <= i < |artifacts|
      ensures RowOf(digest, artifacts[i]) in rows
    {
      RowMembers(digest, artifacts, RowOf(digest, artifacts[i]));
    }
    forall j | 0 <= j < |rows|
      ensures IsObserved(artifacts, rows[j].path)
    {
      var i := SortedRows(digest, artifacts, rows, j);
      assert NormalPath(artifacts[i].path) == rows[j].path;
    }
    hide RowOf, Consistent, OneDigestPerPath, IsObserved, RowsOf;
    ConsistencyCarries(digest, artifacts, rows);
  }

  lemma ConsistencyCarries(digest: string -> string, artifacts: seq<Artifact>, rows: seq<ArtifactRow>)
    requires rows == SortBy(RowsOf(digest, artifacts), RowKey) && forall i | 0 <= i < |artifacts| :: RowOf(digest, artifacts[i]) in rows
    ensures Consistent(rows) <==> OneDigestPerPath(digest, artifacts)
  {
    hide NormalPath, SortBy;
    if OneDigestPerPath(digest, artifacts) {
      forall a, b | 0 <= a < |rows| && 0 <= b < |rows| && rows[a].path == rows[b].path
        ensures rows[a].digest == rows[b].digest
      {
        var i := SortedRows(digest, artifacts, rows, a);
        var j := SortedRows(digest, artifacts, rows, b);
      }
    }
    if Consistent(rows) {
      forall i, j | 0 <= i < |artifacts| && 0 <= j < |artifacts| && NormalPath(artifacts[i].path) == NormalPath(artifacts[j].path)
        ensures digest(artifacts[i].content) == digest(artifacts[j].content)
      {
        var a :| 0 <= a < |rows| && rows[a] == RowOf(digest, artifacts[i]);
        var b :| 0 <= b < |rows| && rows[b] == RowOf(digest, artifacts[j]);
      }
    }
  }

  /**
   * Producer and verifier agree: a bundle the producer constructs from some bytes and artifacts
   * verifies against those same bytes and artifacts exactly when no two observations at one
   * normalized path have different digests.
   */
  lemma ProducerVerifierAgree(digest: string -> string, schemas: Schemas, valid: Bundle -> bool, inputs: Inputs, independent: Independent)
    requires Construct(digest, valid, inputs).Constructed?
    requires CapturedFrom(digest, schemas, inputs.snapshots, independent) && independent.artifacts == inputs.artifacts
    ensures IsVerified(digest, schemas, valid, Some(Construct(digest, valid, inputs).bundle), independent) <==>
              OneDigestPerPath(digest, inputs.artifacts.artifacts)
  {
    ProducedRows(digest, inputs.artifacts.artifacts);
    hide Decide, SortBy, Consistent, OneDigestPerPath, AccountsFor, ArtifactsNormalize, CaptureAuthority;
  }

  /**
   * Conversely, whatever verifies records exactly the observed path set, the recomputed digests
   * and every identity field of the independent captures.
   */
  lemma VerifiedMeans(digest: string -> string, schemas: Schemas, valid: Bundle -> bool, b: Bundle, independent: Independent)
    requires IsVerified(digest, schemas, valid, Some(b), independent)
    ensures forall row :: row in b.artifacts <==> row in RowsOf(digest, independent.artifacts.artifacts)
    ensures OneDigestPerPath(digest, independent.artifacts.artifacts)
    ensures IdentitiesAgree(digest, schemas, b, independent)
  {
    hide Normalizes, NormalPath, IdentitiesAgree;
    var artifacts := independent.artifacts.artifacts;
    forall row
      ensures row in b.artifacts <==> row in RowsOf(digest, artifacts)
    {
      RowMembers(digest, artifacts, row);
      if row in b.artifacts {
        var j :| 0 <= j < |b.artifacts| && b.artifacts[j] == row;
        var i :| 0 <= i < |artifacts| && NormalPath(artifacts[i].path) == b.artifacts[j].path;
        assert RowOf(digest, artifacts[i]) in b.artifacts;
        var k :| 0 <= k < |b.artifacts| && b.artifacts[k] == RowOf(digest, artifacts[i]);
      }
    }
    forall i, j | 0 <= i < |artifacts| && 0 <= j < |artifacts| && NormalPath(artifacts[i].path) == NormalPath(artifacts[j].path)
      ensures digest(artifacts[i].content) == digest(artifacts[j].content)
    {
      var a :| 0 <= a < |b.artifacts| && b.artifacts[a] == RowOf(digest, artifacts[i]);
      var c :| 0 <= c < |b.artifacts| && b.artifacts[c] == RowOf(digest, artifacts[j]);
    }
  }

  /** Inside the write roots, and inside neither a protected prefix nor any of the three authority sources. */
  ghost predicate IsGovernedWrite(policy: Policy, sources: seq<Text16>, path: Text16) {
    && SegmentCovered(NormalPaths(policy.roots), path)
    && (forall k | 0 <= k < |policy.rules| :: !(Segments(policy.rules[k].prefix) <= Segments(path)))
    && (forall k | 0 <= k < |sources| :: !(Segments(NormalPath(sources[k])) <= Segments(path)))
  }

  lemma AllowedIsGoverned(policy: Policy, sources: seq<Text16>, path: Text16)
    requires Allowed(policy, sources, path)
    ensures IsGovernedWrite(policy, sources, path)
  {
    hide Segments, NormalPath;
    var protections := Protected(policy, sources);
    forall k | 0 <= k < |policy.rules|
      ensures !(Segments(policy.rules[k].prefix) <= Segments(path))
    {
      assert protections[k] == policy.rules[k].prefix;
    }
    forall k | 0 <= k < |sources|
      ensures !(Segments(NormalPath(sources[k])) <= Segments(path))
    {
      assert protections[|policy.rules| + k] == NormalPath(sources[k]);
    }
  }

  /** The policy and the three authority sources a construction decided with. */
  predicate DecidedWith(inputs: Inputs, policy: Policy, sources: seq<Text16>) {
    var s := inputs.snapshots;
    && s.profile.Some? && s.profile.value.Captured? && s.pathPolicy.Some? && s.pathPolicy.value.Captured?
    && s.gateRegistry.Some? && s.gateRegistry.value.Captured?
    && policy == s.pathPolicy.value.value
    && sources == [s.profile.value.source, s.pathPolicy.value.source, s.gateRegistry.value.source]
  }

  lemma SuccessWasDecided(digest: string -> string, valid: Bundle -> bool, inputs: Inputs) returns (policy: Policy, sources: seq<Text16>)
    requires Construct(digest, valid, inputs).Constructed? && Construct(digest, valid, inputs).bundle.success
    ensures DecidedWith(inputs, policy, sources) && Decide(PolicyCaptured(policy), inputs.changes, sources).Proceed?
  {
    hide Decide, SortBy, ArtifactsNormalize;
    var s := inputs.snapshots;
    policy, sources := s.pathPolicy.value.value, [s.profile.value.source, s.pathPolicy.value.source, s.gateRegistry.value.source];
  }

  /**
   * A success-classified bundle is a materializable one: every change it reports, and where the
   * last link recorded at that path leads, is a write inside the roots and touches neither a
   * protected prefix nor any of the three documents the decision was captured from; and
   * the whole set keeps the declared bounds.
   */
  lemma SuccessIsMaterializable(digest: string -> string, valid: Bundle -> bool, inputs: Inputs) returns (policy: Policy, sources: seq<Text16>)
    requires Construct(digest, valid, inputs).Constructed? && Construct(digest, valid, inputs).bundle.success
    ensures DecidedWith(inputs, policy, sources) && |sources| == 3
    ensures var normal := NormalChanges(inputs.changes);
      && WithinBounds(policy, normal)
      && (forall i | 0 <= i < |normal| :: IsGovernedWrite(policy, sources, normal[i].path))
      && (forall i | 0 <= i < |normal| :: IsGovernedWrite(policy, sources, TargetOf(normal[LastAt(normal, i)])))
  {
    hide Decide, Construct, WithinBounds, Allowed, IsGovernedWrite, IsDecidable, TargetOf;
    policy, sources := SuccessWasDecided(digest, valid, inputs);
    ProceedsExactly(policy, inputs.changes, sources);
    var normal := NormalChanges(inputs.changes);
    forall i | 0 <= i < |normal|
      ensures IsGovernedWrite(policy, sources, normal[i].path)
      ensures IsGovernedWrite(policy, sources, TargetOf(normal[LastAt(normal, i)]))
    {
      assert IsAdmitted(policy, sources, normal, i);
      AllowedIsGoverned(policy, sources, normal[i].path);
      AllowedIsGoverned(policy, sources, TargetOf(normal[LastAt(normal, i)]));
    }
  }
}
