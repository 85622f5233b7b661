/**
 * Task deltas: what a delta may add to or narrow from a release, and the identity of what results.
 * `sha` is the hex SHA-256 of its argument.
 */
module TaskDeltas {
  import opened Options
  import opened Utf8
  import opened Ordering
  import opened Rows
  import opened Manifest
  import opened ManifestProofs
  import opened ManifestTheorems
  import opened ManifestIo

  const TASK_DELTA_FORMAT: string := "okf-set-task-delta-v1"
  const RESOLVED_FORMAT: string := "okf-resolved-knowledge-v1"
  const SHA_PREFIX: string := "sha256:"

  datatype TaskDelta = TaskDelta(add: seq<string>, narrow: seq<string>)

  /** A catalog row; an absent version or digest is None. */
  datatype Candidate = Candidate(
    id: string, version: Option<string>, sourceDigest: Option<string>, status: string, blockedByToolchain: bool, blockedByRollout: bool)

  datatype Selection = Selection(
    family: string, version: string, releaseDigest: string, taskDeltaDigest: string, modules: seq<Member>)

  predicate IsPrefixedSha256(s: string) {
    SHA_PREFIX <= s && IsBareSha256(s[|SHA_PREFIX|..])
  }

  // ------------------------------------------------------------- canonical forms

  ghost predicate IdsOk(ids: seq<string>) {
    (forall i | 0 <= i < |ids| :: IsModuleId(ids[i])) && (forall i, j | 0 <= i < j < |ids| :: ids[i] != ids[j])
  }

  ghost predicate Disjoint(a: seq<string>, b: seq<string>) {
    forall i, j | 0 <= i < |a| && 0 <= j < |b| :: a[i] != b[j]
  }

  ghost predicate DeltaOk(d: TaskDelta) {
    IdsOk(d.add) && IdsOk(d.narrow) && Disjoint(d.add, d.narrow)
  }

  function NamedRows(name: string, values: seq<string>): seq<string> {
    seq(|values|, i requires 0 <= i < |values| => ScalarRow(name, values[i]))
  }

  function DeltaRows(d: TaskDelta): seq<string> {
    [TASK_DELTA_FORMAT] + NamedRows("add", SortBy(d.add, TextKey)) + NamedRows("narrow", SortBy(d.narrow, TextKey))
  }

  ghost function CanonicalDelta(d: TaskDelta): Option<Bytes> {
    if DeltaOk(d) then Some(Encode(Text(DeltaRows(d)))) else None
  }

  predicate SelectedOk(nfc: string -> bool, m: Member) {
    IsModuleId(m.id) && TokenOk(nfc, m.version) && IsBareSha256(m.digest)
  }

  ghost predicate SelectionOk(nfc: string -> bool, s: Selection) {
    && TokenOk(nfc, s.family) && IsFamilyId(s.family) && IsVersion(s.version)
    && IsPrefixedSha256(s.releaseDigest) && IsPrefixedSha256(s.taskDeltaDigest)
    && (forall i | 0 <= i < |s.modules| :: SelectedOk(nfc, s.modules[i])) && DistinctIds(s.modules)
  }

  function SelectionRows(s: Selection): seq<string>
    requires |s.releaseDigest| >= 7 && |s.taskDeltaDigest| >= 7
  {
    [RESOLVED_FORMAT, ScalarRow("family", s.family), ScalarRow("version", s.version),
     ScalarRow("releaseDigest", s.releaseDigest[7..]), ScalarRow("taskDeltaDigest", s.taskDeltaDigest[7..])]
    + MemberRows("module", SortBy(s.modules, MemberKey))
  }

  ghost function CanonicalSelection(nfc: string -> bool, s: Selection): Option<Bytes> {
    if SelectionOk(nfc, s) then Some(Encode(Text(SelectionRows(s)))) else None
  }

  // ----------------------------------------------------------------- application

  predicate Matches(pattern: string, id: string) {
    if |pattern| >= 2 && pattern[|pattern| - 2..] == "/*" then pattern[..|pattern| - 1] <= id else pattern == id
  }

  predicate IsDenied(deny: seq<string>, id: string) {
    exists i | 0 <= i < |deny| :: Matches(deny[i], id)
  }

  /** The last catalog row with this id. */
  function Lookup(catalogue: seq<Candidate>, id: string): Option<Candidate> {
    if catalogue == [] then None
    else if catalogue[|catalogue| - 1].id == id then Some(catalogue[|catalogue| - 1])
    else Lookup(catalogue[..|catalogue| - 1], id)
  }

  predicate IsEligible(c: Candidate) {
    && c.version.Some? && c.sourceDigest.Some? && IsPrefixedSha256(c.sourceDigest.value)
    && !c.blockedByToolchain && !c.blockedByRollout
    && (c.status == "Validated" || c.status == "Packaged" || c.status == "Published")
  }

  predicate IsAddable(nfc: string -> bool, r: Release, catalogue: seq<Candidate>, id: string) {
    && id !in Ids(r.required + r.optional) && !IsDenied(r.deny, id)
    && var found := Lookup(catalogue, id);
    && found.Some? && IsEligible(found.value) && TokenOk(nfc, found.value.version.value)
  }

  /** The exact pin an addable id resolves to. */
  function Pin(catalogue: seq<Candidate>, id: string): Member {
    var found := Lookup(catalogue, id);
    if found.Some? && IsEligible(found.value)
    then Member(id, found.value.version.value, found.value.sourceDigest.value[|SHA_PREFIX|..])
    else Member(id, "", "")
  }

  function Pins(catalogue: seq<Candidate>, ids: seq<string>): seq<Member> {
    seq(|ids|, i requires 0 <= i < |ids| => Pin(catalogue, ids[i]))
  }

  function Kept(pinned: seq<Member>, narrow: seq<string>): seq<Member> {
    if pinned == [] then []
    else (if pinned[0].id in narrow then [] else [pinned[0]]) + Kept(pinned[1..], narrow)
  }

  ghost predicate NarrowsOk(r: Release, narrow: seq<string>) {
    && (forall i | 0 <= i < |narrow| :: narrow[i] !in Ids(r.required) && narrow[i] in Ids(r.optional))
    && (forall i, j | 0 <= i < j < |narrow| :: narrow[i] != narrow[j])
  }

  ghost predicate AddsOk(nfc: string -> bool, r: Release, catalogue: seq<Candidate>, add: seq<string>) {
    forall i | 0 <= i < |add| :: IsAddable(nfc, r, catalogue, add[i])
  }

  /** What a delta needs to be applied. */
  ghost predicate Applicable(nfc: string -> bool, r: Release, d: TaskDelta, catalogue: seq<Candidate>) {
    && (d.add != [] ==> r.allowTaskAdditions) && (d.narrow != [] ==> r.allowTaskNarrowing)
    && NarrowsOk(r, d.narrow) && AddsOk(nfc, r, catalogue, d.add)
    && DeltaOk(d) && Acceptable(nfc, r)
  }

  ghost function Applied(nfc: string -> bool, sha: Bytes -> string, r: Release, d: TaskDelta, catalogue: seq<Candidate>): Option<Selection> {
    if Applicable(nfc, r, d, catalogue) then
      Some(Selection(r.family, r.version, SHA_PREFIX + sha(Canonical(nfc, r).value), SHA_PREFIX + sha(CanonicalDelta(d).value),
                     Kept(r.required + r.optional, d.narrow) + Pins(catalogue, d.add)))
    else None
  }

  // ------------------------------------------------------------------ the methods

  method CheckIds(ids: seq<string>) returns (ok: bool)
    ensures ok <==> IdsOk(ids)
  {
    ok := true;
    var seen: set<string> := {};
    for i := 0 to |ids|
      invariant seen == set k | 0 <= k < i :: ids[k]
      invariant ok <==> IdsOk(ids[..i])
    {
      ghost var before := ids[..i];
      assert ids[..i + 1] == before + [ids[i]];
      assert (ids[i] in seen) <==> exists k :: 0 <= k < i && before[k] == ids[i];
      if !IsModuleId(ids[i]) || ids[i] in seen {
        ok := false;
      }
      seen := seen + {ids[i]};
      hide IsModuleId;
    }
    assert ids[..|ids|] == ids;
  }

  method CanonicalTaskDelta(d: TaskDelta) returns (result: Option<Bytes>)
    ensures result == CanonicalDelta(d)
  {
    hide IdsOk;
    var addOk := CheckIds(d.add);
    var narrowOk := CheckIds(d.narrow);
    var disjoint := true;
    var adds := set i | 0 <= i < |d.add| :: d.add[i];
    for j := 0 to |d.narrow|
      invariant disjoint <==> forall k | 0 <= k < j :: d.narrow[k] !in adds
    {
      if d.narrow[j] in adds {
        disjoint := false;
      }
    }
    assert disjoint <==> Disjoint(d.add, d.narrow);
    if !addOk || !narrowOk || !disjoint {
      return None;
    }
    var out := WriteRows(DeltaRows(d));
    result := Some(out);
  }

  /** `Map.set`: in place when the key is there, at the end when it is not. */
  function MapSet(entries: seq<Member>, m: Member): seq<Member> {
    if entries == [] then [m]
    else if entries[0].id == m.id then [m] + entries[1..]
    else [entries[0]] + MapSet(entries[1..], m)
  }

  lemma {:induction false} MapSetFresh(entries: seq<Member>, m: Member)
    requires m.id !in Ids(entries)
    ensures MapSet(entries, m) == entries + [m]
  {
    if entries != [] {
      assert Ids(entries)[0] == entries[0].id;
      assert Ids(entries[1..]) == Ids(entries)[1..];
      MapSetFresh(entries[1..], m);
      assert entries == [entries[0]] + entries[1..];
    }
  }

  lemma {:induction false} MapSetIds(entries: seq<Member>, m: Member)
    ensures forall id :: id in Ids(MapSet(entries, m)) <==> id == m.id || id in Ids(entries)
  {
    if entries != [] && entries[0].id != m.id {
      MapSetIds(entries[1..], m);
    }
    var r := MapSet(entries, m);
    IdsOfFirst(r);
    if entries == [] {
      assert Ids(r[1..]) == [] && Ids(entries) == [];
    } else {
      IdsOfFirst(entries);
      assert r[1..] == (if entries[0].id == m.id then entries[1..] else MapSet(entries[1..], m));
    }
  }

  lemma IdsOfFirst(members: seq<Member>)
    requires members != []
    ensures forall id :: id in Ids(members) <==> id == members[0].id || id in Ids(members[1..])
  {
    assert Ids(members) == [members[0].id] + Ids(members[1..]);
  }

  lemma {:induction false} KeptIds(pinned: seq<Member>, narrow: seq<string>)
    ensures forall id :: id in Ids(Kept(pinned, narrow)) <==> id in Ids(pinned) && id !in narrow
  {
    if pinned != [] {
      KeptIds(pinned[1..], narrow);
      IdsOfFirst(pinned);
      var rest := Kept(pinned[1..], narrow);
      if pinned[0].id !in narrow {
        IdsOfFirst([pinned[0]] + rest);
        assert ([pinned[0]] + rest)[1..] == rest;
      } else {
        assert Kept(pinned, narrow) == rest;
      }
    }
  }

  lemma {:induction false} KeptAll(pinned: seq<Member>)
    ensures Kept(pinned, []) == pinned
  {
    if pinned != [] {
      KeptAll(pinned[1..]);
    }
  }

  lemma {:induction false} KeptOneLess(pinned: seq<Member>, narrow: seq<string>, id: string)
    ensures Kept(Kept(pinned, narrow), [id]) == Kept(pinned, narrow + [id])
  {
    if pinned != [] {
      KeptOneLess(pinned[1..], narrow, id);
      var rest := Kept(pinned[1..], narrow);
      if pinned[0].id !in narrow {
        assert ([pinned[0]] + rest)[1..] == rest;
      } else {
        assert Kept(pinned, narrow) == rest;
      }
    }
  }

  /** The release's pins, keyed by id; a repeated id would keep only one. */
  method SelectPinned(pinned: seq<Member>) returns (selected: seq<Member>)
    ensures forall id :: id in Ids(selected) <==> id in Ids(pinned)
    ensures DistinctIds(pinned) ==> selected == pinned
  {
    selected := [];
    for i := 0 to |pinned|
      invariant forall id :: id in Ids(selected) <==> id in Ids(pinned[..i])
      invariant DistinctIds(pinned) ==> selected == pinned[..i]
    {
      MapSetIds(selected, pinned[i]);
      assert Ids(pinned[..i + 1]) == Ids(pinned[..i]) + [pinned[i].id];
      if DistinctIds(pinned) {
        assert pinned[i].id !in Ids(pinned[..i]);
        MapSetFresh(selected, pinned[i]);
        assert pinned[..i + 1] == pinned[..i] + [pinned[i]];
      }
      selected := MapSet(selected, pinned[i]);
    }
    assert pinned[..|pinned|] == pinned;
  }

  method NarrowSelected(r: Release, narrow: seq<string>, pinned: seq<Member>) returns (ok: bool, selected: seq<Member>)
    requires forall id :: id in Ids(pinned) <==> id in Ids(r.required) || id in Ids(r.optional)
    ensures ok <==> NarrowsOk(r, narrow)
    ensures ok ==> selected == Kept(pinned, narrow)
  {
    ok, selected := true, pinned;
    KeptAll(pinned);
    for i := 0 to |narrow|
      invariant ok <==> NarrowsOk(r, narrow[..i])
      invariant ok ==> selected == Kept(pinned, narrow[..i])
    {
      var id := narrow[i];
      ghost var before := narrow[..i];
      assert narrow[..i + 1] == before + [id];
      KeptIds(pinned, before);
      if id in Ids(r.required) {
        ok := false;
        continue;
      }
      if id !in Ids(selected) {
        if ok {
          NarrowUnknown(r, before, id);
        }
        ok := false;
        continue;
      }
      if ok {
        KeptOneLess(pinned, before, id);
        NarrowKnown(r, before, id);
      }
      selected := Kept(selected, [id]);
      if !ok {
        NarrowLonger(r, before, id);
      }
    }
    assert narrow[..|narrow|] == narrow;
  }

  lemma NarrowUnknown(r: Release, before: seq<string>, id: string)
    requires id in before || id !in Ids(r.optional)
    ensures !NarrowsOk(r, before + [id])
  {
    var all := before + [id];
    assert all[|before|] == id;
    if id in before {
      var k :| 0 <= k < |before| && before[k] == id;
      assert all[k] == id;
    }
  }

  lemma NarrowKnown(r: Release, before: seq<string>, id: string)
    requires NarrowsOk(r, before) && id !in Ids(r.required) && id in Ids(r.optional) && id !in before
    ensures NarrowsOk(r, before + [id])
  {
  }

  lemma NarrowLonger(r: Release, before: seq<string>, id: string)
    requires !NarrowsOk(r, before)
    ensures !NarrowsOk(r, before + [id])
  {
    var all := before + [id];
    if NarrowsOk(r, all) {
      forall i | 0 <= i < |before|
        ensures before[i] !in Ids(r.required) && before[i] in Ids(r.optional)
      {
        assert all[i] == before[i];
      }
      forall i, j | 0 <= i < j < |before|
        ensures before[i] != before[j]
      {
        assert all[i] == before[i] && all[j] == before[j];
      }
    }
  }

  method AddSelected(nfc: string -> bool, r: Release, catalogue: seq<Candidate>, add: seq<string>, kept: seq<Member>)
    returns (ok: bool, selected: seq<Member>)
    requires forall id | id in Ids(kept) :: id in Ids(r.required + r.optional)
    ensures ok <==> AddsOk(nfc, r, catalogue, add)
    ensures ok && IdsOk(add) ==> selected == kept + Pins(catalogue, add)
  {
    ok, selected := true, kept;
    for i := 0 to |add|
      invariant ok <==> AddsOk(nfc, r, catalogue, add[..i])
      invariant ok && IdsOk(add) ==> selected == kept + Pins(catalogue, add[..i])
    {
      var id := add[i];
      ghost var before := add[..i];
      assert add[..i + 1] == before + [id];
      assert forall k | 0 <= k < i :: (before + [id])[k] == before[k];
      if !IsAddable(nfc, r, catalogue, id) {
        assert (before + [id])[i] == id;
        ok := false;
        continue;
      }
      if ok && IdsOk(add) {
        PinIsFresh(catalogue, before, id, kept);
        MapSetFresh(selected, Pin(catalogue, id));
        assert Pins(catalogue, before + [id]) == Pins(catalogue, before) + [Pin(catalogue, id)];
      }
      selected := MapSet(selected, Pin(catalogue, id));
      hide IsAddable, IdsOk, Pin;
    }
    assert add[..|add|] == add;
  }

  lemma PinIsFresh(catalogue: seq<Candidate>, before: seq<string>, id: string, kept: seq<Member>)
    requires id !in before && id !in Ids(kept)
    ensures Pin(catalogue, id).id !in Ids(kept + Pins(catalogue, before))
  {
    var all := kept + Pins(catalogue, before);
    forall k | 0 <= k < |all|
      ensures all[k].id != id
    {
      if k < |kept| {
        assert Ids(kept)[k] == all[k].id;
      } else {
        assert all[k].id == before[k - |kept|];
      }
    }
  }

  /** Narrow, add and serialize; any refusal along the way is the outcome. */
  method ApplyTaskDelta(nfc: string -> bool, sha: Bytes -> string, r: Release, d: TaskDelta, catalogue: seq<Candidate>)
    returns (result: Option<Selection>)
    ensures result == Applied(nfc, sha, r, d, catalogue)
  {
    hide NarrowsOk, AddsOk, Acceptable, DeltaOk;
    var pinned := r.required + r.optional;
    PinnedIds(r);
    var selected := SelectPinned(pinned);
    var narrowed, kept := NarrowSelected(r, d.narrow, selected);
    if !narrowed {
      return None;
    }
    KeptIds(selected, d.narrow);
    var addable, all := AddSelected(nfc, r, catalogue, d.add, kept);
    if !addable || (d.add != [] && !r.allowTaskAdditions) || (d.narrow != [] && !r.allowTaskNarrowing) {
      return None;
    }
    var delta := CanonicalTaskDelta(d);
    if delta.None? {
      return None;
    }
    var manifest := CanonicalSetReleaseManifest(nfc, r);
    if manifest.Refused? {
      return None;
    }
    assert DistinctIds(pinned) by {
      PinnedAreDistinct(nfc, r);
    }
    assert IdsOk(d.add) by {
      AddsAreIds(d);
    }
    result := Some(Selection(r.family, r.version, SHA_PREFIX + sha(manifest.value), SHA_PREFIX + sha(delta.value), all));
  }

  lemma AddsAreIds(d: TaskDelta)
    requires DeltaOk(d)
    ensures IdsOk(d.add)
  {
  }

  lemma PinnedIds(r: Release)
    ensures Ids(r.required + r.optional) == Ids(r.required) + Ids(r.optional)
  {
  }

  lemma PinnedAreDistinct(nfc: string -> bool, r: Release)
    requires Acceptable(nfc, r)
    ensures DistinctIds(r.required + r.optional)
  {
    hide MemberOk, ScalarsOk, DeniesOk, IntOk;
    var pinned := r.required + r.optional;
    forall i, j | 0 <= i < j < |pinned|
      ensures pinned[i].id != pinned[j].id
    {
      if i < |r.required| <= j {
        assert pinned[j] == r.optional[j - |r.required|];
      }
    }
  }

  // -------------------------------------------------------------- conservation

  lemma {:induction false} KeptMembers(pinned: seq<Member>, narrow: seq<string>, m: Member)
    ensures m in Kept(pinned, narrow) <==> m in pinned && m.id !in narrow
  {
    if pinned != [] {
      KeptMembers(pinned[1..], narrow, m);
      assert m in pinned <==> m == pinned[0] || m in pinned[1..];
    }
  }

  lemma MemberIds(members: seq<Member>, id: string)
    ensures id in Ids(members) <==> exists m :: m in members && m.id == id
  {
    if id in Ids(members) {
      var k :| 0 <= k < |members| && Ids(members)[k] == id;
      assert members[k] in members;
    }
    if m :| m in members && m.id == id {
      var k :| 0 <= k < |members| && members[k] == m;
      assert Ids(members)[k] == id;
    }
  }

  lemma PinHasId(catalogue: seq<Candidate>, add: seq<string>, m: Member)
    requires m in Pins(catalogue, add)
    ensures m.id in add && m == Pin(catalogue, m.id)
  {
    var k :| 0 <= k < |add| && Pins(catalogue, add)[k] == m;
    assert m == Pin(catalogue, add[k]);
  }

  /** Where a selected module comes from. */
  lemma SelectedFrom(pinned: seq<Member>, narrow: seq<string>, catalogue: seq<Candidate>, add: seq<string>, m: Member)
    ensures var modules := Kept(pinned, narrow) + Pins(catalogue, add);
      m in modules <==> (m in pinned && m.id !in narrow) || m in Pins(catalogue, add)
  {
    KeptMembers(pinned, narrow, m);
  }

  /**
   * Conservation: every required pin survives unchanged; a selected module the release pins is
   * exactly that pin; every other selected module was added, is not denied and is an eligible
   * catalog revision; and the only pins missing are optional ones the delta narrows.
   */
  lemma DeltaConserves(nfc: string -> bool, sha: Bytes -> string, r: Release, d: TaskDelta, catalogue: seq<Candidate>, m: Member)
    requires Applied(nfc, sha, r, d, catalogue).Some?
    ensures var modules := Applied(nfc, sha, r, d, catalogue).value.modules;
      && (m in r.required ==> m in modules)
      && (m in modules && m.id in Ids(r.required + r.optional) ==> m in r.required + r.optional)
      && (m in modules && m.id !in Ids(r.required + r.optional) ==>
            && m.id in d.add && !IsDenied(r.deny, m.id) && Lookup(catalogue, m.id).Some?
            && IsEligible(Lookup(catalogue, m.id).value) && m == Pin(catalogue, m.id))
      && (m in r.required + r.optional && m !in modules ==> m in r.optional && m.id in d.narrow)
  {
    hide Acceptable, DeltaOk, AddsOk, IsDenied, IsEligible, Pin, Pins, Kept, Lookup, Ids;
    SelectedFrom(r.required + r.optional, d.narrow, catalogue, d.add, m);
    MemberIds(r.required + r.optional, m.id);
    MemberIds(r.required, m.id);
    if m in Pins(catalogue, d.add) {
      PinHasId(catalogue, d.add, m);
      AddedFacts(nfc, r, catalogue, d.add, m.id);
    }
  }

  /** Every added id is selected. */
  lemma AddedIsSelected(nfc: string -> bool, sha: Bytes -> string, r: Release, d: TaskDelta, catalogue: seq<Candidate>, k: nat)
    requires Applied(nfc, sha, r, d, catalogue).Some? && k < |d.add|
    ensures Pin(catalogue, d.add[k]) in Applied(nfc, sha, r, d, catalogue).value.modules && Pin(catalogue, d.add[k]).id == d.add[k]
  {
    hide Acceptable, DeltaOk, AddsOk, NarrowsOk;
    var kept := Kept(r.required + r.optional, d.narrow);
    assert (kept + Pins(catalogue, d.add))[|kept| + k] == Pin(catalogue, d.add[k]);
  }

  lemma AddedFacts(nfc: string -> bool, r: Release, catalogue: seq<Candidate>, add: seq<string>, id: string)
    requires AddsOk(nfc, r, catalogue, add) && id in add
    ensures id !in Ids(r.required + r.optional) && !IsDenied(r.deny, id)
    ensures Lookup(catalogue, id).Some? && IsEligible(Lookup(catalogue, id).value)
    ensures TokenOk(nfc, Pin(catalogue, id).version) && IsBareSha256(Pin(catalogue, id).digest) && Pin(catalogue, id).id == id
  {
    hide TokenOk, IsDenied;
    var k :| 0 <= k < |add| && add[k] == id;
    assert IsAddable(nfc, r, catalogue, add[k]);
  }

  // ------------------------------------------------------- always serializable

  lemma {:induction false} KeptDistinct(pinned: seq<Member>, narrow: seq<string>)
    requires DistinctIds(pinned)
    ensures DistinctIds(Kept(pinned, narrow))
  {
    if pinned != [] {
      KeptDistinct(pinned[1..], narrow);
      var rest := Kept(pinned[1..], narrow);
      if pinned[0].id !in narrow {
        forall j | 0 <= j < |rest|
          ensures rest[j].id != pinned[0].id
        {
          KeptMembers(pinned[1..], narrow, rest[j]);
          var k :| 0 <= k < |pinned[1..]| && pinned[1..][k] == rest[j];
          assert pinned[k + 1] == rest[j];
        }
      }
    }
  }

  lemma AddedApart(nfc: string -> bool, r: Release, d: TaskDelta, catalogue: seq<Candidate>, m: Member, k: nat)
    requires AddsOk(nfc, r, catalogue, d.add) && k < |d.add| && m in Kept(r.required + r.optional, d.narrow)
    ensures m.id != d.add[k]
  {
    hide IsAddable, Pin;
    AddedFacts(nfc, r, catalogue, d.add, d.add[k]);
    KeptMembers(r.required + r.optional, d.narrow, m);
    MemberIds(r.required + r.optional, m.id);
  }

  lemma AppliedDistinct(nfc: string -> bool, r: Release, d: TaskDelta, catalogue: seq<Candidate>)
    requires DistinctIds(r.required + r.optional) && AddsOk(nfc, r, catalogue, d.add) && IdsOk(d.add)
    ensures DistinctIds(Kept(r.required + r.optional, d.narrow) + Pins(catalogue, d.add))
  {
    hide IsAddable, IsModuleId, AddsOk, Kept, Ids;
    var kept, pins := Kept(r.required + r.optional, d.narrow), Pins(catalogue, d.add);
    KeptDistinct(r.required + r.optional, d.narrow);
    var all := kept + pins;
    forall i, j | 0 <= i < j < |all|
      ensures all[i].id != all[j].id
    {
      if j >= |kept| {
        assert all[j] == Pin(catalogue, d.add[j - |kept|]);
        if i < |kept| {
          assert all[i] == kept[i];
          AddedApart(nfc, r, d, catalogue, all[i], j - |kept|);
        } else {
          assert all[i] == Pin(catalogue, d.add[i - |kept|]);
        }
      }
    }
  }

  lemma PinnedIsSelectable(nfc: string -> bool, r: Release, m: Member)
    requires Acceptable(nfc, r) && m in r.required + r.optional
    ensures SelectedOk(nfc, m)
  {
    hide ScalarsOk, DeniesOk, IntOk, NoOverlap, DistinctIds, TokenOk, IsModuleId, IsBareSha256, MemberOk, SelectedOk;
    if m in r.required {
      var k :| 0 <= k < |r.required| && r.required[k] == m;
      assert MemberOk(nfc, r.required[k]);
    } else {
      var k :| 0 <= k < |r.optional| && r.optional[k] == m;
      assert MemberOk(nfc, r.optional[k]);
    }
    MemberIsSelectable(nfc, m);
  }

  lemma MemberIsSelectable(nfc: string -> bool, m: Member)
    requires MemberOk(nfc, m)
    ensures SelectedOk(nfc, m)
  {
    hide TokenOk, IsModuleId, IsBareSha256;
  }

  /** The resolved selection of an applied delta always has a canonical form. */
  lemma AppliedIsSerializable(nfc: string -> bool, sha: Bytes -> string, r: Release, d: TaskDelta, catalogue: seq<Candidate>)
    requires forall b :: IsBareSha256(sha(b))
    requires Applied(nfc, sha, r, d, catalogue).Some?
    ensures SelectionOk(nfc, Applied(nfc, sha, r, d, catalogue).value)
  {
    var s := Applied(nfc, sha, r, d, catalogue).value;
    var pinned := r.required + r.optional;
    PinnedAreDistinct(nfc, r);
    AppliedDistinct(nfc, r, d, catalogue);
    forall i | 0 <= i < |s.modules|
      ensures SelectedOk(nfc, s.modules[i])
    {
      var m := s.modules[i];
      if i < |Kept(pinned, d.narrow)| {
        KeptMembers(pinned, d.narrow, m);
        PinnedIsSelectable(nfc, r, m);
      } else {
        var k := i - |Kept(pinned, d.narrow)|;
        assert m == Pin(catalogue, d.add[k]);
        AddedFacts(nfc, r, catalogue, d.add, d.add[k]);
        assert IsModuleId(d.add[k]);
      }
    }
    PrefixedSha(sha(Canonical(nfc, r).value));
    PrefixedSha(sha(CanonicalDelta(d).value));
    hide IsVersion, IsFamilyId, TokenOk, SelectedOk, IsPrefixedSha256, NarrowsOk, AddsOk, DeltaOk, DeniesOk, MembersOk;
  }

  lemma PrefixedSha(hex: string)
    requires IsBareSha256(hex)
    ensures IsPrefixedSha256(SHA_PREFIX + hex)
  {
    assert (SHA_PREFIX + hex)[|SHA_PREFIX|..] == hex;
  }

  // --------------------------------------------------------- order independence

  lemma IdsKeysDistinct(ids: seq<string>)
    requires IdsOk(ids)
    ensures DistinctKeys(ids, TextKey)
  {
    hide IsModuleId;
    forall i, j | 0 <= i < j < |ids|
      ensures Encode(ids[i]) != Encode(ids[j])
    {
      if Encode(ids[i]) == Encode(ids[j]) {
        EncodeInjective(ids[i], ids[j]);
      }
    }
  }

  /** The same ids in another order. */
  ghost predicate IsPermuted(a: TaskDelta, b: TaskDelta) {
    multiset(a.add) == multiset(b.add) && multiset(a.narrow) == multiset(b.narrow)
  }

  ghost predicate AllDistinct(ids: seq<string>) {
    forall i, j | 0 <= i < j < |ids| :: ids[i] != ids[j]
  }

  lemma {:induction false} DistinctCounts(ids: seq<string>, x: string)
    requires AllDistinct(ids)
    ensures multiset(ids)[x] <= 1
  {
    if ids != [] {
      var n := |ids| - 1;
      assert ids == ids[..n] + [ids[n]];
      DistinctCounts(ids[..n], x);
      if x == ids[n] {
        assert x !in ids[..n];
      }
    }
  }

  lemma RepeatCounts(ids: seq<string>, i: nat, j: nat)
    requires i < j < |ids| && ids[i] == ids[j]
    ensures multiset(ids)[ids[i]] >= 2
  {
    assert ids == ids[..j] + [ids[j]] + ids[j + 1..];
    assert ids[i] in ids[..j];
  }

  lemma PermutedIds(a: seq<string>, b: seq<string>)
    requires multiset(a) == multiset(b)
    ensures SameElements(a, b) && |a| == |b| && (AllDistinct(a) ==> AllDistinct(b))
  {
    forall i | 0 <= i < |a|
      ensures a[i] in b
    {
      assert a[i] in multiset(b);
    }
    forall i | 0 <= i < |b|
      ensures b[i] in a
    {
      assert b[i] in multiset(a);
    }
    assert |multiset(a)| == |a| && |multiset(b)| == |b|;
    if AllDistinct(a) {
      forall i, j | 0 <= i < j < |b|
        ensures b[i] != b[j]
      {
        if b[i] == b[j] {
          RepeatCounts(b, i, j);
          DistinctCounts(a, b[i]);
        }
      }
    }
  }

  /** Whether a delta is well formed depends on which ids it lists and not on their order. */
  lemma PermutedDeltaOk(a: TaskDelta, b: TaskDelta)
    requires IsPermuted(a, b) && DeltaOk(a)
    ensures DeltaOk(b)
  {
    hide IsModuleId;
    PermutedIds(a.add, b.add);
    PermutedIds(a.narrow, b.narrow);
    assert AllDistinct(a.add) && AllDistinct(a.narrow);
    forall i, j | 0 <= i < |b.add| && 0 <= j < |b.narrow|
      ensures b.add[i] != b.narrow[j]
    {
      var k :| 0 <= k < |a.add| && a.add[k] == b.add[i];
      var l :| 0 <= l < |a.narrow| && a.narrow[l] == b.narrow[j];
    }
  }

  lemma PermutedNarrows(r: Release, a: seq<string>, b: seq<string>)
    requires multiset(a) == multiset(b) && NarrowsOk(r, a)
    ensures NarrowsOk(r, b)
  {
    PermutedIds(a, b);
    assert AllDistinct(a);
    forall i | 0 <= i < |b|
      ensures b[i] !in Ids(r.required) && b[i] in Ids(r.optional)
    {
      var k :| 0 <= k < |a| && a[k] == b[i];
    }
  }

  lemma PermutedAdds(nfc: string -> bool, r: Release, catalogue: seq<Candidate>, a: seq<string>, b: seq<string>)
    requires multiset(a) == multiset(b) && AddsOk(nfc, r, catalogue, a)
    ensures AddsOk(nfc, r, catalogue, b)
  {
    hide IsAddable;
    PermutedIds(a, b);
    forall i | 0 <= i < |b|
      ensures IsAddable(nfc, r, catalogue, b[i])
    {
      var k :| 0 <= k < |a| && a[k] == b[i];
    }
  }

  lemma PermutedApplicable(nfc: string -> bool, r: Release, a: TaskDelta, b: TaskDelta, catalogue: seq<Candidate>)
    requires IsPermuted(a, b) && Applicable(nfc, r, a, catalogue)
    ensures Applicable(nfc, r, b, catalogue)
  {
    hide NarrowsOk, AddsOk, DeltaOk, Acceptable, SameElements, AllDistinct;
    PermutedIds(a.add, b.add);
    PermutedIds(a.narrow, b.narrow);
    PermutedDeltaOk(a, b);
    PermutedNarrows(r, a.narrow, b.narrow);
    PermutedAdds(nfc, r, catalogue, a.add, b.add);
  }

  /** Reordering a delta's lists moves neither its acceptance nor its identity. */
  lemma DeltaIgnoresOrder(a: TaskDelta, b: TaskDelta)
    requires IsPermuted(a, b)
    ensures CanonicalDelta(a) == CanonicalDelta(b)
  {
    hide SortBy, Encode, DistinctKeys, DeltaOk, SameElements, AllDistinct;
    if DeltaOk(a) || DeltaOk(b) {
      DeltaOkBoth(a, b);
      PermutedIds(a.add, b.add);
      PermutedIds(a.narrow, b.narrow);
      SortIgnoresOrder(a.add, b.add, TextKey);
      SortIgnoresOrder(a.narrow, b.narrow, TextKey);
    }
  }

  lemma DeltaOkBoth(a: TaskDelta, b: TaskDelta)
    requires IsPermuted(a, b) && (DeltaOk(a) || DeltaOk(b))
    ensures DeltaOk(a) && DeltaOk(b)
    ensures DistinctKeys(a.add, TextKey) && DistinctKeys(b.add, TextKey)
    ensures DistinctKeys(a.narrow, TextKey) && DistinctKeys(b.narrow, TextKey)
  {
    hide IdsOk, DistinctKeys;
    if DeltaOk(a) {
      PermutedDeltaOk(a, b);
    } else {
      PermutedDeltaOk(b, a);
    }
    IdsKeysDistinct(a.add);
    IdsKeysDistinct(b.add);
    IdsKeysDistinct(a.narrow);
    IdsKeysDistinct(b.narrow);
  }

  lemma {:induction false} KeptSame(pinned: seq<Member>, a: seq<string>, b: seq<string>)
    requires SameElements(a, b)
    ensures Kept(pinned, a) == Kept(pinned, b)
  {
    if pinned != [] {
      KeptSame(pinned[1..], a, b);
      SameMembership(a, b, pinned[0].id);
    }
  }

  lemma SameMembership(a: seq<string>, b: seq<string>, x: string)
    requires SameElements(a, b)
    ensures x in a <==> x in b
  {
    if x in a {
      var k :| 0 <= k < |a| && a[k] == x;
    }
    if x in b {
      var k :| 0 <= k < |b| && b[k] == x;
    }
  }

  lemma PinsSame(catalogue: seq<Candidate>, kept: seq<Member>, a: seq<string>, b: seq<string>)
    requires SameElements(a, b)
    ensures SameElements(kept + Pins(catalogue, a), kept + Pins(catalogue, b))
  {
    PinsWithin(catalogue, kept, a, b);
    PinsWithin(catalogue, kept, b, a);
  }

  lemma PinsWithin(catalogue: seq<Candidate>, kept: seq<Member>, a: seq<string>, b: seq<string>)
    requires forall i | 0 <= i < |a| :: a[i] in b
    ensures forall i | 0 <= i < |kept + Pins(catalogue, a)| :: (kept + Pins(catalogue, a))[i] in kept + Pins(catalogue, b)
  {
    hide Pin;
    var x, y := kept + Pins(catalogue, a), kept + Pins(catalogue, b);
    forall i | 0 <= i < |x|
      ensures x[i] in y
    {
      if i < |kept| {
        assert y[i] == x[i];
      } else {
        assert a[i - |kept|] in b;
        var k :| 0 <= k < |b| && b[k] == a[i - |kept|];
        assert y[|kept| + k] == Pin(catalogue, b[k]);
      }
    }
  }

  /**
   * The whole outcome is insensitive to the order of the delta's lists: one order is applied
   * exactly when the other is, and then to the same canonical bytes.
   */
  lemma OutcomeIgnoresOrder(nfc: string -> bool, sha: Bytes -> string, r: Release, a: TaskDelta, b: TaskDelta, catalogue: seq<Candidate>)
    requires forall x :: IsBareSha256(sha(x))
    requires IsPermuted(a, b)
    ensures Applied(nfc, sha, r, a, catalogue).Some? <==> Applied(nfc, sha, r, b, catalogue).Some?
    ensures Applied(nfc, sha, r, a, catalogue).Some? ==>
      var x, y := Applied(nfc, sha, r, a, catalogue).value, Applied(nfc, sha, r, b, catalogue).value;
      CanonicalSelection(nfc, x).Some? && CanonicalSelection(nfc, x) == CanonicalSelection(nfc, y)
  {
    hide Applicable, IsBareSha256, SelectionOk;
    if Applicable(nfc, r, a, catalogue) {
      PermutedApplicable(nfc, r, a, b, catalogue);
      SameOutcome(nfc, sha, r, a, b, catalogue);
    } else if Applicable(nfc, r, b, catalogue) {
      PermutedApplicable(nfc, r, b, a, catalogue);
    }
  }

  lemma SameOutcome(nfc: string -> bool, sha: Bytes -> string, r: Release, a: TaskDelta, b: TaskDelta, catalogue: seq<Candidate>)
    requires forall x :: IsBareSha256(sha(x))
    requires IsPermuted(a, b)
    requires Applied(nfc, sha, r, a, catalogue).Some? && Applied(nfc, sha, r, b, catalogue).Some?
    ensures var x, y := Applied(nfc, sha, r, a, catalogue).value, Applied(nfc, sha, r, b, catalogue).value;
      CanonicalSelection(nfc, x).Some? && CanonicalSelection(nfc, x) == CanonicalSelection(nfc, y)
  {
    var x, y := Applied(nfc, sha, r, a, catalogue).value, Applied(nfc, sha, r, b, catalogue).value;
    hide NarrowsOk, AddsOk, Acceptable, DeltaOk, SelectionOk, IsBareSha256, Encode, SortBy, SameElements, DistinctKeys, AllDistinct;
    AppliedIsSerializable(nfc, sha, r, a, catalogue);
    AppliedIsSerializable(nfc, sha, r, b, catalogue);
    DeltaIgnoresOrder(a, b);
    assert x.taskDeltaDigest == y.taskDeltaDigest;
    PermutedIds(a.add, b.add);
    PermutedIds(a.narrow, b.narrow);
    KeptSame(r.required + r.optional, a.narrow, b.narrow);
    PinsSame(catalogue, Kept(r.required + r.optional, a.narrow), a.add, b.add);
    SelectionKeys(nfc, x);
    SelectionKeys(nfc, y);
    SortIgnoresOrder(x.modules, y.modules, MemberKey);
  }

  lemma SelectionKeys(nfc: string -> bool, s: Selection)
    requires SelectionOk(nfc, s)
    ensures DistinctKeys(s.modules, MemberKey) && |s.releaseDigest| >= 7 && |s.taskDeltaDigest| >= 7
  {
    hide TokenOk, IsVersion, IsFamilyId, SelectedOk, DistinctKeys;
    MemberKeysDistinct(s.modules);
  }

  method CanonicalResolvedSelection(nfc: string -> bool, s: Selection) returns (result: Option<Bytes>)
    ensures result == CanonicalSelection(nfc, s)
  {
    hide TokenOk, IsVersion, IsFamilyId, IsPrefixedSha256;
    var ok := TokenOk(nfc, s.family) && IsFamilyId(s.family) && IsVersion(s.version)
              && IsPrefixedSha256(s.releaseDigest) && IsPrefixedSha256(s.taskDeltaDigest);
    var modulesOk := CheckModules(nfc, s.modules);
    if !ok || !modulesOk {
      return None;
    }
    SelectionKeys(nfc, s);
    var out := WriteRows(SelectionRows(s));
    result := Some(out);
  }

  method CheckModules(nfc: string -> bool, modules: seq<Member>) returns (modulesOk: bool)
    ensures modulesOk <==> (forall k | 0 <= k < |modules| :: SelectedOk(nfc, modules[k])) && DistinctIds(modules)
  {
    modulesOk := true;
    var seen: set<string> := {};
    for i := 0 to |modules|
      invariant seen == set k | 0 <= k < i :: modules[k].id
      invariant modulesOk <==> (forall k | 0 <= k < i :: SelectedOk(nfc, modules[k])) && DistinctIds(modules[..i])
    {
      ghost var before := modules[..i];
      assert modules[..i + 1] == before + [modules[i]];
      assert (modules[i].id in seen) <==> exists k :: 0 <= k < i && before[k].id == modules[i].id;
      if !SelectedOk(nfc, modules[i]) || modules[i].id in seen {
        modulesOk := false;
      }
      seen := seen + {modules[i].id};
      hide SelectedOk;
    }
    assert modules[..|modules|] == modules;
  }
}
