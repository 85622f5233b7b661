/** Registry succession: what two revisions of the release registry must say about each other. */
module Registry {
  import opened Options

  datatype Json = Null | Bool(flag: bool) | Number(amount: real) | Str(text: string) | Arr(items: seq<Json>) | Obj(fields: map<string, Json>)

  /** Where two values differ; an absent value is None. */
  datatype Change = Change(path: seq<Step>, was: Option<Json>, now: Option<Json>)

  datatype Step = Key(name: string) | Index(at: nat)

  function FieldOf(value: Json, key: string): Option<Json>
    requires value.Obj?
  {
    if key in value.fields then Some(value.fields[key]) else None
  }

  function ItemOf(value: Json, at: nat): Option<Json>
    requires value.Arr?
  {
    if at < |value.items| then Some(value.items[at]) else None
  }

  predicate AreObjects(was: Option<Json>, now: Option<Json>) {
    was.Some? && now.Some? && was.value.Obj? && now.value.Obj?
  }

  predicate AreArrays(was: Option<Json>, now: Option<Json>) {
    was.Some? && now.Some? && was.value.Arr? && now.value.Arr?
  }

  /** `c` is where these two values differ, and no two objects or two arrays are there to look into. */
  ghost predicate LeafChange(was: Option<Json>, now: Option<Json>, c: Change)
    decreases |c.path|
  {
    if c.path == [] then was != now && c.was == was && c.now == now && !AreObjects(was, now) && !AreArrays(was, now)
    else
      var inner := c.(path := c.path[1..]);
      match c.path[0]
      case Key(name) => AreObjects(was, now) && LeafChange(FieldOf(was.value, name), FieldOf(now.value, name), inner)
      case Index(at) => AreArrays(was, now) && LeafChange(ItemOf(was.value, at), ItemOf(now.value, at), inner)
  }

  /** The same for two values found at `path`. */
  ghost predicate ChangeBelow(was: Option<Json>, now: Option<Json>, path: seq<Step>, c: Change) {
    path <= c.path && LeafChange(was, now, c.(path := c.path[|path|..]))
  }

  ghost predicate ChangeUnder(was: Json, now: Json, path: seq<Step>, step: Step, c: Change) {
    ChangeBelow(Some(was), Some(now), path, c) && |path| < |c.path| && c.path[|path|] == step
  }

  lemma BelowStep(path: seq<Step>, step: Step, c: Change)
    ensures path + [step] <= c.path <==> path <= c.path && |path| < |c.path| && c.path[|path|] == step
    ensures path + [step] <= c.path ==> c.path[|path|..][0] == step && c.path[|path|..][1..] == c.path[|path + [step]|..]
  {
    if path <= c.path && |path| < |c.path| && c.path[|path|] == step {
      assert c.path[..|path| + 1] == path + [step];
    }
  }

  lemma BelowKey(was: Json, now: Json, path: seq<Step>, name: string, c: Change)
    requires was.Obj? && now.Obj?
    ensures ChangeBelow(FieldOf(was, name), FieldOf(now, name), path + [Key(name)], c) <==> ChangeUnder(was, now, path, Key(name), c)
  {
    BelowStep(path, Key(name), c);
  }

  lemma BelowIndex(was: Json, now: Json, path: seq<Step>, at: nat, c: Change)
    requires was.Arr? && now.Arr?
    ensures ChangeBelow(ItemOf(was, at), ItemOf(now, at), path + [Index(at)], c) <==> ChangeUnder(was, now, path, Index(at), c)
  {
    BelowStep(path, Index(at), c);
  }

  /** Where there is nothing to look into, the pair itself is the only difference. */
  lemma NothingInside(was: Option<Json>, now: Option<Json>, path: seq<Step>, c: Change)
    requires !AreObjects(was, now) && !AreArrays(was, now)
    ensures ChangeBelow(was, now, path, c) <==> was != now && c == Change(path, was, now)
  {
  }

  lemma InsideObjects(was: Json, now: Json, path: seq<Step>, c: Change)
    requires was.Obj? && now.Obj? && ChangeBelow(Some(was), Some(now), path, c)
    ensures |path| < |c.path| && c.path[|path|].Key? && c.path[|path|].name in was.fields.Keys + now.fields.Keys
  {
    assert |path| < |c.path|;
    assert c.path[|path|..][0] == c.path[|path|];
    var name := c.path[|path|].name;
    if name !in was.fields.Keys + now.fields.Keys {
      BelowKey(was, now, path, name, c);
      NothingInside(FieldOf(was, name), FieldOf(now, name), path + [Key(name)], c);
    }
  }

  lemma InsideArrays(was: Json, now: Json, path: seq<Step>, c: Change)
    requires was.Arr? && now.Arr? && ChangeBelow(Some(was), Some(now), path, c)
    ensures |path| < |c.path| && c.path[|path|].Index? && (c.path[|path|].at < |was.items| || c.path[|path|].at < |now.items|)
  {
    assert |path| < |c.path|;
    assert c.path[|path|..][0] == c.path[|path|];
    var at := c.path[|path|].at;
    if at >= |was.items| && at >= |now.items| {
      BelowIndex(was, now, path, at, c);
      NothingInside(ItemOf(was, at), ItemOf(now, at), path + [Index(at)], c);
    }
  }

  /** Every leaf-level difference of two values, and nothing else. */
  method Differences(was: Json, now: Json, path: seq<Step>) returns (out: seq<Change>)
    ensures forall c :: c in out <==> ChangeBelow(Some(was), Some(now), path, c)
    ensures out == [] <==> was == now
    decreases was, 1
  {
    hide ChangeBelow;
    if was.Obj? && now.Obj? {
      out := FieldDifferences(was, now, path);
      return;
    }
    if was.Arr? && now.Arr? {
      out := ItemDifferences(was, now, path);
      return;
    }
    out := if was != now then [Change(path, Some(was), Some(now))] else [];
    forall c
      ensures c in out <==> ChangeBelow(Some(was), Some(now), path, c)
    {
      NothingInside(Some(was), Some(now), path, c);
    }
  }

  method FieldDifferences(was: Json, now: Json, path: seq<Step>) returns (out: seq<Change>)
    requires was.Obj? && now.Obj?
    ensures forall c :: c in out <==> ChangeBelow(Some(was), Some(now), path, c)
    ensures out == [] <==> was == now
    decreases was, 0
  {
    hide ChangeBelow;
    out := [];
    var all := was.fields.Keys + now.fields.Keys;
    var todo := all;
    while todo != {}
      invariant todo <= all
      invariant forall c :: c in out <==>
        ChangeBelow(Some(was), Some(now), path, c) && |path| < |c.path| && c.path[|path|].Key? && c.path[|path|].name in all - todo
      invariant out == [] <==> forall k | k in all - todo :: FieldOf(was, k) == FieldOf(now, k)
    {
      var key :| key in todo;
      var more: seq<Change>;
      if key in was.fields && key in now.fields {
        more := Differences(was.fields[key], now.fields[key], path + [Key(key)]);
      } else {
        more := [Change(path + [Key(key)], FieldOf(was, key), FieldOf(now, key))];
      }
      forall c
        ensures c in more <==> ChangeUnder(was, now, path, Key(key), c)
      {
        BelowKey(was, now, path, key, c);
        if key !in was.fields || key !in now.fields {
          NothingInside(FieldOf(was, key), FieldOf(now, key), path + [Key(key)], c);
        }
      }
      assert more == [] <==> FieldOf(was, key) == FieldOf(now, key);
      assert all - (todo - {key}) == (all - todo) + {key};
      assert out + more == [] <==> out == [] && more == [];
      out := out + more;
      todo := todo - {key};
    }
    SameFields(was, now);
    forall c | ChangeBelow(Some(was), Some(now), path, c)
      ensures c in out
    {
      InsideObjects(was, now, path, c);
    }
  }

  method ItemDifferences(was: Json, now: Json, path: seq<Step>) returns (out: seq<Change>)
    requires was.Arr? && now.Arr?
    ensures forall c :: c in out <==> ChangeBelow(Some(was), Some(now), path, c)
    ensures out == [] <==> was == now
    decreases was, 0
  {
    hide ChangeBelow;
    out := [];
    var length := if |was.items| > |now.items| then |was.items| else |now.items|;
    for i := 0 to length
      invariant forall c :: c in out <==>
        ChangeBelow(Some(was), Some(now), path, c) && |path| < |c.path| && c.path[|path|].Index? && c.path[|path|].at < i
      invariant out == [] <==> forall k | 0 <= k < i :: ItemOf(was, k) == ItemOf(now, k)
    {
      var more: seq<Change>;
      if i < |was.items| && i < |now.items| {
        more := Differences(was.items[i], now.items[i], path + [Index(i)]);
      } else {
        more := [Change(path + [Index(i)], ItemOf(was, i), ItemOf(now, i))];
      }
      forall c
        ensures c in more <==> ChangeUnder(was, now, path, Index(i), c)
      {
        BelowIndex(was, now, path, i, c);
        if i >= |was.items| || i >= |now.items| {
          NothingInside(ItemOf(was, i), ItemOf(now, i), path + [Index(i)], c);
        }
      }
      assert more == [] <==> ItemOf(was, i) == ItemOf(now, i);
      assert out + more == [] <==> out == [] && more == [];
      out := out + more;
    }
    SameItems(was, now);
    forall c | ChangeBelow(Some(was), Some(now), path, c)
      ensures c in out
    {
      InsideArrays(was, now, path, c);
    }
  }

  lemma SameFields(a: Json, b: Json)
    requires a.Obj? && b.Obj?
    ensures a == b <==> forall k | k in a.fields.Keys + b.fields.Keys :: FieldOf(a, k) == FieldOf(b, k)
  {
    if forall k | k in a.fields.Keys + b.fields.Keys :: FieldOf(a, k) == FieldOf(b, k) {
      forall k
        ensures k in a.fields <==> k in b.fields
        ensures k in a.fields ==> k in b.fields && a.fields[k] == b.fields[k]
      {
        assert k in a.fields.Keys + b.fields.Keys ==> FieldOf(a, k) == FieldOf(b, k);
      }
      assert a.fields == b.fields;
    }
  }

  lemma SameItems(a: Json, b: Json)
    requires a.Arr? && b.Arr?
    ensures var length := if |a.items| > |b.items| then |a.items| else |b.items|;
      a == b <==> forall k | 0 <= k < length :: ItemOf(a, k) == ItemOf(b, k)
  {
    var length := if |a.items| > |b.items| then |a.items| else |b.items|;
    assert |a.items| > |b.items| ==> ItemOf(a, |b.items|) != ItemOf(b, |b.items|);
    assert |b.items| > |a.items| ==> ItemOf(a, |a.items|) != ItemOf(b, |a.items|);
    if forall k | 0 <= k < length :: ItemOf(a, k) == ItemOf(b, k) {
      assert |a.items| == |b.items|;
      forall k | 0 <= k < |a.items|
        ensures a.items[k] == b.items[k]
      {
        assert ItemOf(a, k) == ItemOf(b, k);
      }
      assert a.items == b.items;
    }
  }

  // ------------------------------------------------------------------ succession

  predicate IsIdentified(record: Json) {
    && record.Obj? && "familyId" in record.fields && record.fields["familyId"].Str?
    && "version" in record.fields && record.fields["version"].Str?
  }

  function KeyOf(record: Json): string
    requires IsIdentified(record)
  {
    record.fields["familyId"].text + "@" + record.fields["version"].text
  }

  function StateOf(record: Json): Option<Json>
    requires record.Obj?
  {
    FieldOf(record, "state")
  }

  function WithoutState(record: Json): Json
    requires record.Obj?
  {
    Obj(record.fields - {"state"})
  }

  datatype ReleaseState = Released | Deprecated | Retired

  function KnownState(state: Option<Json>): Option<ReleaseState> {
    if state == Some(Str("Released")) then Some(Released)
    else if state == Some(Str("Deprecated")) then Some(Deprecated)
    else if state == Some(Str("Retired")) then Some(Retired)
    else None
  }

  predicate IsGoverned(from: ReleaseState, to: ReleaseState) {
    from == to || (from == Released && to == Deprecated) || (from == Deprecated && to == Retired)
  }

  predicate MayMove(from: Option<Json>, to: Option<Json>) {
    KnownState(from).Some? && KnownState(to).Some? && IsGoverned(KnownState(from).value, KnownState(to).value)
  }

  ghost predicate WellIdentified(records: seq<Json>) {
    && (forall i | 0 <= i < |records| :: IsIdentified(records[i]))
    && (forall i, j | 0 <= i < j < |records| :: KeyOf(records[i]) != KeyOf(records[j]))
  }

  /** Whether a revision carries an identity. */
  predicate Carries(records: seq<Json>, key: string) {
    exists i | 0 <= i < |records| :: IsIdentified(records[i]) && KeyOf(records[i]) == key
  }

  /** What one record becomes: itself, except for a governed move of its state. */
  ghost predicate Succeeds(was: Json, now: Json) {
    was.Obj? && now.Obj? && WithoutState(was) == WithoutState(now) && MayMove(StateOf(was), StateOf(now))
  }

  ghost predicate HasSuccessor(was: Json, current: seq<Json>)
    requires IsIdentified(was)
  {
    exists j :: 0 <= j < |current| && IsIdentified(current[j]) && KeyOf(current[j]) == KeyOf(was) && Succeeds(was, current[j])
  }

  /** A new identity is born Released. */
  ghost predicate IsBornOrCarried(prior: seq<Json>, record: Json)
    requires IsIdentified(record)
  {
    Carries(prior, KeyOf(record)) || KnownState(StateOf(record)) == Some(Released)
  }

  /** What succession means. */
  ghost predicate IsSuccession(prior: seq<Json>, current: seq<Json>) {
    && WellIdentified(prior) && WellIdentified(current)
    && (forall i | 0 <= i < |prior| :: HasSuccessor(prior[i], current))
    && (forall j | 0 <= j < |current| :: IsBornOrCarried(prior, current[j]))
  }

  datatype Refusal = Malformed | Collision | Deleted | Mutated(change: Change) | BadTransition | BornState

  // ------------------------------------------------------- what stands, what refuses

  /** The records that stand for their identity: identified, and the first of it, in order. */
  function Standing(records: seq<Json>): (r: seq<Json>)
    ensures WellIdentified(r)
  {
    if records == [] then []
    else
      var n := |records| - 1;
      var before := Standing(records[..n]);
      before + if IsIdentified(records[n]) && !Carries(before, KeyOf(records[n])) then [records[n]] else []
  }

  ghost predicate HasMalformed(records: seq<Json>) {
    exists i :: 0 <= i < |records| && !IsIdentified(records[i])
  }

  ghost predicate HasCollision(records: seq<Json>) {
    exists i, j :: 0 <= i < j < |records| && IsIdentified(records[i]) && IsIdentified(records[j]) && KeyOf(records[i]) == KeyOf(records[j])
  }

  /** What refuses one carried record. */
  ghost predicate RefusesPair(was: Json, now: Json, r: Refusal)
    requires was.Obj? && now.Obj?
  {
    match r
    case Mutated(change) => ChangeBelow(Some(WithoutState(was)), Some(WithoutState(now)), [], change)
    case BadTransition => !MayMove(StateOf(was), StateOf(now))
    case _ => false
  }

  /** What an earlier record's fate in the later revision refuses. */
  ghost predicate RefusesFate(was: Json, current: seq<Json>, r: Refusal)
    requires IsIdentified(was)
  {
    if Carries(current, KeyOf(was)) then
      exists j :: 0 <= j < |current| && IsIdentified(current[j]) && KeyOf(current[j]) == KeyOf(was) && RefusesPair(was, current[j], r)
    else r == Deleted
  }

  ghost predicate RefusesBirth(prior: seq<Json>, now: Json, r: Refusal)
    requires IsIdentified(now)
  {
    r == BornState && !Carries(prior, KeyOf(now)) && KnownState(StateOf(now)) != Some(Released)
  }

  /** Exactly the refusals two revisions earn, by the records that stand in each. */
  ghost predicate Refuses(prior: seq<Json>, current: seq<Json>, r: Refusal) {
    || (r == Malformed && (HasMalformed(prior) || HasMalformed(current)))
    || (r == Collision && (HasCollision(prior) || HasCollision(current)))
    || (exists i :: 0 <= i < |Standing(prior)| && RefusesFate(Standing(prior)[i], Standing(current), r))
    || (exists j :: 0 <= j < |Standing(current)| && RefusesBirth(Standing(prior), Standing(current)[j], r))
  }

  lemma {:induction false} StandingKeys(records: seq<Json>, key: string)
    ensures Carries(Standing(records), key) <==> Carries(records, key)
  {
    hide IsIdentified, KeyOf, WellIdentified;
    if records != [] {
      var n := |records| - 1;
      StandingKeys(records[..n], key);
      CarriesLast(records, key);
      if |Standing(records)| > |Standing(records[..n])| {
        CarriesLast(Standing(records), key);
        assert Standing(records)[..|Standing(records)| - 1] == Standing(records[..n]);
      } else {
        assert Standing(records) == Standing(records[..n]);
      }
    }
  }

  lemma CarriesLast(records: seq<Json>, key: string)
    requires records != []
    ensures var n := |records| - 1;
      Carries(records, key) <==> Carries(records[..n], key) || (IsIdentified(records[n]) && KeyOf(records[n]) == key)
  {
    hide IsIdentified, KeyOf;
    var n := |records| - 1;
    if Carries(records[..n], key) {
      var i :| 0 <= i < n && IsIdentified(records[..n][i]) && KeyOf(records[..n][i]) == key;
      assert records[i] == records[..n][i];
    }
    if Carries(records, key) && !(IsIdentified(records[n]) && KeyOf(records[n]) == key) {
      var i :| 0 <= i < |records| && IsIdentified(records[i]) && KeyOf(records[i]) == key;
      assert records[..n][i] == records[i];
    }
  }

  /** A record stands for its identity exactly when it is the first that carries it. */
  lemma {:induction false} StandingAreFirst(records: seq<Json>, record: Json)
    ensures record in Standing(records) <==>
      exists i :: 0 <= i < |records| && records[i] == record && IsIdentified(record) && !Carries(records[..i], KeyOf(record))
  {
    hide IsIdentified, KeyOf, Carries, WellIdentified;
    if records != [] {
      var n := |records| - 1;
      StandingAreFirst(records[..n], record);
      if record in Standing(records[..n]) {
        var i :| 0 <= i < n && records[..n][i] == record && IsIdentified(record) && !Carries(records[..n][..i], KeyOf(record));
        assert records[..n][..i] == records[..i];
      }
      if IsIdentified(records[n]) {
        StandingKeys(records[..n], KeyOf(records[n]));
      }
      if i :| 0 <= i < |records| && records[i] == record && IsIdentified(record) && !Carries(records[..i], KeyOf(record)) {
        if i < n {
          assert records[..n][i] == record && records[..n][..i] == records[..i];
        }
      }
    }
  }

  lemma {:induction false} StandingOfWell(records: seq<Json>)
    requires WellIdentified(records)
    ensures Standing(records) == records
  {
    if records != [] {
      var n := |records| - 1;
      StandingOfWell(records[..n]);
      assert !Carries(records[..n], KeyOf(records[n]));
      assert records == records[..n] + [records[n]];
    }
  }

  lemma WellMeansNeither(records: seq<Json>)
    ensures WellIdentified(records) <==> !HasMalformed(records) && !HasCollision(records)
  {
    hide IsIdentified, KeyOf;
  }

  lemma {:induction false} SomeChange(was: Json, now: Json) returns (c: Change)
    requires was != now
    ensures LeafChange(Some(was), Some(now), c)
    decreases was
  {
    if was.Obj? && now.Obj? {
      SameFields(was, now);
      var k :| k in was.fields.Keys + now.fields.Keys && FieldOf(was, k) != FieldOf(now, k);
      c := Change([], FieldOf(was, k), FieldOf(now, k));
      if k in was.fields && k in now.fields {
        c := SomeChange(was.fields[k], now.fields[k]);
      }
      c := c.(path := [Key(k)] + c.path);
    } else if was.Arr? && now.Arr? {
      SameItems(was, now);
      var i: nat :| ItemOf(was, i) != ItemOf(now, i);
      c := Change([], ItemOf(was, i), ItemOf(now, i));
      if i < |was.items| && i < |now.items| {
        c := SomeChange(was.items[i], now.items[i]);
      }
      c := c.(path := [Index(i)] + c.path);
    } else {
      c := Change([], Some(was), Some(now));
    }
  }

  lemma {:induction false} NoSelfChange(value: Option<Json>, c: Change)
    ensures !LeafChange(value, value, c)
    decreases |c.path|
  {
    if c.path != [] && AreObjects(value, value) && c.path[0].Key? {
      NoSelfChange(FieldOf(value.value, c.path[0].name), c.(path := c.path[1..]));
    } else if c.path != [] && AreArrays(value, value) && c.path[0].Index? {
      NoSelfChange(ItemOf(value.value, c.path[0].at), c.(path := c.path[1..]));
    }
  }

  /** Two values have no leaf-level difference exactly when they are structurally equal. */
  lemma NoChangeMeansEqual(was: Json, now: Json)
    ensures (forall c :: !ChangeBelow(Some(was), Some(now), [], c)) <==> was == now
  {
    hide LeafChange;
    if was == now {
      forall c
        ensures !ChangeBelow(Some(was), Some(now), [], c)
      {
        NoSelfChange(Some(was), c.(path := c.path[0..]));
      }
    } else {
      var c := SomeChange(was, now);
      assert c.path[0..] == c.path;
      assert ChangeBelow(Some(was), Some(now), [], c);
    }
  }

  lemma NothingToRefuse(was: Json, now: Json)
    requires was.Obj? && now.Obj?
    ensures (forall r :: !RefusesPair(was, now, r)) <==> Succeeds(was, now)
  {
    var before, after := WithoutState(was), WithoutState(now);
    NoChangeMeansEqual(before, after);
    assert !RefusesPair(was, now, BadTransition) <==> MayMove(StateOf(was), StateOf(now));
    if before != after {
      var c :| ChangeBelow(Some(before), Some(after), [], c);
      assert RefusesPair(was, now, Mutated(c));
    }
    hide ChangeBelow, MayMove;
  }

  ghost predicate Indexes(records: seq<Json>, byKey: map<string, Json>, order: seq<string>) {
    && |order| == |records| && (forall k :: k in byKey <==> k in order)
    && (forall i | 0 <= i < |records| :: IsIdentified(records[i]) && order[i] == KeyOf(records[i]) && order[i] in byKey && byKey[order[i]] == records[i])
  }

  lemma LookupFinds(records: seq<Json>, byKey: map<string, Json>, order: seq<string>, key: string)
    requires Indexes(records, byKey, order)
    ensures key in byKey <==> Carries(records, key)
    ensures key in byKey ==> byKey[key] in records && IsIdentified(byKey[key]) && KeyOf(byKey[key]) == key
    ensures forall i | 0 <= i < |records| && IsIdentified(records[i]) && KeyOf(records[i]) == key :: key in byKey && byKey[key] == records[i]
  {
    hide IsIdentified, KeyOf;
    if key in byKey {
      var i :| 0 <= i < |order| && order[i] == key;
      assert IsIdentified(records[i]) && KeyOf(records[i]) == key;
    }
    forall i | 0 <= i < |records| && IsIdentified(records[i]) && KeyOf(records[i]) == key
      ensures key in byKey && byKey[key] == records[i]
    {
      assert order[i] == key;
    }
  }

  lemma IndexOneMore(records: seq<Json>, byKey: map<string, Json>, order: seq<string>, record: Json)
    requires Indexes(records, byKey, order) && IsIdentified(record) && KeyOf(record) !in byKey
    ensures Indexes(records + [record], byKey[KeyOf(record) := record], order + [KeyOf(record)])
  {
    hide IsIdentified, KeyOf;
  }

  lemma StandingLast(records: seq<Json>, i: nat)
    requires i < |records|
    ensures Standing(records[..i + 1]) == if IsIdentified(records[i]) && !Carries(Standing(records[..i]), KeyOf(records[i]))
                                          then Standing(records[..i]) + [records[i]] else Standing(records[..i])
  {
    hide IsIdentified, KeyOf, Carries;
    assert records[..i + 1][..i] == records[..i];
  }

  /** What one more record adds to the refusals of a revision. */
  lemma IndexRefusalsLast(records: seq<Json>, i: nat)
    requires i < |records|
    ensures HasMalformed(records[..i + 1]) <==> HasMalformed(records[..i]) || !IsIdentified(records[i])
    ensures HasCollision(records[..i + 1]) <==>
      HasCollision(records[..i]) || (IsIdentified(records[i]) && Carries(records[..i], KeyOf(records[i])))
  {
    hide IsIdentified, KeyOf;
    var before, after := records[..i], records[..i + 1];
    assert after == before + [records[i]];
    if a :| 0 <= a < i && !IsIdentified(before[a]) {
      assert after[a] == before[a];
    }
    if a, b :| 0 <= a < b < i && IsIdentified(before[a]) && IsIdentified(before[b]) && KeyOf(before[a]) == KeyOf(before[b]) {
      assert after[a] == before[a] && after[b] == before[b];
    }
    if IsIdentified(records[i]) && Carries(before, KeyOf(records[i])) {
      var a :| 0 <= a < |before| && IsIdentified(before[a]) && KeyOf(before[a]) == KeyOf(records[i]);
      assert after[a] == before[a] && after[i] == records[i];
    }
    assert !IsIdentified(records[i]) ==> !IsIdentified(after[i]);
  }

  /** Index a revision by identity; the first record of an identity stands. */
  method IndexRecords(records: seq<Json>) returns (byKey: map<string, Json>, order: seq<string>, refusals: seq<Refusal>)
    ensures Indexes(Standing(records), byKey, order)
    ensures forall r :: r in refusals <==> (r == Malformed && HasMalformed(records)) || (r == Collision && HasCollision(records))
  {
    byKey, order, refusals := map[], [], [];
    hide IsIdentified, KeyOf, HasMalformed, HasCollision, Indexes, WellIdentified, Carries, Standing;
    assert Indexes(Standing(records[..0]), byKey, order) && !HasMalformed(records[..0]) && !HasCollision(records[..0]) by {
      EmptyIndex(records);
    }
    for i := 0 to |records|
      invariant Indexes(Standing(records[..i]), byKey, order)
      invariant forall r :: r in refusals <==> (r == Malformed && HasMalformed(records[..i])) || (r == Collision && HasCollision(records[..i]))
    {
      var record := records[i];
      StandingLast(records, i);
      IndexRefusalsLast(records, i);
      if !IsIdentified(record) {
        refusals := refusals + [Malformed];
        continue;
      }
      var key := KeyOf(record);
      LookupFinds(Standing(records[..i]), byKey, order, key);
      StandingKeys(records[..i], key);
      if key in byKey {
        refusals := refusals + [Collision];
        continue;
      }
      IndexOneMore(Standing(records[..i]), byKey, order, record);
      byKey := byKey[key := record];
      order := order + [key];
    }
    assert records[..|records|] == records;
  }

  lemma EmptyIndex(records: seq<Json>)
    ensures Indexes(Standing(records[..0]), map[], []) && !HasMalformed(records[..0]) && !HasCollision(records[..0])
  {
  }

  /** Compare one carried record: it may only move its state, and only the governed way. */
  method CompareRecord(was: Json, now: Json) returns (refusals: seq<Refusal>)
    requires was.Obj? && now.Obj?
    ensures forall r :: r in refusals <==> RefusesPair(was, now, r)
  {
    hide ChangeBelow, MayMove;
    refusals := [];
    var changes := Differences(WithoutState(was), WithoutState(now), []);
    for i := 0 to |changes|
      invariant forall r :: r in refusals <==> r.Mutated? && r.change in changes[..i]
    {
      assert changes[..i + 1] == changes[..i] + [changes[i]];
      refusals := refusals + [Mutated(changes[i])];
    }
    assert changes[..|changes|] == changes;
    if !MayMove(StateOf(was), StateOf(now)) {
      refusals := refusals + [BadTransition];
    }
  }

  lemma ObjectsAreIdentified(a: Json)
    requires IsIdentified(a)
    ensures a.Obj?
  {
  }

  /** The records of `prior` that `current` carries, in order. */
  function Shared(prior: seq<Json>, current: seq<Json>): seq<Json> {
    if prior == [] then []
    else
      var n := |prior| - 1;
      Shared(prior[..n], current) + if IsIdentified(prior[n]) && Carries(current, KeyOf(prior[n])) then [prior[n]] else []
  }

  ghost predicate FatesRefuse(prior: seq<Json>, current: seq<Json>, n: nat, r: Refusal) {
    exists i :: 0 <= i < n && i < |prior| && IsIdentified(prior[i]) && RefusesFate(prior[i], current, r)
  }

  ghost predicate BirthsRefuse(prior: seq<Json>, current: seq<Json>, n: nat, r: Refusal) {
    exists j :: 0 <= j < n && j < |current| && IsIdentified(current[j]) && RefusesBirth(prior, current[j], r)
  }

  lemma FatesLast(prior: seq<Json>, current: seq<Json>, i: nat, r: Refusal)
    requires i < |prior| && IsIdentified(prior[i])
    ensures FatesRefuse(prior, current, i + 1, r) <==> FatesRefuse(prior, current, i, r) || RefusesFate(prior[i], current, r)
  {
    hide RefusesFate, IsIdentified;
  }

  lemma BirthsLast(prior: seq<Json>, current: seq<Json>, j: nat, r: Refusal)
    requires j < |current| && IsIdentified(current[j])
    ensures BirthsRefuse(prior, current, j + 1, r) <==> BirthsRefuse(prior, current, j, r) || RefusesBirth(prior, current[j], r)
  {
    hide RefusesBirth, IsIdentified;
  }

  /** The fate of one indexed record is the comparison with what the index of the later revision finds. */
  lemma FateByIndex(was: Json, current: seq<Json>, byKey: map<string, Json>, order: seq<string>, r: Refusal)
    requires Indexes(current, byKey, order) && IsIdentified(was)
    ensures KeyOf(was) in byKey ==> IsIdentified(byKey[KeyOf(was)])
    ensures RefusesFate(was, current, r) <==> if KeyOf(was) in byKey then RefusesPair(was, byKey[KeyOf(was)], r) else r == Deleted
  {
    LookupFinds(current, byKey, order, KeyOf(was));
    hide RefusesPair, KeyOf, Carries, Indexes;
    if KeyOf(was) in byKey {
      var j :| 0 <= j < |current| && current[j] == byKey[KeyOf(was)];
      assert IsIdentified(current[j]) && KeyOf(current[j]) == KeyOf(was);
    }
  }

  method CompareCarried(ghost prior: seq<Json>, ghost current: seq<Json>, priorOrder: seq<string>, priorByKey: map<string, Json>,
                        byKey: map<string, Json>, ghost order: seq<string>)
    returns (refusals: seq<Refusal>, carried: nat)
    requires Indexes(prior, priorByKey, priorOrder) && Indexes(current, byKey, order)
    ensures forall r :: r in refusals <==> FatesRefuse(prior, current, |prior|, r)
    ensures carried == |Shared(prior, current)|
  {
    hide RefusesFate, RefusesPair, KeyOf, Carries, FatesRefuse;
    refusals, carried := [], 0;
    assert forall r :: !FatesRefuse(prior, current, 0, r) by { NoFates(prior, current); }
    for i := 0 to |priorOrder|
      invariant forall r :: r in refusals <==> FatesRefuse(prior, current, i, r)
      invariant carried == |Shared(prior[..i], current)|
    {
      var was := priorByKey[priorOrder[i]];
      assert was == prior[i] && IsIdentified(was) && KeyOf(was) == priorOrder[i];
      assert prior[..i + 1][..i] == prior[..i];
      LookupFinds(current, byKey, order, priorOrder[i]);
      var more := [Deleted];
      if priorOrder[i] in byKey {
        carried := carried + 1;
        ObjectsAreIdentified(was);
        ObjectsAreIdentified(byKey[priorOrder[i]]);
        more := CompareRecord(was, byKey[priorOrder[i]]);
      }
      forall r
        ensures r in refusals + more <==> FatesRefuse(prior, current, i + 1, r)
      {
        FatesLast(prior, current, i, r);
        FateByIndex(was, current, byKey, order, r);
      }
      refusals := refusals + more;
    }
    assert prior[..|priorOrder|] == prior;
  }

  lemma NoFates(prior: seq<Json>, current: seq<Json>)
    ensures forall r :: !FatesRefuse(prior, current, 0, r) && !BirthsRefuse(prior, current, 0, r)
  {
  }

  /** The records of `current` that `prior` does not carry, in order. */
  function NewRecords(prior: seq<Json>, current: seq<Json>): seq<Json> {
    if current == [] then []
    else
      var n := |current| - 1;
      NewRecords(prior, current[..n]) + if IsIdentified(current[n]) && !Carries(prior, KeyOf(current[n])) then [current[n]] else []
  }

  method CompareNew(ghost prior: seq<Json>, ghost current: seq<Json>, ghost priorOrder: seq<string>, priorByKey: map<string, Json>,
                    order: seq<string>, byKey: map<string, Json>)
    returns (refusals: seq<Refusal>, added: seq<Json>)
    requires Indexes(prior, priorByKey, priorOrder) && Indexes(current, byKey, order)
    ensures forall r :: r in refusals <==> BirthsRefuse(prior, current, |current|, r)
    ensures added == NewRecords(prior, current)
  {
    hide KeyOf, Carries, BirthsRefuse;
    refusals, added := [], [];
    assert forall r :: !BirthsRefuse(prior, current, 0, r) by { NoFates(prior, current); }
    for j := 0 to |order|
      invariant forall r :: r in refusals <==> BirthsRefuse(prior, current, j, r)
      invariant added == NewRecords(prior, current[..j])
    {
      var record := byKey[order[j]];
      assert record == current[j] && IsIdentified(record) && KeyOf(record) == order[j];
      assert current[..j + 1][..j] == current[..j];
      LookupFinds(prior, priorByKey, priorOrder, order[j]);
      ObjectsAreIdentified(record);
      var more := [];
      if order[j] !in priorByKey {
        added := added + [record];
        more := if KnownState(StateOf(record)) != Some(Released) then [BornState] else [];
      }
      forall r
        ensures r in refusals + more <==> BirthsRefuse(prior, current, j + 1, r)
      {
        BirthsLast(prior, current, j, r);
      }
      refusals := refusals + more;
    }
    assert current[..|order|] == current;
  }

  /** Two revisions earn no refusal exactly when the later one succeeds the earlier. */
  lemma UnrefusedIsSuccession(prior: seq<Json>, current: seq<Json>)
    ensures (forall r :: !Refuses(prior, current, r)) <==> IsSuccession(prior, current)
  {
    hide KeyOf, IsIdentified, Succeeds, RefusesPair, Standing;
    WellMeansNeither(prior);
    WellMeansNeither(current);
    if forall r :: !Refuses(prior, current, r) {
      assert !Refuses(prior, current, Malformed) && !Refuses(prior, current, Collision);
      StandingOfWell(prior);
      StandingOfWell(current);
      UnrefusedSucceeds(prior, current);
    }
    if IsSuccession(prior, current) {
      StandingOfWell(prior);
      StandingOfWell(current);
      SuccessionIsUnrefused(prior, current);
    }
  }

  lemma UnrefusedSucceeds(prior: seq<Json>, current: seq<Json>)
    requires WellIdentified(prior) && WellIdentified(current) && Standing(prior) == prior && Standing(current) == current
    requires forall r :: !Refuses(prior, current, r)
    ensures IsSuccession(prior, current)
  {
    hide KeyOf, Succeeds, RefusesPair, Standing, HasMalformed, HasCollision;
    forall i | 0 <= i < |prior|
      ensures HasSuccessor(prior[i], current)
    {
      var was := prior[i];
      assert !RefusesFate(was, current, Deleted) by { assert !Refuses(prior, current, Deleted); }
      var j :| 0 <= j < |current| && IsIdentified(current[j]) && KeyOf(current[j]) == KeyOf(was);
      forall r
        ensures !RefusesPair(was, current[j], r)
      {
        assert !Refuses(prior, current, r);
        assert !RefusesFate(was, current, r);
      }
      NothingToRefuse(was, current[j]);
    }
    forall j | 0 <= j < |current|
      ensures IsBornOrCarried(prior, current[j])
    {
      assert !Refuses(prior, current, BornState);
      assert !RefusesBirth(prior, current[j], BornState);
    }
  }

  lemma SuccessionIsUnrefused(prior: seq<Json>, current: seq<Json>)
    requires IsSuccession(prior, current) && Standing(prior) == prior && Standing(current) == current
    ensures forall r :: !Refuses(prior, current, r)
  {
    hide KeyOf, Succeeds, RefusesPair, Standing;
    WellMeansNeither(prior);
    WellMeansNeither(current);
    forall r
      ensures !Refuses(prior, current, r)
    {
      forall i | 0 <= i < |prior|
        ensures !RefusesFate(prior[i], current, r)
      {
        assert HasSuccessor(prior[i], current);
        var j :| 0 <= j < |current| && IsIdentified(current[j]) && KeyOf(current[j]) == KeyOf(prior[i]) && Succeeds(prior[i], current[j]);
        NothingToRefuse(prior[i], current[j]);
      }
      forall j | 0 <= j < |current|
        ensures !RefusesBirth(prior, current[j], r)
      {
        assert IsBornOrCarried(prior, current[j]);
      }
    }
  }

  /** Compare a revision with its prior one: every refusal it earns and no other, and what it adds. */
  method ValidateRegistrySuccession(prior: seq<Json>, current: seq<Json>)
    returns (refusals: seq<Refusal>, carried: nat, added: seq<Json>)
    ensures forall r :: r in refusals <==> Refuses(prior, current, r)
    ensures refusals == [] <==> IsSuccession(prior, current)
    ensures carried == |Shared(Standing(prior), Standing(current))|
    ensures added == NewRecords(Standing(prior), Standing(current))
  {
    hide IsIdentified, KeyOf, RefusesFate, RefusesBirth, Indexes, Standing, HasMalformed, HasCollision, IsSuccession, Shared, NewRecords;
    var priorByKey, priorOrder, priorRefusals := IndexRecords(prior);
    var byKey, order, currentRefusals := IndexRecords(current);
    var carriedRefusals, bornRefusals: seq<Refusal>;
    carriedRefusals, carried := CompareCarried(Standing(prior), Standing(current), priorOrder, priorByKey, byKey, order);
    bornRefusals, added := CompareNew(Standing(prior), Standing(current), priorOrder, priorByKey, order, byKey);
    refusals := priorRefusals + currentRefusals + carriedRefusals + bornRefusals;
    forall r
      ensures r in refusals <==> Refuses(prior, current, r)
    {
      assert FatesRefuse(Standing(prior), Standing(current), |Standing(prior)|, r)
        <==> exists i :: 0 <= i < |Standing(prior)| && RefusesFate(Standing(prior)[i], Standing(current), r);
      assert BirthsRefuse(Standing(prior), Standing(current), |Standing(current)|, r)
        <==> exists j :: 0 <= j < |Standing(current)| && RefusesBirth(Standing(prior), Standing(current)[j], r);
    }
    UnrefusedIsSuccession(prior, current);
    assert refusals == [] <==> forall r :: r !in refusals by {
      if refusals != [] {
        assert refusals[0] in refusals;
      }
    }
  }

  // ------------------------------------------------------------------- histories

  /** Every revision was accepted as the successor of the one before it. */
  ghost predicate IsHistory(revisions: seq<seq<Json>>) {
    forall i | 0 <= i < |revisions| - 1 :: IsSuccession(revisions[i], revisions[i + 1])
  }

  function Stage(state: Option<Json>): nat {
    match KnownState(state)
    case Some(Released) => 0
    case Some(Deprecated) => 1
    case Some(Retired) => 2
    case None => 0
  }

  lemma CarriedOn(prior: seq<Json>, current: seq<Json>, was: Json) returns (now: Json)
    requires IsSuccession(prior, current) && was in prior && IsIdentified(was)
    ensures now in current && IsIdentified(now) && KeyOf(now) == KeyOf(was) && Succeeds(was, now)
  {
    hide IsIdentified, KeyOf, Succeeds;
    var i :| 0 <= i < |prior| && prior[i] == was;
    assert HasSuccessor(prior[i], current);
    var j :| 0 <= j < |current| && IsIdentified(current[j]) && KeyOf(current[j]) == KeyOf(was) && Succeeds(was, current[j]);
    now := current[j];
  }

  /**
   * Along any chain of accepted revisions an identity, once recorded, persists forever with every
   * field but its state structurally equal, and its state never goes back and moves at most one
   * step a revision.
   */
  lemma {:induction false} IdentityPersists(revisions: seq<seq<Json>>, first: nat, last: nat, was: Json) returns (now: Json)
    requires IsHistory(revisions) && first <= last < |revisions|
    requires was in revisions[first] && IsIdentified(was)
    ensures now in revisions[last] && IsIdentified(now) && KeyOf(now) == KeyOf(was)
    ensures WithoutState(now) == WithoutState(was)
    ensures Stage(StateOf(was)) <= Stage(StateOf(now)) <= Stage(StateOf(was)) + (last - first)
    ensures first < last ==> KnownState(StateOf(now)).Some?
    decreases last
  {
    if first == last {
      return was;
    }
    var before := IdentityPersists(revisions, first, last - 1, was);
    assert IsSuccession(revisions[last - 1], revisions[last - 1 + 1]);
    hide IsSuccession, KeyOf;
    now := CarriedOn(revisions[last - 1], revisions[last], before);
  }

  lemma CarriedForever(revisions: seq<seq<Json>>, first: nat, last: nat, key: string)
    requires IsHistory(revisions) && first <= last < |revisions| && Carries(revisions[first], key)
    ensures Carries(revisions[last], key)
  {
    var i :| 0 <= i < |revisions[first]| && IsIdentified(revisions[first][i]) && KeyOf(revisions[first][i]) == key;
    var now := IdentityPersists(revisions, first, last, revisions[first][i]);
    var j :| 0 <= j < |revisions[last]| && revisions[last][j] == now;
  }

  /** The first revision that carries an identity carried at `last` but not at the start. */
  lemma BirthOf(revisions: seq<seq<Json>>, last: nat, key: string) returns (birth: nat)
    requires last < |revisions| && Carries(revisions[last], key) && !Carries(revisions[0], key)
    ensures 0 < birth <= last && Carries(revisions[birth], key) && forall i | 0 <= i < birth :: !Carries(revisions[i], key)
  {
    hide Carries;
    birth := 0;
    while !Carries(revisions[birth], key)
      invariant birth <= last && forall i | 0 <= i < birth :: !Carries(revisions[i], key)
      decreases last - birth
    {
      birth := birth + 1;
    }
  }

  /**
   * An identity that the history's first revision lacks has exactly one birth: before it no revision
   * carries the identity, from it on every revision does, and there it is Released; what it has
   * become since is the same record with a state at most one step further per revision.
   */
  lemma IdentityBegins(revisions: seq<seq<Json>>, last: nat, now: Json) returns (birth: nat, born: Json)
    requires IsHistory(revisions) && last < |revisions|
    requires now in revisions[last] && IsIdentified(now) && !Carries(revisions[0], KeyOf(now))
    ensures 0 < birth <= last
    ensures forall i | 0 <= i < |revisions| :: Carries(revisions[i], KeyOf(now)) <==> birth <= i
    ensures born in revisions[birth] && IsIdentified(born) && KeyOf(born) == KeyOf(now)
    ensures KnownState(StateOf(born)) == Some(Released)
    ensures WithoutState(now) == WithoutState(born) && Stage(StateOf(now)) <= last - birth
  {
    var key := KeyOf(now);
    assert Carries(revisions[last], key) by {
      var j :| 0 <= j < |revisions[last]| && revisions[last][j] == now;
    }
    birth := BirthOf(revisions, last, key);
    var j :| 0 <= j < |revisions[birth]| && IsIdentified(revisions[birth][j]) && KeyOf(revisions[birth][j]) == key;
    born := revisions[birth][j];
    assert IsSuccession(revisions[birth - 1], revisions[birth - 1 + 1]);
    assert IsBornOrCarried(revisions[birth - 1], revisions[birth][j]);
    var later := IdentityPersists(revisions, birth, last, born);
    assert later == now by { OneRecordEach(revisions, birth, last, later, now); }
    forall i | birth <= i < |revisions|
      ensures Carries(revisions[i], key)
    {
      CarriedForever(revisions, birth, i, key);
    }
  }

  /** An accepted revision has one record for an identity. */
  lemma OneRecordEach(revisions: seq<seq<Json>>, first: nat, last: nat, a: Json, b: Json)
    requires IsHistory(revisions) && 0 < first <= last < |revisions|
    requires a in revisions[last] && b in revisions[last] && IsIdentified(a) && IsIdentified(b) && KeyOf(a) == KeyOf(b)
    ensures a == b
  {
    assert IsSuccession(revisions[last - 1], revisions[last - 1 + 1]);
    SameKeySameRecord(revisions[last], a, b);
  }

  lemma SameKeySameRecord(records: seq<Json>, a: Json, b: Json)
    requires WellIdentified(records) && a in records && b in records && KeyOf(a) == KeyOf(b)
    ensures a == b
  {
    hide IsIdentified, KeyOf;
    var i :| 0 <= i < |records| && records[i] == a;
    var j :| 0 <= j < |records| && records[j] == b;
  }

  function Sample(state: string): Json {
    Obj(map["familyId" := Str("f"), "version" := Str("1.0.0"), "state" := Str(state)])
  }

  lemma SampleSucceeds(from: string, to: string)
    ensures IsSuccession([Sample(from)], [Sample(to)]) <==> MayMove(Some(Str(from)), Some(Str(to)))
  {
    var was, now := Sample(from), Sample(to);
    assert IsIdentified(was) && IsIdentified(now) && KeyOf(was) == KeyOf(now);
    assert was.fields - {"state"} == map["familyId" := Str("f"), "version" := Str("1.0.0")];
    assert now.fields - {"state"} == map["familyId" := Str("f"), "version" := Str("1.0.0")];
    assert WithoutState(was) == WithoutState(now);
    assert StateOf(was) == Some(Str(from)) && StateOf(now) == Some(Str(to));
    hide IsIdentified, KeyOf, WithoutState, StateOf, Sample, MayMove;
    assert Carries([was], KeyOf(now)) by {
      assert [was][0] == was;
    }
    assert HasSuccessor(was, [now]) <==> Succeeds(was, now) by {
      assert [now][0] == now;
    }
    assert IsBornOrCarried([was], now);
  }

  // ------------------------------------------------------------- two steps as one

  /** Some identity went all the way from Released in `a` to Retired in `c`. */
  ghost predicate SkipsAState(a: seq<Json>, c: seq<Json>) {
    exists was, now :: was in a && now in c && IsIdentified(was) && IsIdentified(now) && KeyOf(was) == KeyOf(now)
      && KnownState(StateOf(was)) == Some(Released) && KnownState(StateOf(now)) == Some(Retired)
  }

  /** Some identity that `a` does not carry is past Released in `c`. */
  ghost predicate BornPastReleased(a: seq<Json>, c: seq<Json>) {
    exists now :: now in c && IsIdentified(now) && !Carries(a, KeyOf(now)) && KnownState(StateOf(now)) != Some(Released)
  }

  /** One record over two accepted steps: only its state can stand in the way of one. */
  lemma TwoMoves(was: Json, between: Json, now: Json)
    requires Succeeds(was, between) && Succeeds(between, now)
    ensures Succeeds(was, now) <==> !(KnownState(StateOf(was)) == Some(Released) && KnownState(StateOf(now)) == Some(Retired))
  {
    hide KnownState, WithoutState, StateOf;
  }

  lemma SuccessorIsOurs(prior: seq<Json>, current: seq<Json>, was: Json, now: Json)
    requires WellIdentified(current) && was in prior && now in current && IsIdentified(was) && IsIdentified(now) && KeyOf(was) == KeyOf(now)
    ensures HasSuccessor(was, current) <==> Succeeds(was, now)
  {
    hide IsIdentified, KeyOf, Succeeds;
    var k :| 0 <= k < |current| && current[k] == now;
    assert IsIdentified(current[k]) && KeyOf(current[k]) == KeyOf(was);
  }

  /** What becomes of one record of the first revision in the third. */
  lemma OverTwoSteps(a: seq<Json>, b: seq<Json>, c: seq<Json>, was: Json) returns (now: Json)
    requires IsSuccession(a, b) && IsSuccession(b, c) && was in a && IsIdentified(was)
    ensures now in c && IsIdentified(now) && KeyOf(now) == KeyOf(was)
    ensures HasSuccessor(was, c) <==> !(KnownState(StateOf(was)) == Some(Released) && KnownState(StateOf(now)) == Some(Retired))
  {
    hide KeyOf, Succeeds, IsSuccession, KnownState;
    var between := CarriedOn(a, b, was);
    now := CarriedOn(b, c, between);
    TwoMoves(was, between, now);
    assert WellIdentified(c) by { SuccessionIsWell(b, c); }
    SuccessorIsOurs(a, c, was, now);
  }

  lemma SuccessionIsWell(prior: seq<Json>, current: seq<Json>)
    requires IsSuccession(prior, current)
    ensures WellIdentified(prior) && WellIdentified(current)
  {
    hide WellIdentified;
  }

  /**
   * Acceptance is stepwise: two accepted steps make one accepted step exactly when no identity went
   * from Released to Retired over the two and none that is new to both is already past Released.
   */
  lemma SuccessionComposesExactly(a: seq<Json>, b: seq<Json>, c: seq<Json>)
    requires IsSuccession(a, b) && IsSuccession(b, c)
    ensures IsSuccession(a, c) <==> !SkipsAState(a, c) && !BornPastReleased(a, c)
  {
    SuccessionIsWell(a, b);
    SuccessionIsWell(b, c);
    Skipping(a, b, c);
    Births(a, c);
    hide HasSuccessor, IsBornOrCarried, SkipsAState, BornPastReleased, WellIdentified;
  }

  lemma Skipping(a: seq<Json>, b: seq<Json>, c: seq<Json>)
    requires IsSuccession(a, b) && IsSuccession(b, c) && WellIdentified(a) && WellIdentified(c)
    ensures (forall i | 0 <= i < |a| :: HasSuccessor(a[i], c)) <==> !SkipsAState(a, c)
  {
    hide IsSuccession, KnownState, KeyOf, HasSuccessor;
    forall i | 0 <= i < |a|
      ensures !SkipsAState(a, c) ==> HasSuccessor(a[i], c)
    {
      var now := OverTwoSteps(a, b, c, a[i]);
    }
    if SkipsAState(a, c) {
      var was, now :| was in a && now in c && IsIdentified(was) && IsIdentified(now) && KeyOf(was) == KeyOf(now)
        && KnownState(StateOf(was)) == Some(Released) && KnownState(StateOf(now)) == Some(Retired);
      var found := OverTwoSteps(a, b, c, was);
      SameKeySameRecord(c, found, now);
      var i :| 0 <= i < |a| && a[i] == was;
    }
  }

  lemma Births(a: seq<Json>, c: seq<Json>)
    requires WellIdentified(c)
    ensures (forall j | 0 <= j < |c| :: IsBornOrCarried(a, c[j])) <==> !BornPastReleased(a, c)
  {
    hide KnownState, KeyOf, Carries;
    if BornPastReleased(a, c) {
      var now :| now in c && IsIdentified(now) && !Carries(a, KeyOf(now)) && KnownState(StateOf(now)) != Some(Released);
      var j :| 0 <= j < |c| && c[j] == now;
      assert !IsBornOrCarried(a, c[j]);
    }
  }

  /** Acceptance is stepwise only: two accepted steps need not make one accepted step. */
  lemma SuccessionIsNotTransitive()
    ensures IsSuccession([Sample("Released")], [Sample("Deprecated")])
    ensures IsSuccession([Sample("Deprecated")], [Sample("Retired")])
    ensures !IsSuccession([Sample("Released")], [Sample("Retired")])
  {
    SampleSucceeds("Released", "Deprecated");
    SampleSucceeds("Deprecated", "Retired");
    SampleSucceeds("Released", "Retired");
    assert "Released"[0] == 'R' && "Deprecated"[0] == 'D' && |"Retired"| == 7 && |"Released"| == 8;
    hide IsSuccession, Sample;
  }
}
