/** The writer and the reader as they run: loops over the lists, the rows and the bytes. */
module ManifestIo {
  import opened Options
  import opened Utf8
  import opened Ordering
  import opened Decimal
  import opened Rows
  import opened Manifest
  import opened ManifestProofs
  import opened ManifestTheorems

  // ------------------------------------------------------------------ the writer

  method CheckDenies(nfc: string -> bool, deny: seq<string>) returns (rules: seq<Rule>)
    ensures rules == [] <==> DeniesOk(nfc, deny)
    ensures forall rule | rule in rules :: rule == BadDeny
  {
    rules := [];
    var seen: set<string> := {};
    for i := 0 to |deny|
      invariant seen == set k | 0 <= k < i :: deny[k]
      invariant rules == [] <==> DeniesOk(nfc, deny[..i])
      invariant forall rule | rule in rules :: rule == BadDeny
    {
      ghost var before := deny[..i];
      assert deny[..i + 1] == before + [deny[i]];
      assert (deny[i] in seen) <==> exists k :: 0 <= k < i && before[k] == deny[i];
      if !TokenOk(nfc, deny[i]) {
        rules := rules + [BadDeny];
      }
      if deny[i] in seen {
        rules := rules + [BadDeny];
      }
      seen := seen + {deny[i]};
    }
    assert deny[..|deny|] == deny;
  }

  method CheckMembers(nfc: string -> bool, members: seq<Member>, bad: Rule) returns (rules: seq<Rule>)
    ensures rules == [] <==> MembersOk(nfc, members)
    ensures forall rule | rule in rules :: rule == bad
  {
    rules := [];
    var seen: set<string> := {};
    for i := 0 to |members|
      invariant seen == set k | 0 <= k < i :: members[k].id
      invariant rules == [] <==> MembersOk(nfc, members[..i])
      invariant forall rule | rule in rules :: rule == bad
    {
      ghost var before := members[..i];
      assert members[..i + 1] == before + [members[i]];
      assert (members[i].id in seen) <==> exists k :: 0 <= k < i && before[k].id == members[i].id;
      if !MemberOk(nfc, members[i]) {
        rules := rules + [bad];
      }
      if members[i].id in seen {
        rules := rules + [bad];
      }
      seen := seen + {members[i].id};
      hide MemberOk;
    }
    assert members[..|members|] == members;
  }

  method CheckOverlap(required: seq<Member>, optional: seq<Member>) returns (overlaps: bool)
    ensures overlaps <==> !NoOverlap(required, optional)
  {
    var requiredIds := set i | 0 <= i < |required| :: required[i].id;
    for j := 0 to |optional|
      invariant forall k | 0 <= k < j :: optional[k].id !in requiredIds
    {
      if optional[j].id in requiredIds {
        return true;
      }
    }
    overlaps := false;
  }

  predicate TokensOk(nfc: string -> bool, r: Release) {
    && TokenOk(nfc, r.family) && TokenOk(nfc, r.runnerClass) && TokenOk(nfc, r.requiredFailure)
    && TokenOk(nfc, r.optionalFailure) && TokenOk(nfc, r.overrideAuthority)
  }

  /** The rules a logical release breaks: each is reported exactly when it is broken. */
  ghost predicate Breaks(nfc: string -> bool, r: Release, rule: Rule) {
    match rule
    case BadToken => !TokensOk(nfc, r)
    case BadFamily => TokenOk(nfc, r.family) && !IsFamilyId(r.family)
    case BadVersion => !IsVersion(r.version)
    case BadInteger => !IntOk(r.maxBytes) || !IntOk(r.maxFreshnessDays)
    case BadDeny => !DeniesOk(nfc, r.deny)
    case BadRequired => !MembersOk(nfc, r.required)
    case BadOptional => !MembersOk(nfc, r.optional)
    case Overlap => !NoOverlap(r.required, r.optional)
    case _ => false
  }

  method CheckScalars(nfc: string -> bool, r: Release) returns (rules: seq<Rule>)
    ensures forall rule :: rule in rules <==> rule in {BadToken, BadFamily, BadVersion, BadInteger} && Breaks(nfc, r, rule)
  {
    hide TokenOk, IsFamilyId, IsVersion, DeniesOk, MembersOk, NoOverlap, IntOk;
    rules := [];
    if !TokenOk(nfc, r.family) {
      rules := rules + [BadToken];
    } else if !IsFamilyId(r.family) {
      rules := rules + [BadFamily];
    }
    if !TokenOk(nfc, r.runnerClass) || !TokenOk(nfc, r.requiredFailure) || !TokenOk(nfc, r.optionalFailure)
       || !TokenOk(nfc, r.overrideAuthority) {
      rules := rules + [BadToken];
    }
    if !IsVersion(r.version) {
      rules := rules + [BadVersion];
    }
    if !IntOk(r.maxBytes) || !IntOk(r.maxFreshnessDays) {
      rules := rules + [BadInteger];
    }
  }

  method CheckRelease(nfc: string -> bool, r: Release) returns (rules: seq<Rule>)
    ensures forall rule :: rule in rules <==> Breaks(nfc, r, rule)
    ensures rules == [] <==> Acceptable(nfc, r)
  {
    hide TokensOk, TokenOk, IsFamilyId, IsVersion, DeniesOk, MembersOk, NoOverlap, IntOk;
    var scalarRules := CheckScalars(nfc, r);
    var denyRules := CheckDenies(nfc, r.deny);
    var requiredRules := CheckMembers(nfc, r.required, BadRequired);
    var optionalRules := CheckMembers(nfc, r.optional, BadOptional);
    var overlaps := CheckOverlap(r.required, r.optional);
    rules := scalarRules + denyRules + requiredRules + optionalRules + if overlaps then [Overlap] else [];
    InRules(denyRules, BadDeny);
    InRules(requiredRules, BadRequired);
    InRules(optionalRules, BadOptional);
    BreaksNothing(nfc, r);
    hide Acceptable;
    assert forall rule :: rule in rules <==> Breaks(nfc, r, rule);
    assert rules != [] ==> rules[0] in rules;
  }

  lemma InRules(rules: seq<Rule>, bad: Rule)
    requires forall rule | rule in rules :: rule == bad
    ensures bad in rules <==> rules != []
  {
    assert rules != [] ==> rules[0] in rules;
  }

  /** A release is acceptable exactly when it breaks no rule. */
  lemma BreaksNothing(nfc: string -> bool, r: Release)
    ensures (forall rule :: !Breaks(nfc, r, rule)) <==> Acceptable(nfc, r)
  {
    hide TokenOk, IsFamilyId, IsVersion, DeniesOk, MembersOk, NoOverlap, IntOk;
    if forall rule :: !Breaks(nfc, r, rule) {
      assert !Breaks(nfc, r, BadToken) && !Breaks(nfc, r, BadFamily) && !Breaks(nfc, r, BadVersion) && !Breaks(nfc, r, BadInteger);
      assert !Breaks(nfc, r, BadDeny) && !Breaks(nfc, r, BadRequired) && !Breaks(nfc, r, BadOptional) && !Breaks(nfc, r, Overlap);
    }
  }

  /** Concatenate chunks, each a row ended by LF. */
  method WriteRows(rows: seq<string>) returns (out: Bytes)
    requires rows != []
    ensures out == Encode(Text(rows))
  {
    out := [];
    for i := 0 to |rows|
      invariant out == if i == 0 then [] else Encode(Text(rows[..i]))
    {
      OneMoreRow(rows, i);
      out := out + (Encode(rows[i]) + [0x0A]);
    }
    assert rows[..|rows|] == rows;
  }

  lemma OneMoreRow(rows: seq<string>, i: nat)
    requires i < |rows|
    ensures Encode(Text(rows[..i + 1])) == (if i == 0 then [] else Encode(Text(rows[..i]))) + (Encode(rows[i]) + [0x0A])
  {
    var before := if i == 0 then [] else Text(rows[..i]);
    JoinSnoc(rows[..i], rows[i]);
    assert rows[..i + 1] == rows[..i] + [rows[i]];
    assert Text(rows[..i + 1]) == before + (rows[i] + [LF]);
    EncodeJoins(before, rows[i] + [LF]);
    EncodeJoins(rows[i], [LF]);
    assert Encode([LF]) == [0x0A] by {
      assert [LF][1..] == [];
    }
  }

  lemma {:induction false} JoinSnoc(rows: seq<string>, row: string)
    ensures JoinWith(rows + [row], LF) == if rows == [] then row else JoinWith(rows, LF) + [LF] + row
  {
    var all := rows + [row];
    if rows == [] {
      assert all == [row];
    } else {
      assert all[0] == rows[0] && all[1..] == rows[1..] + [row];
      JoinSnoc(rows[1..], row);
    }
  }

  /** Write a release, or report every rule it breaks. */
  method CanonicalSetReleaseManifest(nfc: string -> bool, r: Release) returns (result: Result<Bytes>)
    ensures result.Ok? <==> Canonical(nfc, r).Some?
    ensures result.Ok? ==> Canonical(nfc, r) == Some(result.value)
    ensures result.Refused? ==> result.rules != [] && forall rule :: rule in result.rules <==> Breaks(nfc, r, rule)
  {
    var rules := CheckRelease(nfc, r);
    if |rules| > 0 {
      return Refused(rules);
    }
    var out := WriteRows(RowsOf(Sorted(r)));
    result := Ok(out);
  }

  // ------------------------------------------------------------------ the reader

  function After<T>(read: seq<T>, rest: Result<seq<T>>): Result<seq<T>> {
    match rest
    case Ok(more) => Ok(read + more)
    case Refused(rules) => Refused(rules)
  }

  /** What one more scalar row does to the reading. */
  lemma OneScalar(nfc: string -> bool, rows: seq<string>, names: seq<string>, i: nat, values: seq<string>)
    requires i < |names| && i <= |rows|
    ensures var rest := ParseScalars(nfc, rows[i..], names[i..]);
      if i == |rows| then rest == Refused([ScalarMissing])
      else
        var (key, value) := KeyValue(rows[i]);
        if key != names[i] then rest == Refused([ScalarOrder])
        else if !TokenOk(nfc, value) then rest == Refused([BadToken])
        else After(values, rest) == After(values + [value], ParseScalars(nfc, rows[i + 1..], names[i + 1..]))
  {
    hide TokenOk, KeyValue;
    assert names[i..][0] == names[i] && names[i..][1..] == names[i + 1..];
    if i < |rows| {
      assert rows[i..][0] == rows[i] && rows[i..][1..] == rows[i + 1..];
      var more := ParseScalars(nfc, rows[i + 1..], names[i + 1..]);
      var value := KeyValue(rows[i]).1;
      assert more.Ok? ==> values + ([value] + more.value) == values + [value] + more.value;
    }
  }

  method ReadScalars(nfc: string -> bool, rows: seq<string>, names: seq<string>) returns (result: Result<seq<string>>)
    ensures result == ParseScalars(nfc, rows, names)
  {
    var values: seq<string> := [];
    assert rows[0..] == rows && names[0..] == names;
    NothingRead(ParseScalars(nfc, rows, names));
    for i := 0 to |names|
      invariant i <= |rows|
      invariant ParseScalars(nfc, rows, names) == After(values, ParseScalars(nfc, rows[i..], names[i..]))
    {
      OneScalar(nfc, rows, names, i, values);
      hide TokenOk, KeyValue, ParseScalars;
      if i == |rows| {
        return Refused([ScalarMissing]);
      }
      var (key, value) := KeyValue(rows[i]);
      if key != names[i] {
        return Refused([ScalarOrder]);
      }
      if !TokenOk(nfc, value) {
        return Refused([BadToken]);
      }
      values := values + [value];
    }
    assert names[|names|..] == [] && values + [] == values;
    result := Ok(values);
  }

  lemma NothingRead<T>(rest: Result<seq<T>>)
    ensures After([], rest) == rest
  {
    assert rest.Ok? ==> [] + rest.value == rest.value;
  }

  method ReadSections(nfc: string -> bool, rows: seq<string>) returns (result: Result<Sections>)
    ensures result == ParseSections(nfc, rows, 0, Sections([], [], []))
  {
    hide TokenOk, ParseMember, IndexOf, SectionOf;
    var deny: seq<string>, required: seq<Member>, optional: seq<Member> := [], [], [];
    var section := 0;
    for i := 0 to |rows|
      invariant ParseSections(nfc, rows, 0, Sections([], [], []))
             == ParseSections(nfc, rows[i..], section, Sections(deny, required, optional))
    {
      var row := rows[i];
      assert rows[i..][0] == row && rows[i..][1..] == rows[i + 1..];
      var at := IndexOf(row, SP);
      if at == |row| {
        return Refused([RowName]);
      }
      var rest := row[at + 1..];
      var kind := SectionOf(row[..at]);
      if kind.None? {
        return Refused([UnknownField]);
      }
      if kind.value < section {
        return Refused([SectionOrder]);
      }
      section := kind.value;
      if section == 0 {
        if !TokenOk(nfc, rest) {
          return Refused([BadDeny]);
        }
        deny := deny + [rest];
        continue;
      }
      var member := ParseMember(nfc, rest);
      if member.None? {
        return Refused([BadMember]);
      }
      if section == 1 {
        required := required + [member.value];
      } else {
        optional := optional + [member.value];
      }
    }
    result := Ok(Sections(deny, required, optional));
  }

  method IsStrictlySorted(keys: seq<string>) returns (sorted: bool)
    ensures sorted <==> StrictlyAscending(keys)
  {
    for i := 0 to |keys|
      invariant forall k | 0 < k < i :: Below(Encode(keys[k - 1]), Encode(keys[k]))
    {
      if i > 0 {
        var order := ByBytes(keys[i - 1], keys[i]);
        if order >= 0 {
          return false;
        }
      }
    }
    sorted := true;
  }

  method ReadRows(nfc: string -> bool, rows: seq<string>) returns (result: Result<Release>)
    ensures result == ParseRows(nfc, rows)
  {
    hide ParseScalars, ParseSections, Assemble, StrictlyAscending, SCALARS, FORMAT;
    if rows == [] || rows[0] != FORMAT {
      return Refused([Prefix]);
    }
    var scalars := ReadScalars(nfc, rows[1..], SCALARS);
    if scalars.Refused? {
      return Refused(scalars.rules);
    }
    TenNames();
    var early := Assemble(scalars.value, Sections([], [], []));
    if early.Refused? {
      return Refused(early.rules);
    }
    var sections := ReadSections(nfc, rows[11..]);
    if sections.Refused? {
      return Refused(sections.rules);
    }
    var s := sections.value;
    var denySorted := IsStrictlySorted(s.deny);
    var requiredSorted := IsStrictlySorted(Ids(s.required));
    var optionalSorted := IsStrictlySorted(Ids(s.optional));
    if !denySorted || !requiredSorted || !optionalSorted {
      return Refused([Unsorted]);
    }
    var overlaps := CheckOverlap(s.required, s.optional);
    if overlaps {
      return Refused([Overlap]);
    }
    result := Assemble(scalars.value, s);
  }

  /** The reader over bytes: byte-level refusals first, then the rows. */
  method ParseSetReleaseManifest(nfc: string -> bool, bytes: Bytes) returns (result: Result<Release>)
    ensures result == Parse(nfc, bytes)
  {
    hide ParseRows, Decode, SplitOn;
    if |bytes| >= 3 && bytes[0] == 0xEF && bytes[1] == 0xBB && bytes[2] == 0xBF {
      return Refused([Bom]);
    }
    if 0x0D in bytes {
      return Refused([CarriageReturn]);
    }
    if |bytes| == 0 || bytes[|bytes| - 1] != 0x0A {
      return Refused([FinalLf]);
    }
    var decoded := Decode(bytes);
    if decoded.None? {
      return Refused([Encoding]);
    }
    var text := decoded.value;
    if text == [] {
      return Refused([Prefix]);
    }
    result := ReadRows(nfc, SplitOn(text[..|text| - 1], LF));
  }

  /** Read, write back, and compare. */
  method IsCanonicalSetReleaseManifest(nfc: string -> bool, bytes: Bytes) returns (result: Result<Bytes>)
    ensures result.Ok? <==> IsCanonical(nfc, bytes).Ok?
    ensures result.Ok? ==> result.value == bytes
  {
    hide Parse, Canonical;
    var parsed := ParseSetReleaseManifest(nfc, bytes);
    if parsed.Refused? {
      return Refused(parsed.rules);
    }
    var round := CanonicalSetReleaseManifest(nfc, parsed.value);
    if round.Refused? {
      return round;
    }
    if round.value != bytes {
      return Refused([Noncanonical]);
    }
    result := round;
  }

  // --------------------------------------------------- what is not canonical, concretely

  const SAMPLE: Release :=
    Release("family", JoinWith(["1", "0", "0"], '.'), "x", true, true, Exact(1), Exact(1), "x", "x", "x", [], [], [])

  lemma SampleVersion()
    ensures IsVersion(JoinWith(["1", "0", "0"], '.'))
  {
    hide SplitOn, JoinWith;
    var parts := ["1", "0", "0"];
    assert AllFree(parts, '.') && forall i | 0 <= i < 3 :: AllDigits(parts[i]);
    hide AllFree, AllDigits;
    SplitJoined(parts, '.');
  }

  lemma SampleTokens(nfc: string -> bool)
    requires AsciiIsNfc(nfc)
    ensures TokenOk(nfc, "family") && TokenOk(nfc, "x") && IsFamilyId("family")
  {
    AsciiToken(nfc, "family");
    AsciiToken(nfc, "x");
    hide TokenOk;
  }

  lemma SampleIsReadable(nfc: string -> bool)
    requires AsciiIsNfc(nfc)
    ensures ScalarsOk(nfc, SAMPLE) && ListsOk(nfc, SAMPLE)
  {
    hide TokenOk, IsFamilyId, IsVersion, JoinWith;
    SampleTokens(nfc);
    SampleVersion();
  }

  lemma AsciiToken(nfc: string -> bool, s: string)
    requires AsciiIsNfc(nfc) && s != [] && forall i | 0 <= i < |s| :: 0x20 < s[i] as int < 0x7F
    ensures TokenOk(nfc, s)
  {
  }

  lemma OneIsShortest()
    ensures IsShortest("1") && NumberOf("1") == Exact(1)
  {
    assert "1"[..0] == [];
  }

  lemma BareKeyValue(word: string)
    requires SP !in word
    ensures KeyValue(word) == (word, word) == KeyValue(ScalarRow(word, word))
  {
    KeyValueOfRow(word, word);
  }

  lemma BareRowAlike(nfc: string -> bool, rows: seq<string>, word: string)
    requires |rows| >= 11 && SP !in word && rows[1] == ScalarRow(word, word)
    ensures ParseRows(nfc, rows[1 := word]) == ParseRows(nfc, rows)
  {
    hide ParseScalars, ParseSections, Assemble, KeyValue, FORMAT, SCALARS, StrictlyAscending, ScalarRow;
    var bare := rows[1 := word];
    BareKeyValue(word);
    assert bare[1..][0] == word && rows[1..][0] == rows[1];
    assert bare[1..][1..] == rows[1..][1..] && bare[11..] == rows[11..];
    SameScalars(nfc, bare[1..], rows[1..], SCALARS);
  }

  /** Scalars are read from keys and values alone. */
  lemma SameScalars(nfc: string -> bool, a: seq<string>, b: seq<string>, names: seq<string>)
    requires a != [] && b != [] && KeyValue(a[0]) == KeyValue(b[0]) && a[1..] == b[1..]
    ensures ParseScalars(nfc, a, names) == ParseScalars(nfc, b, names)
  {
    hide TokenOk, KeyValue;
  }

  /** A row that lost its SP: the bytes are read as before, and are no longer canonical. */
  lemma BareRowBreaks(nfc: string -> bool, rows: seq<string>, word: string, r: Release) returns (b: Bytes)
    requires AsciiIsNfc(nfc) && |rows| >= 11 && AllFree(rows, LF) && AllFree(rows, CR) && rows[0] == FORMAT
    requires SP !in word && LF !in word && CR !in word && rows[1] == ScalarRow(word, word)
    requires ParseRows(nfc, rows) == Ok(r)
    ensures Parse(nfc, b) == Ok(r) && !IsCanonical(nfc, b).Ok?
  {
    var bare := rows[1 := word];
    BareIsLine(rows, word);
    hide ParseRows, AllFree, ScalarRow, FORMAT, Text, Encode, Decode, SplitOn, Parse, IsCanonical, LinesOf, ScalarsHaveSpace;
    BareRowAlike(nfc, rows, word);
    ParseOfText(nfc, bare);
    b := Encode(Text(bare));
    CanonicalExactly(nfc, b);
    LinesOfEncoded(bare);
  }

  lemma BareIsLine(rows: seq<string>, word: string)
    requires |rows| >= 11 && AllFree(rows, LF) && AllFree(rows, CR) && SP !in word && LF !in word && CR !in word
    ensures var bare := rows[1 := word]; AllFree(bare, LF) && AllFree(bare, CR) && !ScalarsHaveSpace(bare)
  {
    assert SP !in rows[1 := word][1];
  }

  lemma LinesOfEncoded(rows: seq<string>)
    requires rows != [] && AllFree(rows, LF)
    ensures LinesOf(Encode(Text(rows))) == rows
  {
    hide Text, Encode, Decode, SplitOn, AllFree;
    LinesOfText(rows);
    DecodeEncoded(Text(rows));
  }

  /** A `family` row without SP is read as a release whose family is "family", and is not canonical. */
  lemma BareRowParses(nfc: string -> bool) returns (b: Bytes)
    requires AsciiIsNfc(nfc)
    ensures Parse(nfc, b) == Ok(SAMPLE) && !IsCanonical(nfc, b).Ok?
  {
    SampleIsReadable(nfc);
    OneIsShortest();
    FamilyRow();
    hide ScalarsOk, ListsOk, IsShortest, NumberOf, RowsWith, ParseRows, AllFree, Parse, IsCanonical, FORMAT;
    ParsePrintedRows(nfc, SAMPLE, "1", "1");
    PrintedRowsAreLines(nfc, SAMPLE, "1", "1");
    b := BareRowBreaks(nfc, RowsWith(SAMPLE, "1", "1"), "family", SAMPLE);
  }

  lemma FamilyRow()
    ensures var rows := RowsWith(SAMPLE, "1", "1");
      |rows| >= 11 && rows[0] == FORMAT && rows[1] == ScalarRow("family", "family")
    ensures SP !in "family" && LF !in "family" && CR !in "family"
  {
    hide ScalarRow, SectionRows;
    RowsInParts(SAMPLE, "1", "1");
    ValuesInOrder(SAMPLE, "1", "1");
    var rows := RowsWith(SAMPLE, "1", "1");
    assert rows[1] == rows[1..][0];
  }

  /** An integer above 2^53 - 1 is read, but cannot be written again. */
  lemma UnsafeIntegerParses(nfc: string -> bool) returns (b: Bytes)
    requires AsciiIsNfc(nfc)
    ensures Parse(nfc, b) == Ok(SAMPLE.(maxBytes := Inexact)) && !IsCanonical(nfc, b).Ok?
  {
    var unsafe := Digits(MAX_SAFE + 1);
    DigitsAreShortest(MAX_SAFE + 1);
    SampleIsReadable(nfc);
    OneIsShortest();
    assert NumberOf(unsafe) == Inexact;
    hide ScalarsOk, ListsOk, IsShortest, NumberOf, Digits, RowsWith, ParseRows, AllFree, Parse, IsCanonical, Text, Encode;
    ParsePrintedRows(nfc, SAMPLE, unsafe, "1");
    PrintedRowsAreLines(nfc, SAMPLE, unsafe, "1");
    RowsInParts(SAMPLE, unsafe, "1");
    ParseOfText(nfc, RowsWith(SAMPLE, unsafe, "1"));
    b := Encode(Text(RowsWith(SAMPLE, unsafe, "1")));
    CanonicalExactly(nfc, b);
  }
}
