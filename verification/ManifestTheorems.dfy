/** Byte-level theorems about the set-release manifest. */
module ManifestTheorems {
  import opened Options
  import opened Utf8
  import opened Ordering
  import opened Decimal
  import opened Rows
  import opened Manifest
  import opened ManifestProofs

  // --------------------------------------------------------- whole lists of rows

  lemma ScalarNames()
    ensures |SCALARS| == 10 && AllFree(SCALARS, SP)
  {
    assert forall i | 0 <= i < |SCALARS| :: forall j | 0 <= j < |SCALARS[i]| :: SCALARS[i][j] != SP;
  }

  lemma TenValues(r: Release, maxBytes: string, maxDays: string)
    ensures |SCALARS| == 10 == |ScalarValues(r, maxBytes, maxDays)| && AllFree(SCALARS, SP)
  {
    ScalarNames();
  }

  /** Lists the reader takes as they stand. */
  ghost predicate ListsOk(nfc: string -> bool, r: Release) {
    && (forall i | 0 <= i < |r.deny| :: TokenOk(nfc, r.deny[i]))
    && (forall i | 0 <= i < |r.required| :: MemberOk(nfc, r.required[i]))
    && (forall i | 0 <= i < |r.optional| :: MemberOk(nfc, r.optional[i]))
    && StrictlyAscending(r.deny) && StrictlyAscending(Ids(r.required)) && StrictlyAscending(Ids(r.optional))
    && NoOverlap(r.required, r.optional)
  }

  lemma ScalarValuesAreTokens(nfc: string -> bool, r: Release, maxBytes: string, maxDays: string)
    requires AsciiIsNfc(nfc) && ScalarsOk(nfc, r) && IsShortest(maxBytes) && IsShortest(maxDays)
    ensures var values := ScalarValues(r, maxBytes, maxDays); forall i | 0 <= i < |values| :: TokenOk(nfc, values[i])
  {
    hide TokenOk, IsVersion;
    VersionIsToken(nfc, r.version);
    BoolIsToken(nfc, r.allowTaskAdditions);
    BoolIsToken(nfc, r.allowTaskNarrowing);
    NumberIsToken(nfc, maxBytes);
    NumberIsToken(nfc, maxDays);
  }

  function WithNumbers(r: Release, maxBytes: Number, maxDays: Number): Release {
    r.(maxBytes := maxBytes, maxFreshnessDays := maxDays)
  }

  lemma AssembleValues(nfc: string -> bool, r: Release, maxBytes: string, maxDays: string, s: Sections)
    requires AsciiIsNfc(nfc) && IsVersion(r.version) && IsFamilyId(r.family) && IsShortest(maxBytes) && IsShortest(maxDays)
    ensures Assemble(ScalarValues(r, maxBytes, maxDays), s)
         == Ok(WithNumbers(r.(deny := s.deny, required := s.required, optional := s.optional), NumberOf(maxBytes), NumberOf(maxDays)))
  {
    hide IsVersion, IsFamilyId, IsShortest, NumberOf, ParseBool, BoolText, TokenOk, ScalarValues;
    BoolIsToken(nfc, r.allowTaskAdditions);
    BoolIsToken(nfc, r.allowTaskNarrowing);
    ValuesInOrder(r, maxBytes, maxDays);
  }

  lemma ValuesInOrder(r: Release, maxBytes: string, maxDays: string)
    ensures var v := ScalarValues(r, maxBytes, maxDays);
      && |v| == 10 && v[0] == r.family && v[1] == r.version && v[2] == r.runnerClass
      && v[3] == BoolText(r.allowTaskAdditions) && v[4] == BoolText(r.allowTaskNarrowing) && v[5] == maxBytes && v[6] == maxDays
      && v[7] == r.requiredFailure && v[8] == r.optionalFailure && v[9] == r.overrideAuthority
  {
    hide BoolText;
  }

  lemma RowsInParts(r: Release, maxBytes: string, maxDays: string)
    ensures var rows := RowsWith(r, maxBytes, maxDays);
      var scalars := ScalarRows(SCALARS, ScalarValues(r, maxBytes, maxDays));
      var sections := SectionRows(r.deny, r.required, r.optional);
      && |rows| >= 11 && rows[0] == FORMAT && rows[1..] == scalars + sections && rows[11..] == sections
      && rows == [FORMAT] + scalars + sections && |scalars| == 10
  {
    hide SectionRows, ScalarRow;
  }

  /** The reader takes printed rows back to what was printed, whatever the two integers are. */
  lemma ParsePrintedRows(nfc: string -> bool, r: Release, maxBytes: string, maxDays: string)
    requires AsciiIsNfc(nfc) && ScalarsOk(nfc, r) && ListsOk(nfc, r) && IsShortest(maxBytes) && IsShortest(maxDays)
    ensures ParseRows(nfc, RowsWith(r, maxBytes, maxDays)) == Ok(WithNumbers(r, NumberOf(maxBytes), NumberOf(maxDays)))
  {
    hide ParseScalars, ParseSections, Assemble, TokenOk, MemberOk, StrictlyAscending, NumberOf, IsShortest, IsVersion, IsFamilyId,
      RowsWith, ScalarRows, SectionRows, ScalarValues, FORMAT, SCALARS;
    var values := ScalarValues(r, maxBytes, maxDays);
    var sections := SectionRows(r.deny, r.required, r.optional);
    var rows := RowsWith(r, maxBytes, maxDays);
    TenValues(r, maxBytes, maxDays);
    RowsInParts(r, maxBytes, maxDays);
    ScalarValuesAreTokens(nfc, r, maxBytes, maxDays);
    ParsePrintedScalars(nfc, SCALARS, values, sections);
    ParsePrintedSections(nfc, r.deny, r.required, r.optional);
    AssembleValues(nfc, r, maxBytes, maxDays, Sections([], [], []));
    AssembleValues(nfc, r, maxBytes, maxDays, Sections(r.deny, r.required, r.optional));
  }

  ghost predicate ScalarsHaveSpace(rows: seq<string>) {
    |rows| >= 11 && forall i | 1 <= i < 11 :: SP in rows[i]
  }

  lemma AssembledFrom(values: seq<string>, s: Sections)
    requires |values| == 10 && Assemble(values, s).Ok?
    ensures var r := Assemble(values, s).value;
      && IsShortest(values[5]) && IsShortest(values[6])
      && ScalarValues(r, values[5], values[6]) == values
      && r.maxBytes == NumberOf(values[5]) && r.maxFreshnessDays == NumberOf(values[6])
      && r.deny == s.deny && r.required == s.required && r.optional == s.optional
      && IsVersion(r.version) && IsFamilyId(r.family)
  {
    hide IsVersion, IsFamilyId, NumberOf, IsShortest;
  }

  /** What the reader did with rows it took. */
  lemma ParsedInParts(nfc: string -> bool, rows: seq<string>)
    requires ParseRows(nfc, rows).Ok?
    ensures rows != [] && rows[0] == FORMAT
    ensures ParseScalars(nfc, rows[1..], SCALARS).Ok? && |ParseScalars(nfc, rows[1..], SCALARS).value| == 10 && |rows| >= 11
    ensures ParseSections(nfc, rows[11..], 0, Sections([], [], [])).Ok?
    ensures var values := ParseScalars(nfc, rows[1..], SCALARS).value;
      var s := ParseSections(nfc, rows[11..], 0, Sections([], [], [])).value;
      && Assemble(values, s) == ParseRows(nfc, rows)
      && StrictlyAscending(s.deny) && StrictlyAscending(Ids(s.required)) && StrictlyAscending(Ids(s.optional))
      && NoOverlap(s.required, s.optional)
  {
    ScalarNames();
    hide ParseScalars, ParseSections, StrictlyAscending, SCALARS, FORMAT;
  }

  lemma SplitRows(rows: seq<string>)
    requires |rows| >= 11
    ensures rows == [rows[0]] + rows[1..][..10] + rows[11..]
    ensures ScalarsHaveSpace(rows) ==> forall i | 0 <= i < 10 :: SP in rows[1..][i]
  {
    assert rows[1..][..10] == rows[1..11];
  }

  /** Rows the reader takes, and whose scalar rows hold SP, are the printed form of the release. */
  lemma PrintParsedRows(nfc: string -> bool, rows: seq<string>) returns (maxBytes: string, maxDays: string)
    requires AsciiIsNfc(nfc) && ParseRows(nfc, rows).Ok? && ScalarsHaveSpace(rows)
    ensures var r := ParseRows(nfc, rows).value;
      && IsShortest(maxBytes) && IsShortest(maxDays)
      && rows == RowsWith(r, maxBytes, maxDays)
      && r.maxBytes == NumberOf(maxBytes) && r.maxFreshnessDays == NumberOf(maxDays)
      && ScalarsOk(nfc, r) && ListsOk(nfc, r)
  {
    hide ParseScalars, ParseSections, Assemble, TokenOk, MemberOk, StrictlyAscending, NumberOf, IsShortest, IsVersion, IsFamilyId,
      ScalarRows, SectionRows, SCALARS, FORMAT, ParseRows, ScalarsHaveSpace, RowsWith, ScalarValues, ListsOk, ScalarsOk, ReadFrom,
      NoOverlap;
    ParsedInParts(nfc, rows);
    SplitRows(rows);
    var values := ParseScalars(nfc, rows[1..], SCALARS).value;
    TenNames();
    PrintParsedScalars(nfc, rows[1..], SCALARS);
    var s := ParseSections(nfc, rows[11..], 0, Sections([], [], [])).value;
    var d, q, o := PrintParsedSections(nfc, rows[11..], 0, Sections([], [], []));
    ReadAll(nfc, rows[11..], s, d, q, o);
    AssembledFrom(values, s);
    maxBytes, maxDays := values[5], values[6];
    var r := ParseRows(nfc, rows).value;
    ValuesAreScalars(nfc, r, values, maxBytes, maxDays);
    ListsRead(nfc, r);
    RowsInParts(r, maxBytes, maxDays);
  }

  lemma ReadAll(nfc: string -> bool, rows: seq<string>, s: Sections, d: seq<string>, q: seq<Member>, o: seq<Member>)
    requires ReadFrom(nfc, rows, 0, Sections([], [], []), s, d, q, o)
    ensures rows == SectionRows(s.deny, s.required, s.optional)
    ensures forall i | 0 <= i < |s.deny| :: TokenOk(nfc, s.deny[i])
    ensures forall i | 0 <= i < |s.required| :: MemberOk(nfc, s.required[i])
    ensures forall i | 0 <= i < |s.optional| :: MemberOk(nfc, s.optional[i])
  {
    hide SectionRows, TokenOk, MemberOk;
    assert [] + d == d && [] + q == q && [] + o == o;
  }

  lemma ListsRead(nfc: string -> bool, r: Release)
    requires forall i | 0 <= i < |r.deny| :: TokenOk(nfc, r.deny[i])
    requires forall i | 0 <= i < |r.required| :: MemberOk(nfc, r.required[i])
    requires forall i | 0 <= i < |r.optional| :: MemberOk(nfc, r.optional[i])
    requires StrictlyAscending(r.deny) && StrictlyAscending(Ids(r.required)) && StrictlyAscending(Ids(r.optional))
    requires NoOverlap(r.required, r.optional)
    ensures ListsOk(nfc, r)
  {
  }

  lemma TenNames()
    ensures |SCALARS| == 10
  {
  }

  lemma ValuesAreScalars(nfc: string -> bool, r: Release, values: seq<string>, maxBytes: string, maxDays: string)
    requires ScalarValues(r, maxBytes, maxDays) == values && forall i | 0 <= i < |values| :: TokenOk(nfc, values[i])
    requires IsVersion(r.version) && IsFamilyId(r.family)
    ensures ScalarsOk(nfc, r)
  {
    hide TokenOk, IsVersion, IsFamilyId;
    assert values[0] == r.family && values[2] == r.runnerClass && values[7] == r.requiredFailure
        && values[8] == r.optionalFailure && values[9] == r.overrideAuthority;
  }

  // ----------------------------------------------------------------- whole bytes

  lemma MemberTextHasNo(nfc: string -> bool, m: Member)
    requires MemberOk(nfc, m)
    ensures LF !in MemberText(m) && CR !in MemberText(m)
  {
    TokenHasNo(nfc, m.id);
    TokenHasNo(nfc, m.version);
    TokenHasNo(nfc, m.digest);
  }

  lemma RowHasNo(name: string, text: string, c: char)
    requires c !in name && c !in text && c != SP
    ensures c !in ScalarRow(name, text)
  {
  }

  lemma ScalarRowsHaveNo(nfc: string -> bool, values: seq<string>, c: char)
    requires |values| == |SCALARS| && (c == LF || c == CR) && forall i | 0 <= i < |values| :: TokenOk(nfc, values[i])
    ensures AllFree(ScalarRows(SCALARS, values), c)
  {
    assert forall i | 0 <= i < |SCALARS| :: forall j | 0 <= j < |SCALARS[i]| :: SCALARS[i][j] != c;
    forall i | 0 <= i < |SCALARS|
      ensures c !in ScalarRow(SCALARS[i], values[i])
    {
      TokenHasNo(nfc, values[i]);
      RowHasNo(SCALARS[i], values[i], c);
    }
  }

  lemma SectionRowsHaveNo(nfc: string -> bool, r: Release, c: char)
    requires ListsOk(nfc, r) && (c == LF || c == CR)
    ensures AllFree(SectionRows(r.deny, r.required, r.optional), c)
  {
    hide StrictlyAscending, NoOverlap;
    forall i | 0 <= i < |r.deny|
      ensures c !in ScalarRow("deny", r.deny[i])
    {
      TokenHasNo(nfc, r.deny[i]);
      RowHasNo("deny", r.deny[i], c);
    }
    forall i | 0 <= i < |r.required|
      ensures c !in ScalarRow("required", MemberText(r.required[i]))
    {
      MemberTextHasNo(nfc, r.required[i]);
      RowHasNo("required", MemberText(r.required[i]), c);
    }
    forall i | 0 <= i < |r.optional|
      ensures c !in ScalarRow("optional", MemberText(r.optional[i]))
    {
      MemberTextHasNo(nfc, r.optional[i]);
      RowHasNo("optional", MemberText(r.optional[i]), c);
    }
  }

  lemma FreeTogether(a: seq<string>, b: seq<string>, d: seq<string>, c: char)
    requires AllFree(a, c) && AllFree(b, c) && AllFree(d, c)
    ensures AllFree(a + b + d, c)
  {
  }

  lemma FormatIsALine()
    ensures AllFree([FORMAT], LF) && AllFree([FORMAT], CR)
  {
  }

  lemma PrintedRowsAreLines(nfc: string -> bool, r: Release, maxBytes: string, maxDays: string)
    requires AsciiIsNfc(nfc) && ScalarsOk(nfc, r) && ListsOk(nfc, r) && IsShortest(maxBytes) && IsShortest(maxDays)
    ensures var rows := RowsWith(r, maxBytes, maxDays); AllFree(rows, LF) && AllFree(rows, CR)
  {
    hide ScalarsOk, ListsOk, IsShortest, ScalarRows, SectionRows, TokenOk, AllFree, SCALARS, FORMAT, ScalarValues, RowsWith;
    FormatIsALine();
    RowsInParts(r, maxBytes, maxDays);
    TenValues(r, maxBytes, maxDays);
    ScalarValuesAreTokens(nfc, r, maxBytes, maxDays);
    var values := ScalarValues(r, maxBytes, maxDays);
    var sections := SectionRows(r.deny, r.required, r.optional);
    forall c | c == LF || c == CR
      ensures AllFree(RowsWith(r, maxBytes, maxDays), c)
    {
      ScalarRowsHaveNo(nfc, values, c);
      SectionRowsHaveNo(nfc, r, c);
      FreeTogether([FORMAT], ScalarRows(SCALARS, values), sections, c);
    }
  }

  lemma LineFeedByte()
    ensures Encode([LF]) == [0x0A]
  {
    assert [LF][1..] == [];
  }

  lemma FirstByte(text: string)
    requires text != [] && text[0] == 'o'
    ensures Encode(text) != [] && Encode(text)[0] == 0x6F
  {
  }

  lemma BytesOfText(rows: seq<string>)
    requires rows != [] && rows[0] == FORMAT && AllFree(rows, CR)
    ensures var b := Encode(Text(rows));
      b != [] && b[0] == 0x6F && 0x0D !in b && b[|b| - 1] == 0x0A
  {
    hide AllFree, JoinWith, FORMAT, Encode;
    var body := JoinWith(rows, LF);
    StartsWithFormat(rows);
    NoCarriageReturn(rows);
    AsciiBytesAreCharacters(Text(rows), CR);
    EncodeJoins(body, [LF]);
    LineFeedByte();
    FirstByte(body);
  }

  lemma LinesOfText(rows: seq<string>)
    requires rows != [] && AllFree(rows, LF)
    ensures var text := Text(rows); text != [] && SplitOn(text[..|text| - 1], LF) == rows
  {
    SplitJoined(rows, LF);
    assert Text(rows)[..|Text(rows)| - 1] == JoinWith(rows, LF);
  }

  /** Reading the bytes of whole lines is reading the lines. */
  lemma ParseOfText(nfc: string -> bool, rows: seq<string>)
    requires rows != [] && rows[0] == FORMAT && AllFree(rows, LF) && AllFree(rows, CR)
    ensures Parse(nfc, Encode(Text(rows))) == ParseRows(nfc, rows)
  {
    BytesOfText(rows);
    LinesOfText(rows);
    DecodeEncoded(Text(rows));
    hide ParseRows, Encode, Decode, Text, SplitOn, AllFree;
  }

  lemma StartsWithFormat(rows: seq<string>)
    requires rows != [] && rows[0] == FORMAT
    ensures JoinWith(rows, LF) != [] && JoinWith(rows, LF)[0] == 'o'
  {
    assert FORMAT[0] == 'o';
  }

  lemma NoCarriageReturn(rows: seq<string>)
    requires AllFree(rows, CR)
    ensures CR !in Text(rows)
  {
    if CR in JoinWith(rows, LF) {
      JoinHas(rows, LF, CR);
    }
  }

  lemma EncodeOne(c: char)
    ensures Encode([c]) == EncodeChar(c)
  {
    assert [c][1..] == [];
  }

  lemma EndsInLineFeed(c: char)
    requires EncodeChar(c)[|EncodeChar(c)| - 1] == 0x0A
    ensures c == LF
  {
  }

  lemma LastByteIsLastCharacter(text: string)
    requires text != [] && Encode(text)[|Encode(text)| - 1] == 0x0A
    ensures text[|text| - 1] == LF
  {
    hide Encode, EncodeChar;
    var n := |text| - 1;
    EncodeJoins(text[..n], [text[n]]);
    assert text == text[..n] + [text[n]];
    EncodeOne(text[n]);
    EndsInLineFeed(text[n]);
  }

  /** Bytes the reader takes are the bytes of the lines it read. */
  lemma TextOfParsed(nfc: string -> bool, b: Bytes) returns (rows: seq<string>)
    requires Parse(nfc, b).Ok?
    ensures b == Encode(Text(rows)) && Parse(nfc, b) == ParseRows(nfc, rows)
    ensures rows == SplitOn(Decode(b).value[..|Decode(b).value| - 1], LF)
  {
    hide ParseRows;
    var text := Decode(b).value;
    EncodeDecoded(b);
    LastByteIsLastCharacter(text);
    var body := text[..|text| - 1];
    rows := SplitOn(body, LF);
    JoinSplit(body, LF);
    assert text == body + [LF];
  }

  // ------------------------------------------------------------------- sorting

  lemma DenyKeysDistinct(nfc: string -> bool, deny: seq<string>)
    requires DeniesOk(nfc, deny)
    ensures DistinctKeys(deny, TextKey)
  {
    forall i, j | 0 <= i < j < |deny|
      ensures Encode(deny[i]) != Encode(deny[j])
    {
      if Encode(deny[i]) == Encode(deny[j]) {
        EncodeInjective(deny[i], deny[j]);
      }
    }
  }

  lemma MemberKeysDistinct(members: seq<Member>)
    requires DistinctIds(members)
    ensures DistinctKeys(members, MemberKey)
  {
    forall i, j | 0 <= i < j < |members|
      ensures MemberKey(members[i]) != MemberKey(members[j])
    {
      if MemberKey(members[i]) == MemberKey(members[j]) {
        EncodeInjective(members[i].id, members[j].id);
      }
    }
  }

  lemma SortedMembers(nfc: string -> bool, members: seq<Member>)
    requires MembersOk(nfc, members)
    ensures var sorted := SortBy(members, MemberKey);
      && (forall i | 0 <= i < |sorted| :: sorted[i] in members && MemberOk(nfc, sorted[i]))
      && StrictlyAscending(Ids(sorted))
  {
    var sorted := SortBy(members, MemberKey);
    MemberKeysDistinct(members);
    SortKeeps(members, MemberKey);
    hide MemberOk;
    forall i | 0 <= i < |sorted|
      ensures sorted[i] in members && MemberOk(nfc, sorted[i])
    {
      assert sorted[i] in members;
      var k :| 0 <= k < |members| && members[k] == sorted[i];
    }
    forall i | 0 < i < |sorted|
      ensures Below(Encode(Ids(sorted)[i - 1]), Encode(Ids(sorted)[i]))
    {
      assert Below(MemberKey(sorted[i - 1]), MemberKey(sorted[i]));
    }
  }

  lemma SortedDenies(nfc: string -> bool, deny: seq<string>)
    requires DeniesOk(nfc, deny)
    ensures var sorted := SortBy(deny, TextKey);
      (forall i | 0 <= i < |sorted| :: TokenOk(nfc, sorted[i])) && StrictlyAscending(sorted)
  {
    var sorted := SortBy(deny, TextKey);
    DenyKeysDistinct(nfc, deny);
    SortKeeps(deny, TextKey);
    hide TokenOk;
    forall i | 0 <= i < |sorted|
      ensures TokenOk(nfc, sorted[i])
    {
      assert sorted[i] in deny;
      var k :| 0 <= k < |deny| && deny[k] == sorted[i];
    }
  }

  lemma SortedIsReadable(nfc: string -> bool, r: Release)
    requires Acceptable(nfc, r)
    ensures ScalarsOk(nfc, Sorted(r)) && ListsOk(nfc, Sorted(r))
  {
    hide TokenOk, MemberOk, StrictlyAscending, IsVersion, IsFamilyId, IntOk;
    SortedDenies(nfc, r.deny);
    SortedMembers(nfc, r.required);
    SortedMembers(nfc, r.optional);
    var q, o := SortBy(r.required, MemberKey), SortBy(r.optional, MemberKey);
    forall i, j | 0 <= i < |q| && 0 <= j < |o|
      ensures q[i].id != o[j].id
    {
      var a :| 0 <= a < |r.required| && r.required[a] == q[i];
      var b :| 0 <= b < |r.optional| && r.optional[b] == o[j];
    }
  }

  lemma NumberRoundTrip(n: Number)
    requires IntOk(n)
    ensures IsShortest(NumberText(n)) && NumberOf(NumberText(n)) == n
  {
    DigitsAreShortest(n.value);
  }

  // ------------------------------------------------------------------- theorems

  /** Whatever the writer writes, the reader reads back, with the three sets in byte order. */
  lemma RoundTrip(nfc: string -> bool, r: Release)
    requires AsciiIsNfc(nfc) && Acceptable(nfc, r)
    ensures Parse(nfc, Canonical(nfc, r).value) == Ok(Sorted(r))
  {
    SortedIsReadable(nfc, r);
    NumberRoundTrip(r.maxBytes);
    NumberRoundTrip(r.maxFreshnessDays);
    var t1, t2 := NumberText(r.maxBytes), NumberText(r.maxFreshnessDays);
    hide Acceptable, ScalarsOk, ListsOk, NumberText, NumberOf, IsShortest, Parse, ParseRows, IntOk;
    PrintedRowsAreLines(nfc, Sorted(r), t1, t2);
    ParsePrintedRows(nfc, Sorted(r), t1, t2);
    assert RowsWith(Sorted(r), t1, t2)[0] == FORMAT;
    ParseOfText(nfc, RowsWith(Sorted(r), t1, t2));
  }

  /** The same content, up to the order of the three sets. */
  ghost predicate SameUpToOrder(a: Release, b: Release) {
    && a == b.(deny := a.deny, required := a.required, optional := a.optional)
    && SameElements(a.deny, b.deny) && SameElements(a.required, b.required) && SameElements(a.optional, b.optional)
  }

  /** Two accepted releases share manifest bytes exactly when they agree up to array order. */
  lemma BytesIdentifyReleases(nfc: string -> bool, a: Release, b: Release)
    requires AsciiIsNfc(nfc) && Acceptable(nfc, a) && Acceptable(nfc, b)
    ensures Canonical(nfc, a) == Canonical(nfc, b) <==> SameUpToOrder(a, b)
  {
    DenyKeysDistinct(nfc, a.deny);
    DenyKeysDistinct(nfc, b.deny);
    MemberKeysDistinct(a.required);
    MemberKeysDistinct(b.required);
    MemberKeysDistinct(a.optional);
    MemberKeysDistinct(b.optional);
    SortIgnoresOrder(a.deny, b.deny, TextKey);
    SortIgnoresOrder(a.required, b.required, MemberKey);
    SortIgnoresOrder(a.optional, b.optional, MemberKey);
    RoundTrip(nfc, a);
    RoundTrip(nfc, b);
    hide Acceptable, Parse, SortBy, SameElements, DistinctKeys, RowsOf, Text;
    if Canonical(nfc, a) == Canonical(nfc, b) {
      assert Sorted(a) == Sorted(b);
    }
    if SameUpToOrder(a, b) {
      assert Sorted(a) == Sorted(b);
    }
  }

  lemma AscendingKeys(keys: seq<string>, i: nat, j: nat)
    requires StrictlyAscending(keys) && i < j < |keys|
    ensures Below(Encode(keys[i]), Encode(keys[j]))
    decreases j
  {
    if i < j - 1 {
      AscendingKeys(keys, i, j - 1);
      BelowIsTransitive(Encode(keys[i]), Encode(keys[j - 1]), Encode(keys[j]));
    }
  }

  lemma AscendingMembers(members: seq<Member>)
    requires StrictlyAscending(Ids(members))
    ensures SortBy(members, MemberKey) == members && DistinctIds(members)
  {
    forall i, j | 0 <= i < j < |members|
      ensures Below(MemberKey(members[i]), MemberKey(members[j])) && members[i].id != members[j].id
    {
      AscendingKeys(Ids(members), i, j);
      BelowIsTotal(MemberKey(members[i]), MemberKey(members[j]));
    }
    AscendingIsSorted(members, MemberKey);
  }

  lemma AscendingDenies(deny: seq<string>)
    requires StrictlyAscending(deny)
    ensures SortBy(deny, TextKey) == deny && forall i, j | 0 <= i < j < |deny| :: deny[i] != deny[j]
  {
    forall i, j | 0 <= i < j < |deny|
      ensures Below(Encode(deny[i]), Encode(deny[j])) && deny[i] != deny[j]
    {
      AscendingKeys(deny, i, j);
      BelowIsTotal(Encode(deny[i]), Encode(deny[j]));
    }
    AscendingIsSorted(deny, TextKey);
  }

  lemma ReadableIsSorted(nfc: string -> bool, r: Release)
    requires ScalarsOk(nfc, r) && ListsOk(nfc, r)
    ensures Sorted(r) == r && (Acceptable(nfc, r) <==> IntOk(r.maxBytes) && IntOk(r.maxFreshnessDays))
  {
    AscendingDenies(r.deny);
    AscendingMembers(r.required);
    AscendingMembers(r.optional);
    hide TokenOk, MemberOk, StrictlyAscending, IntOk, IsVersion, IsFamilyId, SortBy;
  }

  lemma SafeNumbers(s: string)
    requires IsShortest(s)
    ensures IntOk(NumberOf(s)) ==> NumberText(NumberOf(s)) == s
  {
    ShortestIsDigits(s);
  }

  /** The lines a reader of `b` would see. */
  ghost function LinesOf(b: Bytes): seq<string> {
    match Decode(b)
    case None => []
    case Some(text) => if text == [] then [] else SplitOn(text[..|text| - 1], LF)
  }

  lemma PrintedRowsHaveSpace(r: Release)
    ensures ScalarsHaveSpace(RowsOf(r))
  {
    ScalarNames();
    var rows := RowsOf(r);
    var values := ScalarValues(r, NumberText(r.maxBytes), NumberText(r.maxFreshnessDays));
    forall i | 1 <= i < 11
      ensures SP in rows[i]
    {
      assert rows[i] == ScalarRow(SCALARS[i - 1], values[i - 1]);
      assert rows[i][|SCALARS[i - 1]|] == SP;
    }
  }

  lemma RewrittenLines(nfc: string -> bool, rows: seq<string>, r: Release)
    requires AsciiIsNfc(nfc) && ParseRows(nfc, rows) == Ok(r) && ScalarsHaveSpace(rows)
    ensures Acceptable(nfc, r) <==> IntOk(r.maxBytes) && IntOk(r.maxFreshnessDays)
    ensures Acceptable(nfc, r) ==> RowsOf(Sorted(r)) == rows
  {
    var t1, t2 := PrintParsedRows(nfc, rows);
    ReadableIsSorted(nfc, r);
    SafeNumbers(t1);
    SafeNumbers(t2);
    hide Acceptable, ScalarsOk, ListsOk, IntOk, NumberText, NumberOf, RowsWith, Sorted, ParseRows, ScalarsHaveSpace, IsShortest;
  }

  /** A bare scalar row does not survive rewriting. */
  lemma LostSpace(nfc: string -> bool, rows: seq<string>, r: Release)
    requires AsciiIsNfc(nfc) && rows != [] && AllFree(rows, LF) && Acceptable(nfc, r)
    requires Encode(Text(RowsOf(Sorted(r)))) == Encode(Text(rows))
    ensures ScalarsHaveSpace(rows)
  {
    SortedIsReadable(nfc, r);
    NumberRoundTrip(r.maxBytes);
    NumberRoundTrip(r.maxFreshnessDays);
    var printed := RowsOf(Sorted(r));
    hide Acceptable, ScalarsOk, ListsOk, NumberText, NumberOf, IsShortest, IntOk;
    PrintedRowsAreLines(nfc, Sorted(r), NumberText(r.maxBytes), NumberText(r.maxFreshnessDays));
    PrintedRowsHaveSpace(Sorted(r));
    hide RowsOf, AllFree, ScalarsHaveSpace, Encode, SplitOn, Text, Sorted;
    EncodeInjective(Text(rows), Text(printed));
    LinesOfText(rows);
    LinesOfText(printed);
  }

  /**
   * Byte strictness: stored bytes are canonical exactly when the reader takes them, every scalar
   * row holds SP, and both integers are safe; what they serialize to is then those very bytes.
   */
  lemma CanonicalExactly(nfc: string -> bool, b: Bytes)
    requires AsciiIsNfc(nfc)
    ensures IsCanonical(nfc, b).Ok? ==> IsCanonical(nfc, b).value == b
    ensures IsCanonical(nfc, b).Ok? <==>
              Parse(nfc, b).Ok? && ScalarsHaveSpace(LinesOf(b))
              && IntOk(Parse(nfc, b).value.maxBytes) && IntOk(Parse(nfc, b).value.maxFreshnessDays)
  {
    hide Parse, ParseRows, Acceptable, ScalarsHaveSpace, Sorted, RowsOf, Text, Encode, IntOk, AllFree, SplitOn, Decode;
    if Parse(nfc, b).Ok? {
      var rows := TextOfParsed(nfc, b);
      ParsedLines(nfc, b);
      assert rows == LinesOf(b);
      var r := Parse(nfc, b).value;
      if ScalarsHaveSpace(rows) {
        RewrittenLines(nfc, rows, r);
      } else if Canonical(nfc, r) == Some(b) {
        LostSpace(nfc, rows, r);
      }
    }
  }

  lemma ParsedLines(nfc: string -> bool, b: Bytes)
    requires Parse(nfc, b).Ok?
    ensures Decode(b).Some? && Decode(b).value != [] && LinesOf(b) != [] && AllFree(LinesOf(b), LF)
  {
    hide ParseRows, SplitOn, Decode, JoinWith;
    var text := Decode(b).value;
    if text != [] {
      JoinSplit(text[..|text| - 1], LF);
    }
  }
}
