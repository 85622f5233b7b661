/** Round trips of the set-release manifest, and exactly which bytes are canonical. */
module ManifestProofs {
  import opened Options
  import opened Utf8
  import opened Ordering
  import opened Decimal
  import opened Rows
  import opened Manifest

  /** Normalization leaves ASCII text alone. */
  ghost predicate AsciiIsNfc(nfc: string -> bool) {
    forall s: string :: (forall i | 0 <= i < |s| :: s[i] as int < 0x80) ==> nfc(s)
  }

  // ------------------------------------------------------------------- grammars

  lemma ModuleIdIsToken(nfc: string -> bool, id: string)
    requires AsciiIsNfc(nfc) && IsModuleId(id)
    ensures TokenOk(nfc, id)
  {
    var parts := SplitOn(id, '/');
    JoinSplit(id, '/');
    JoinTwo(parts[0], parts[1], '/');
    assert parts == [parts[0], parts[1]];
    assert id == parts[0] + ['/'] + parts[1];
  }

  lemma VersionIsToken(nfc: string -> bool, version: string)
    requires AsciiIsNfc(nfc) && IsVersion(version)
    ensures TokenOk(nfc, version)
  {
    var parts := SplitOn(version, '.');
    JoinSplit(version, '.');
    hide SplitOn, JoinWith;
    forall i | 0 <= i < |version|
      ensures IsDigit(version[i]) || version[i] == '.'
    {
      if version[i] != '.' {
        JoinHas(parts, '.', version[i]);
        var k :| 0 <= k < |parts| && version[i] in parts[k];
      }
    }
    assert version != [] by {
      JoinNotEmpty(parts, '.');
    }
  }

  lemma JoinNotEmpty(parts: seq<string>, c: char)
    requires |parts| >= 2
    ensures JoinWith(parts, c) != []
  {
  }

  lemma ShaIsToken(nfc: string -> bool, digest: string)
    requires AsciiIsNfc(nfc) && IsBareSha256(digest)
    ensures TokenOk(nfc, digest)
  {
  }

  lemma BoolIsToken(nfc: string -> bool, b: bool)
    requires AsciiIsNfc(nfc)
    ensures TokenOk(nfc, BoolText(b)) && ParseBool(BoolText(b)) == Some(b)
  {
    assert forall i | 0 <= i < |BoolText(b)| :: BoolText(b)[i] in "truefalse";
  }

  lemma NumberIsToken(nfc: string -> bool, s: string)
    requires AsciiIsNfc(nfc) && IsShortest(s)
    ensures TokenOk(nfc, s)
  {
  }

  // -------------------------------------------------------------------- scalars

  lemma KeyValueOfRow(name: string, value: string)
    requires SP !in name
    ensures KeyValue(ScalarRow(name, value)) == (name, value)
    ensures IndexOf(ScalarRow(name, value), SP) == |name| < |ScalarRow(name, value)|
  {
    IndexAfterFree(name, SP, value);
  }

  lemma ScalarRowsFirst(names: seq<string>, values: seq<string>, rest: seq<string>)
    requires |names| == |values| && names != []
    ensures ScalarRows(names, values) == [ScalarRow(names[0], values[0])] + ScalarRows(names[1..], values[1..])
    ensures ScalarRows(names, values) + rest == [ScalarRow(names[0], values[0])] + (ScalarRows(names[1..], values[1..]) + rest)
  {
    hide ScalarRow;
  }

  /** One more scalar row in front. */
  lemma ParseScalarRow(nfc: string -> bool, row: string, more: seq<string>, names: seq<string>)
    requires names != [] && KeyValue(row).0 == names[0] && TokenOk(nfc, KeyValue(row).1)
    ensures ParseScalars(nfc, [row] + more, names) ==
      match ParseScalars(nfc, more, names[1..])
      case Refused(rules) => Refused(rules)
      case Ok(rest) => Ok([KeyValue(row).1] + rest)
  {
    hide KeyValue, TokenOk;
    assert ([row] + more)[1..] == more;
  }

  lemma {:induction false} ParsePrintedScalars(nfc: string -> bool, names: seq<string>, values: seq<string>, rest: seq<string>)
    requires |names| == |values| && AllFree(names, SP)
    requires forall i | 0 <= i < |values| :: TokenOk(nfc, values[i])
    ensures ParseScalars(nfc, ScalarRows(names, values) + rest, names) == Ok(values)
    decreases names
  {
    if names != [] {
      hide TokenOk, ScalarRow, KeyValue, ScalarRows, ParseScalars;
      KeyValueOfRow(names[0], values[0]);
      ScalarRowsFirst(names, values, rest);
      ParsePrintedScalars(nfc, names[1..], values[1..], rest);
      ParseScalarRow(nfc, ScalarRow(names[0], values[0]), ScalarRows(names[1..], values[1..]) + rest, names);
      assert values == [values[0]] + values[1..];
    }
  }

  lemma ParsedFirst(nfc: string -> bool, rows: seq<string>, names: seq<string>)
    requires names != [] && ParseScalars(nfc, rows, names).Ok? && SP in rows[0]
    ensures var values := ParseScalars(nfc, rows, names).value;
      && rows[0] == ScalarRow(names[0], values[0]) && TokenOk(nfc, values[0])
      && ParseScalars(nfc, rows[1..], names[1..]) == Ok(values[1..])
  {
    hide TokenOk, IndexOf;
    var at := IndexOf(rows[0], SP);
    RejoinAt(rows[0], at);
  }

  /** Rows that hold SP are the printed form of what they parse to. */
  lemma {:induction false} PrintParsedScalars(nfc: string -> bool, rows: seq<string>, names: seq<string>)
    requires ParseScalars(nfc, rows, names).Ok? && forall i | 0 <= i < |names| :: SP in rows[i]
    ensures var values := ParseScalars(nfc, rows, names).value;
      rows[..|names|] == ScalarRows(names, values) && forall i | 0 <= i < |values| :: TokenOk(nfc, values[i])
    decreases names
  {
    if names != [] {
      hide TokenOk, ScalarRow, ScalarRows, ParseScalars;
      var values := ParseScalars(nfc, rows, names).value;
      var tail := rows[1..];
      assert forall i | 0 <= i < |names| - 1 :: tail[i] == rows[i + 1];
      ParsedFirst(nfc, rows, names);
      PrintParsedScalars(nfc, tail, names[1..]);
      ScalarRowsFirst(names, values, []);
      assert rows[..|names|] == [rows[0]] + tail[..|names| - 1];
    }
  }

  // ------------------------------------------------------------------- sections

  lemma TokenHasNo(nfc: string -> bool, s: string)
    requires TokenOk(nfc, s)
    ensures NUL !in s && LF !in s && CR !in s && SP !in s
  {
  }

  lemma ParsePrintedMember(nfc: string -> bool, m: Member)
    requires MemberOk(nfc, m)
    ensures ParseMember(nfc, MemberText(m)) == Some(m)
  {
    var parts := [m.id, m.version, m.digest];
    JoinThree(m.id, m.version, m.digest, NUL);
    SplitJoined(parts, NUL);
  }

  lemma PrintParsedMember(nfc: string -> bool, text: string)
    requires AsciiIsNfc(nfc) && ParseMember(nfc, text).Some?
    ensures MemberOk(nfc, ParseMember(nfc, text).value) && MemberText(ParseMember(nfc, text).value) == text
  {
    var parts := SplitOn(text, NUL);
    JoinSplit(text, NUL);
    assert parts == [parts[0], parts[1], parts[2]];
    JoinThree(parts[0], parts[1], parts[2], NUL);
    ModuleIdIsToken(nfc, parts[0]);
    ShaIsToken(nfc, parts[2]);
  }

  lemma RowParts(kind: string, text: string)
    requires SP !in kind
    ensures var row := ScalarRow(kind, text);
      IndexOf(row, SP) == |kind| < |row| && row[..|kind|] == kind && row[|kind| + 1..] == text
  {
    IndexAfterFree(kind, SP, text);
  }

  lemma {:induction false} ParsePrintedDenies(nfc: string -> bool, deny: seq<string>, rest: seq<string>, acc: Sections)
    requires forall i | 0 <= i < |deny| :: TokenOk(nfc, deny[i])
    ensures ParseSections(nfc, DenyRows(deny) + rest, 0, acc) == ParseSections(nfc, rest, 0, acc.(deny := acc.deny + deny))
    decreases deny
  {
    var rows := DenyRows(deny) + rest;
    if deny == [] {
      assert rows == rest && acc.deny + deny == acc.deny;
    } else {
      RowParts("deny", deny[0]);
      assert rows[0] == ScalarRow("deny", deny[0]) && rows[1..] == DenyRows(deny[1..]) + rest;
      ParsePrintedDenies(nfc, deny[1..], rest, acc.(deny := acc.deny + [deny[0]]));
      assert acc.deny + [deny[0]] + deny[1..] == acc.deny + deny;
    }
  }

  function Extended(acc: Sections, kind: nat, members: seq<Member>): Sections {
    if kind == 1 then acc.(required := acc.required + members) else acc.(optional := acc.optional + members)
  }

  function KindText(kind: nat): string {
    if kind == 1 then "required" else "optional"
  }

  lemma KindsAreSections(kind: nat)
    requires 1 <= kind <= 2
    ensures SectionOf(KindText(kind)) == Some(kind)
  {
    var r, o := "required", "optional";
    assert |r| == 8 && |o| == 8 && |"deny"| == 4;
    assert r[0] == 'r' && o[0] == 'o';
  }

  /** One member row, read. */
  lemma ParseMemberRow(nfc: string -> bool, kind: nat, m: Member, rest: seq<string>, section: nat, acc: Sections)
    requires 1 <= kind <= 2 && section <= kind && ParseMember(nfc, MemberText(m)) == Some(m)
    ensures ParseSections(nfc, [ScalarRow(KindText(kind), MemberText(m))] + rest, section, acc)
         == ParseSections(nfc, rest, kind, Extended(acc, kind, [m]))
  {
    hide IndexOf, ParseMember, MemberText, SectionOf, ScalarRow, TokenOk, KindText;
    var row := ScalarRow(KindText(kind), MemberText(m));
    var rows := [row] + rest;
    assert rows[0] == row && rows[1..] == rest;
    assert SectionOf(row[..IndexOf(row, SP)]) == Some(kind) && IndexOf(row, SP) < |row|
        && row[IndexOf(row, SP) + 1..] == MemberText(m) by {
      KindsAreSections(kind);
      KindHasNoSpace(kind);
      RowParts(KindText(kind), MemberText(m));
    }
  }

  lemma KindHasNoSpace(kind: nat)
    ensures SP !in KindText(kind)
  {
  }

  lemma {:induction false} ParsePrintedMembers(nfc: string -> bool, kind: nat, members: seq<Member>, rest: seq<string>,
                                               section: nat, acc: Sections)
    requires 1 <= kind <= 2 && section <= kind && forall i | 0 <= i < |members| :: MemberOk(nfc, members[i])
    ensures ParseSections(nfc, MemberRows(KindText(kind), members) + rest, section, acc)
         == ParseSections(nfc, rest, if members == [] then section else kind, Extended(acc, kind, members))
    decreases members
  {
    hide ParseSections, MemberOk, ScalarRow, MemberText, ParseMember, KindText;
    if members == [] {
      assert MemberRows(KindText(kind), members) + rest == rest && Extended(acc, kind, members) == acc;
    } else {
      var more := MemberRows(KindText(kind), members[1..]) + rest;
      ParsePrintedMember(nfc, members[0]);
      ParseMemberRow(nfc, kind, members[0], more, section, acc);
      assert MemberRows(KindText(kind), members) + rest == [ScalarRow(KindText(kind), MemberText(members[0]))] + more;
      ParsePrintedMembers(nfc, kind, members[1..], rest, kind, Extended(acc, kind, [members[0]]));
      assert [members[0]] + members[1..] == members;
      assert Extended(Extended(acc, kind, [members[0]]), kind, members[1..]) == Extended(acc, kind, members);
    }
  }

  lemma ParseNoRows(nfc: string -> bool, section: nat, acc: Sections)
    ensures ParseSections(nfc, [], section, acc) == Ok(acc)
  {
  }

  lemma ParsePrintedSections(nfc: string -> bool, deny: seq<string>, required: seq<Member>, optional: seq<Member>)
    requires forall i | 0 <= i < |deny| :: TokenOk(nfc, deny[i])
    requires forall i | 0 <= i < |required| :: MemberOk(nfc, required[i])
    requires forall i | 0 <= i < |optional| :: MemberOk(nfc, optional[i])
    ensures ParseSections(nfc, SectionRows(deny, required, optional), 0, Sections([], [], [])) == Ok(Sections(deny, required, optional))
  {
    hide ParseSections, MemberOk, TokenOk, DenyRows, MemberRows;
    var q, o := MemberRows("required", required), MemberRows("optional", optional);
    var acc := Sections(deny, [], []);
    assert SectionRows(deny, required, optional) == DenyRows(deny) + (q + o);
    ParsePrintedDenies(nfc, deny, q + o, Sections([], [], []));
    assert [] + deny == deny;
    ParsePrintedMembers(nfc, 1, required, o, 0, acc);
    assert Extended(acc, 1, required) == Sections(deny, required, []);
    var section := if required == [] then 0 else 1;
    assert o + [] == o;
    ParsePrintedMembers(nfc, 2, optional, [], section, Sections(deny, required, []));
    assert Extended(Sections(deny, required, []), 2, optional) == Sections(deny, required, optional);
    ParseNoRows(nfc, if optional == [] then section else 2, Sections(deny, required, optional));
  }

  /** What was read beyond `acc`, starting in `section`. */
  ghost predicate ReadFrom(nfc: string -> bool, rows: seq<string>, section: nat, acc: Sections, out: Sections,
                           d: seq<string>, q: seq<Member>, o: seq<Member>) {
    && rows == SectionRows(d, q, o)
    && out == Sections(acc.deny + d, acc.required + q, acc.optional + o)
    && (section >= 1 ==> d == []) && (section >= 2 ==> q == [])
    && (forall i | 0 <= i < |d| :: TokenOk(nfc, d[i]))
    && (forall i | 0 <= i < |q| :: MemberOk(nfc, q[i]))
    && (forall i | 0 <= i < |o| :: MemberOk(nfc, o[i]))
  }

  lemma ReadDeny(nfc: string -> bool, rows: seq<string>, text: string, acc: Sections, out: Sections,
                 d: seq<string>, q: seq<Member>, o: seq<Member>)
    requires ReadFrom(nfc, rows, 0, acc.(deny := acc.deny + [text]), out, d, q, o) && TokenOk(nfc, text)
    ensures ReadFrom(nfc, [ScalarRow("deny", text)] + rows, 0, acc, out, [text] + d, q, o)
  {
    hide MemberOk, TokenOk, ScalarRow;
    assert DenyRows([text] + d) == [ScalarRow("deny", text)] + DenyRows(d);
    assert acc.deny + [text] + d == acc.deny + ([text] + d);
  }

  lemma ReadRequired(nfc: string -> bool, rows: seq<string>, section: nat, m: Member, acc: Sections, out: Sections,
                     d: seq<string>, q: seq<Member>, o: seq<Member>)
    requires ReadFrom(nfc, rows, 1, acc.(required := acc.required + [m]), out, d, q, o) && MemberOk(nfc, m) && section <= 1
    ensures ReadFrom(nfc, [ScalarRow("required", MemberText(m))] + rows, section, acc, out, [], [m] + q, o)
  {
    hide MemberOk, TokenOk, ScalarRow, MemberText;
    assert DenyRows([]) == [];
    assert MemberRows("required", [m] + q) == [ScalarRow("required", MemberText(m))] + MemberRows("required", q);
    assert acc.required + [m] + q == acc.required + ([m] + q);
  }

  lemma ReadOptional(nfc: string -> bool, rows: seq<string>, section: nat, m: Member, acc: Sections, out: Sections,
                     d: seq<string>, q: seq<Member>, o: seq<Member>)
    requires ReadFrom(nfc, rows, 2, acc.(optional := acc.optional + [m]), out, d, q, o) && MemberOk(nfc, m) && section <= 2
    ensures ReadFrom(nfc, [ScalarRow("optional", MemberText(m))] + rows, section, acc, out, [], [], [m] + o)
  {
    hide MemberOk, TokenOk, ScalarRow, MemberText;
    assert MemberRows("optional", [m] + o) == [ScalarRow("optional", MemberText(m))] + MemberRows("optional", o);
    assert acc.optional + [m] + o == acc.optional + ([m] + o);
    assert DenyRows([]) == [] && MemberRows("required", []) == [];
  }

  lemma RowIsScalarRow(row: string)
    requires IndexOf(row, SP) < |row|
    ensures var at := IndexOf(row, SP); row == ScalarRow(row[..at], row[at + 1..])
  {
    hide IndexOf;
    RejoinAt(row, IndexOf(row, SP));
  }

  lemma RejoinAt(s: string, n: nat)
    requires n < |s|
    ensures s == s[..n] + [s[n]] + s[n + 1..]
  {
  }

  /** The section and the lists after one row was read. */
  function NextSection(row: string): nat {
    match SectionOf(row[..IndexOf(row, SP)])
    case Some(kind) => kind
    case None => 0
  }

  function RowText(row: string): string {
    var at := IndexOf(row, SP);
    if at < |row| then row[at + 1..] else []
  }

  function NextLists(nfc: string -> bool, row: string, acc: Sections): Sections {
    if NextSection(row) == 0 then acc.(deny := acc.deny + [RowText(row)])
    else match ParseMember(nfc, RowText(row))
      case Some(m) => Extended(acc, NextSection(row), [m])
      case None => acc
  }

  /** How one row is read: its kind, its text, and what is left to read. */
  lemma FirstRowRead(nfc: string -> bool, rows: seq<string>, section: nat, acc: Sections)
    requires rows != [] && ParseSections(nfc, rows, section, acc).Ok?
    ensures var row := rows[0];
      var kind := NextSection(row);
      && section <= kind <= 2
      && ParseSections(nfc, rows, section, acc) == ParseSections(nfc, rows[1..], kind, NextLists(nfc, row, acc))
      && (kind == 0 ==> row == ScalarRow("deny", RowText(row)) && TokenOk(nfc, RowText(row)))
      && (kind > 0 ==> row == ScalarRow(KindText(kind), RowText(row)) && ParseMember(nfc, RowText(row)).Some?)
  {
    hide IndexOf, ParseMember, TokenOk;
    if IndexOf(rows[0], SP) < |rows[0]| {
      RowIsScalarRow(rows[0]);
    }
  }

  lemma NothingRead(nfc: string -> bool, section: nat, acc: Sections)
    ensures ReadFrom(nfc, [], section, acc, ParseSections(nfc, [], section, acc).value, [], [], [])
  {
  }

  /** What the rows after the first amount to, together with the first. */
  lemma FirstRowToo(nfc: string -> bool, rows: seq<string>, section: nat, acc: Sections, out: Sections,
                    d: seq<string>, q: seq<Member>, o: seq<Member>)
    returns (d': seq<string>, q': seq<Member>, o': seq<Member>)
    requires AsciiIsNfc(nfc) && rows != [] && ParseSections(nfc, rows, section, acc).Ok?
    requires ReadFrom(nfc, rows[1..], NextSection(rows[0]), NextLists(nfc, rows[0], acc), out, d, q, o)
    ensures ReadFrom(nfc, rows, section, acc, out, d', q', o')
  {
    hide ReadFrom, ParseSections, TokenOk, ParseMember, MemberOk, ScalarRow, MemberText, NextSection, RowText;
    FirstRowRead(nfc, rows, section, acc);
    var text, kind := RowText(rows[0]), NextSection(rows[0]);
    assert rows == [rows[0]] + rows[1..];
    if kind == 0 {
      ReadDeny(nfc, rows[1..], text, acc, out, d, q, o);
      d', q', o' := [text] + d, q, o;
      return;
    }
    PrintParsedMember(nfc, text);
    var m := ParseMember(nfc, text).value;
    if kind == 1 {
      ReadRequired(nfc, rows[1..], section, m, acc, out, d, q, o);
      d', q', o' := [], [m] + q, o;
    } else {
      ReadOptional(nfc, rows[1..], section, m, acc, out, d, q, o);
      d', q', o' := [], [], [m] + o;
    }
  }

  /** Section rows are the printed form of what they parse to. */
  lemma {:induction false} PrintParsedSections(nfc: string -> bool, rows: seq<string>, section: nat, acc: Sections)
    returns (d: seq<string>, q: seq<Member>, o: seq<Member>)
    requires AsciiIsNfc(nfc) && ParseSections(nfc, rows, section, acc).Ok?
    ensures ReadFrom(nfc, rows, section, acc, ParseSections(nfc, rows, section, acc).value, d, q, o)
    decreases rows
  {
    hide ReadFrom, ParseSections, NextSection, NextLists;
    if rows == [] {
      d, q, o := [], [], [];
      NothingRead(nfc, section, acc);
      return;
    }
    FirstRowRead(nfc, rows, section, acc);
    var out := ParseSections(nfc, rows, section, acc).value;
    d, q, o := PrintParsedSections(nfc, rows[1..], NextSection(rows[0]), NextLists(nfc, rows[0], acc));
    d, q, o := FirstRowToo(nfc, rows, section, acc, out, d, q, o);
  }
}
