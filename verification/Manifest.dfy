/**
 * The set-release manifest: what may be written, how it is written, and the strict reader.
 * `nfc` answers whether a string is NFC-normalized.
 */
module Manifest {
  import opened Options
  import opened Utf8
  import opened Ordering
  import opened Decimal
  import opened Rows

  const FORMAT: string := "okf-set-release-v1"
  const MAX_SAFE: nat := 9007199254740991
  const NUL: char := 0 as char
  const LF: char := '\n'
  const CR: char := '\r'
  const SP: char := ' '

  const SCALARS: seq<string> :=
    ["family", "version", "runnerClass", "allowTaskAdditions", "allowTaskNarrowing", "maxBytes", "maxFreshnessDays",
     "requiredFailure", "optionalFailure", "overrideAuthority"]

  datatype Member = Member(id: string, version: string, digest: string)

  /** A JavaScript number: an exactly represented integer, or anything else. */
  datatype Number = Exact(value: int) | Inexact

  datatype Release = Release(
    family: string, version: string, runnerClass: string, allowTaskAdditions: bool, allowTaskNarrowing: bool,
    maxBytes: Number, maxFreshnessDays: Number, requiredFailure: string, optionalFailure: string, overrideAuthority: string,
    deny: seq<string>, required: seq<Member>, optional: seq<Member>)

  datatype Rule =
    | Bom | CarriageReturn | FinalLf | Encoding | Prefix | ScalarMissing | ScalarOrder | BadToken | BadBoolean | BadInteger
    | BadVersion | BadFamily | RowName | UnknownField | SectionOrder | BadDeny | BadMember | BadRequired | BadOptional | Unsorted | Overlap | Unwritable | Noncanonical

  datatype Result<T> = Ok(value: T) | Refused(rules: seq<Rule>)

  // ------------------------------------------------------------------- grammars

  predicate StringOk(nfc: string -> bool, s: string) {
    s != [] && nfc(s) && NUL !in s && LF !in s && CR !in s
  }

  predicate IsAsciiWhitespace(c: char) {
    c as int in {0x09, 0x0a, 0x0b, 0x0c, 0x0d, 0x20}
  }

  predicate TokenOk(nfc: string -> bool, s: string) {
    StringOk(nfc, s) && forall i | 0 <= i < |s| :: !IsAsciiWhitespace(s[i])
  }

  predicate IntOk(n: Number) {
    n.Exact? && 0 <= n.value <= MAX_SAFE
  }

  predicate IsLower(c: char) {
    'a' <= c <= 'z'
  }

  predicate IsSlug(s: string) {
    s != [] && IsLower(s[0]) && forall i | 0 <= i < |s| :: IsLower(s[i]) || IsDigit(s[i]) || s[i] == '-'
  }

  predicate IsVersion(s: string) {
    var parts := SplitOn(s, '.');
    |parts| == 3 && forall i | 0 <= i < 3 :: AllDigits(parts[i])
  }

  predicate IsFamilyId(s: string) {
    IsSlug(s)
  }

  predicate IsModuleId(s: string) {
    var parts := SplitOn(s, '/');
    |parts| == 2 && IsSlug(parts[0]) && IsSlug(parts[1])
  }

  predicate IsBareSha256(s: string) {
    |s| == 64 && forall i | 0 <= i < 64 :: IsDigit(s[i]) || 'a' <= s[i] <= 'f'
  }

  // ------------------------------------------------------------------ the writer

  predicate MemberOk(nfc: string -> bool, m: Member) {
    && TokenOk(nfc, m.id) && TokenOk(nfc, m.version) && TokenOk(nfc, m.digest)
    && IsModuleId(m.id) && IsBareSha256(m.digest)
  }

  function MemberKey(m: Member): Units {
    Encode(m.id)
  }

  ghost predicate DistinctIds(members: seq<Member>) {
    forall i, j | 0 <= i < j < |members| :: members[i].id != members[j].id
  }

  ghost predicate NoOverlap(a: seq<Member>, b: seq<Member>) {
    forall i, j | 0 <= i < |a| && 0 <= j < |b| :: a[i].id != b[j].id
  }

  ghost predicate ScalarsOk(nfc: string -> bool, r: Release) {
    && TokenOk(nfc, r.family) && IsFamilyId(r.family) && TokenOk(nfc, r.runnerClass)
    && TokenOk(nfc, r.requiredFailure) && TokenOk(nfc, r.optionalFailure) && TokenOk(nfc, r.overrideAuthority)
    && IsVersion(r.version)
  }

  ghost predicate MembersOk(nfc: string -> bool, members: seq<Member>) {
    (forall i | 0 <= i < |members| :: MemberOk(nfc, members[i])) && DistinctIds(members)
  }

  ghost predicate DeniesOk(nfc: string -> bool, deny: seq<string>) {
    && (forall i | 0 <= i < |deny| :: TokenOk(nfc, deny[i]))
    && (forall i, j | 0 <= i < j < |deny| :: deny[i] != deny[j])
  }

  /** What the writer accepts. */
  ghost predicate Acceptable(nfc: string -> bool, r: Release) {
    && ScalarsOk(nfc, r) && IntOk(r.maxBytes) && IntOk(r.maxFreshnessDays)
    && DeniesOk(nfc, r.deny) && MembersOk(nfc, r.required) && MembersOk(nfc, r.optional)
    && NoOverlap(r.required, r.optional)
  }

  /** Deny, required and optional are sets: their order carries no meaning. */
  function Sorted(r: Release): Release {
    r.(deny := SortBy(r.deny, TextKey), required := SortBy(r.required, MemberKey), optional := SortBy(r.optional, MemberKey))
  }

  function BoolText(b: bool): string {
    if b then "true" else "false"
  }

  function NumberText(n: Number): string {
    if n.Exact? && n.value >= 0 then Digits(n.value) else "NaN"
  }

  function ScalarRow(name: string, value: string): string {
    name + [SP] + value
  }

  function MemberText(m: Member): string {
    m.id + [NUL] + m.version + [NUL] + m.digest
  }

  function ScalarValues(r: Release, maxBytes: string, maxDays: string): seq<string> {
    [r.family, r.version, r.runnerClass, BoolText(r.allowTaskAdditions), BoolText(r.allowTaskNarrowing), maxBytes, maxDays,
     r.requiredFailure, r.optionalFailure, r.overrideAuthority]
  }

  function ScalarRows(names: seq<string>, values: seq<string>): seq<string>
    requires |names| == |values|
  {
    seq(|names|, i requires 0 <= i < |names| => ScalarRow(names[i], values[i]))
  }

  function DenyRows(deny: seq<string>): seq<string> {
    seq(|deny|, i requires 0 <= i < |deny| => ScalarRow("deny", deny[i]))
  }

  function MemberRows(kind: string, members: seq<Member>): seq<string> {
    seq(|members|, i requires 0 <= i < |members| => ScalarRow(kind, MemberText(members[i])))
  }

  function SectionRows(deny: seq<string>, required: seq<Member>, optional: seq<Member>): seq<string> {
    DenyRows(deny) + MemberRows("required", required) + MemberRows("optional", optional)
  }

  /** The rows of a release whose lists are written in the order given. */
  function RowsWith(r: Release, maxBytes: string, maxDays: string): seq<string> {
    [FORMAT] + ScalarRows(SCALARS, ScalarValues(r, maxBytes, maxDays)) + SectionRows(r.deny, r.required, r.optional)
  }

  function RowsOf(r: Release): seq<string> {
    RowsWith(r, NumberText(r.maxBytes), NumberText(r.maxFreshnessDays))
  }

  /** Every row, each ended by LF. */
  function Text(rows: seq<string>): string {
    JoinWith(rows, LF) + [LF]
  }

  ghost function Canonical(nfc: string -> bool, r: Release): Option<Bytes> {
    if Acceptable(nfc, r) then Some(Encode(Text(RowsOf(Sorted(r))))) else None
  }

  // ------------------------------------------------------------------ the reader

  /** A scalar row without SP is its own key and its own value. */
  function KeyValue(row: string): (string, string) {
    var at := IndexOf(row, SP);
    if at == |row| then (row, row) else (row[..at], row[at + 1..])
  }

  function ParseScalars(nfc: string -> bool, rows: seq<string>, names: seq<string>): (r: Result<seq<string>>)
    ensures r.Ok? ==> |r.value| == |names| <= |rows|
    decreases names
  {
    if names == [] then Ok([])
    else if rows == [] then Refused([ScalarMissing])
    else
      var (key, value) := KeyValue(rows[0]);
      if key != names[0] then Refused([ScalarOrder])
      else if !TokenOk(nfc, value) then Refused([BadToken])
      else match ParseScalars(nfc, rows[1..], names[1..])
        case Refused(rules) => Refused(rules)
        case Ok(rest) => Ok([value] + rest)
  }

  datatype Sections = Sections(deny: seq<string>, required: seq<Member>, optional: seq<Member>)

  function SectionOf(kind: string): Option<nat> {
    if kind == "deny" then Some(0) else if kind == "required" then Some(1) else if kind == "optional" then Some(2) else None
  }

  function ParseMember(nfc: string -> bool, text: string): Option<Member> {
    var parts := SplitOn(text, NUL);
    if |parts| == 3 && IsModuleId(parts[0]) && IsBareSha256(parts[2]) && TokenOk(nfc, parts[1])
    then Some(Member(parts[0], parts[1], parts[2]))
    else None
  }

  function ParseSections(nfc: string -> bool, rows: seq<string>, section: nat, acc: Sections): Result<Sections>
    decreases rows
  {
    if rows == [] then Ok(acc)
    else
      var at := IndexOf(rows[0], SP);
      if at == |rows[0]| then Refused([RowName])
      else
        var rest := rows[0][at + 1..];
        match SectionOf(rows[0][..at])
        case None => Refused([UnknownField])
        case Some(kind) =>
          if kind < section then Refused([SectionOrder])
          else if kind == 0 then
            if TokenOk(nfc, rest) then ParseSections(nfc, rows[1..], kind, acc.(deny := acc.deny + [rest])) else Refused([BadDeny])
          else match ParseMember(nfc, rest)
            case None => Refused([BadMember])
            case Some(m) =>
              ParseSections(nfc, rows[1..], kind,
                            if kind == 1 then acc.(required := acc.required + [m]) else acc.(optional := acc.optional + [m]))
  }

  function ParseBool(s: string): Option<bool> {
    if s == "true" then Some(true) else if s == "false" then Some(false) else None
  }

  /** The number a decimal spelling denotes once it is a double. */
  function NumberOf(s: string): Number
    requires IsShortest(s)
  {
    if ValueOf(s) <= MAX_SAFE then Exact(ValueOf(s)) else Inexact
  }

  predicate StrictlyAscending(keys: seq<string>) {
    forall i | 0 < i < |keys| :: Below(Encode(keys[i - 1]), Encode(keys[i]))
  }

  function Ids(members: seq<Member>): seq<string> {
    seq(|members|, i requires 0 <= i < |members| => members[i].id)
  }

  function Assemble(values: seq<string>, s: Sections): Result<Release>
    requires |values| == 10
  {
    var additions, narrowing := ParseBool(values[3]), ParseBool(values[4]);
    if additions.None? || narrowing.None? then Refused([BadBoolean])
    else if !IsShortest(values[5]) || !IsShortest(values[6]) then Refused([BadInteger])
    else if !IsVersion(values[1]) then Refused([BadVersion])
    else if !IsFamilyId(values[0]) then Refused([BadFamily])
    else
      Ok(Release(values[0], values[1], values[2], additions.value, narrowing.value, NumberOf(values[5]), NumberOf(values[6]),
                 values[7], values[8], values[9], s.deny, s.required, s.optional))
  }

  ghost function ParseRows(nfc: string -> bool, rows: seq<string>): Result<Release> {
    if rows == [] || rows[0] != FORMAT then Refused([Prefix])
    else match ParseScalars(nfc, rows[1..], SCALARS)
      case Refused(rules) => Refused(rules)
      case Ok(values) =>
        if Assemble(values, Sections([], [], [])).Refused? then Refused(Assemble(values, Sections([], [], [])).rules)
        else match ParseSections(nfc, rows[11..], 0, Sections([], [], []))
          case Refused(rules) => Refused(rules)
          case Ok(s) =>
            if !StrictlyAscending(s.deny) || !StrictlyAscending(Ids(s.required)) || !StrictlyAscending(Ids(s.optional)) then
              Refused([Unsorted])
            else if !NoOverlap(s.required, s.optional) then Refused([Overlap])
            else Assemble(values, s)
  }

  ghost function Parse(nfc: string -> bool, b: Bytes): Result<Release> {
    if |b| >= 3 && b[0] == 0xEF && b[1] == 0xBB && b[2] == 0xBF then Refused([Bom])
    else if 0x0D in b then Refused([CarriageReturn])
    else if b == [] || b[|b| - 1] != 0x0A then Refused([FinalLf])
    else match Decode(b)
      case None => Refused([Encoding])
      case Some(text) => if text == [] then Refused([Prefix]) else ParseRows(nfc, SplitOn(text[..|text| - 1], LF))
  }

  ghost function IsCanonical(nfc: string -> bool, b: Bytes): Result<Bytes> {
    match Parse(nfc, b)
    case Refused(rules) => Refused(rules)
    case Ok(r) =>
      match Canonical(nfc, r)
      case None => Refused([Unwritable])
      case Some(round) => if round == b then Ok(round) else Refused([Noncanonical])
  }
}
