/** Package identity: sorted (path, file digest) rows written into one buffer of computed size. */
module PackageIdentity {
  import opened Utf8
  import opened Ordering

  const PREFIX: string := "okf-package-v1\n"

  datatype SourceFile = SourceFile(path: string, bytes: Bytes)

  datatype Row = Row(path: Bytes, digest: Bytes)

  function RowPath(row: Row): Units {
    row.path
  }

  function RowOf(sha: Bytes -> string, file: SourceFile): Row {
    Row(Encode(file.path), Encode(sha(file.bytes)))
  }

  function RowsOf(sha: Bytes -> string, members: seq<SourceFile>): seq<Row> {
    seq(|members|, i requires 0 <= i < |members| => RowOf(sha, members[i]))
  }

  function RowBytes(row: Row): Bytes {
    row.path + [0] + row.digest + [10]
  }

  function AllBytes(rows: seq<Row>): Bytes {
    if rows == [] then [] else RowBytes(rows[0]) + AllBytes(rows[1..])
  }

  /** The canonical manifest of a member set. */
  function Manifest(sha: Bytes -> string, members: seq<SourceFile>): Bytes {
    Encode(PREFIX) + AllBytes(SortBy(RowsOf(sha, members), RowPath))
  }

  // ------------------------------------------------------------------ the writer

  function SizeOf(rows: seq<Row>): nat {
    if rows == [] then 0 else |rows[0].path| + 1 + |rows[0].digest| + 1 + SizeOf(rows[1..])
  }

  lemma {:induction false} AllBytesSnoc(rows: seq<Row>, row: Row)
    ensures AllBytes(rows + [row]) == AllBytes(rows) + RowBytes(row)
    ensures SizeOf(rows + [row]) == SizeOf(rows) + |row.path| + 1 + |row.digest| + 1
  {
    var all := rows + [row];
    if rows == [] {
      assert all == [row] && all[1..] == [];
    } else {
      assert all[0] == rows[0] && all[1..] == rows[1..] + [row];
      AllBytesSnoc(rows[1..], row);
    }
  }

  method CopyAt(out: array<Byte>, source: Bytes, at: nat)
    requires at + |source| <= out.Length
    modifies out
    ensures out[..at + |source|] == old(out[..at]) + source
  {
    for i := 0 to |source|
      invariant out[..at + i] == old(out[..at]) + source[..i]
    {
      out[at + i] := source[i];
    }
    assert source[..|source|] == source;
  }

  method WriteByte(out: array<Byte>, b: Byte, at: nat)
    requires at < out.Length
    modifies out
    ensures out[..at + 1] == old(out[..at]) + [b]
  {
    out[at] := b;
  }

  method ComputeSize(start: nat, rows: seq<Row>) returns (size: nat)
    ensures size == start + SizeOf(rows)
  {
    size := start;
    for i := 0 to |rows|
      invariant size == start + SizeOf(rows[..i])
    {
      AllBytesSnoc(rows[..i], rows[i]);
      assert rows[..i + 1] == rows[..i] + [rows[i]];
      size := size + |rows[i].path| + 1 + |rows[i].digest| + 1;
    }
    assert rows[..|rows|] == rows;
  }

  lemma OneMoreRow(rows: seq<Row>, i: nat)
    requires i < |rows|
    ensures AllBytes(rows[..i + 1]) == AllBytes(rows[..i]) + RowBytes(rows[i])
    ensures SizeOf(rows[..i + 1]) == SizeOf(rows[..i]) + |rows[i].path| + 1 + |rows[i].digest| + 1 <= SizeOf(rows)
  {
    AllBytesSnoc(rows[..i], rows[i]);
    assert rows[..i + 1] == rows[..i] + [rows[i]];
    FitsAhead(rows, i);
  }

  /** Fill exactly the computed size, in path order. */
  method ManifestBytes(sha: Bytes -> string, members: seq<SourceFile>) returns (out: array<Byte>)
    ensures out[..] == Manifest(sha, members)
    ensures out.Length == |Encode(PREFIX)| + SizeOf(SortBy(RowsOf(sha, members), RowPath))
  {
    hide SortBy, RowsOf, Encode, RowBytes, AllBytes, SizeOf;
    var rows := SortBy(RowsOf(sha, members), RowPath);
    var prefix := Encode(PREFIX);
    var size := ComputeSize(|prefix|, rows);
    NoRows();
    out := new Byte[size](_ => 0);
    CopyAt(out, prefix, 0);
    var at := |prefix|;
    assert rows[..0] == [];
    assert out[..at] == prefix + [];
    for i := 0 to |rows|
      invariant at == |prefix| + SizeOf(rows[..i]) <= out.Length == size
      invariant out[..at] == prefix + AllBytes(rows[..i])
    {
      OneMoreRow(rows, i);
      WriteRow(out, rows[i], at);
      Regroup(prefix, AllBytes(rows[..i]), RowBytes(rows[i]));
      at := at + |rows[i].path| + 1 + |rows[i].digest| + 1;
    }
    assert rows[..|rows|] == rows;
    assert out[..at] == out[..];
  }

  lemma NoRows()
    ensures AllBytes([]) == [] && SizeOf([]) == 0
  {
  }

  lemma Regroup(x: Bytes, y: Bytes, z: Bytes)
    ensures (x + y) + z == x + (y + z)
  {
  }

  method WriteRow(out: array<Byte>, row: Row, start: nat)
    requires start + |row.path| + 1 + |row.digest| + 1 <= out.Length
    modifies out
    ensures out[..start + |row.path| + 1 + |row.digest| + 1] == old(out[..start]) + RowBytes(row)
  {
    var at := start;
    CopyAt(out, row.path, at);
    at := at + |row.path|;
    WriteByte(out, 0, at);
    at := at + 1;
    CopyAt(out, row.digest, at);
    at := at + |row.digest|;
    WriteByte(out, 10, at);
  }

  lemma {:induction false} FitsAhead(rows: seq<Row>, i: nat)
    requires i < |rows|
    ensures SizeOf(rows[..i + 1]) <= SizeOf(rows)
  {
    if i > 0 {
      FitsAhead(rows[1..], i - 1);
      assert rows[..i + 1][1..] == rows[1..][..i] && rows[..i + 1][0] == rows[0];
    } else {
      assert rows[..1][1..] == [];
    }
  }

  // -------------------------------------------------------------------- identity

  predicate DistinctPaths(members: seq<SourceFile>) {
    forall i, j | 0 <= i < j < |members| :: members[i].path != members[j].path
  }

  lemma PathKeysDistinct(sha: Bytes -> string, members: seq<SourceFile>)
    requires DistinctPaths(members)
    ensures DistinctKeys(RowsOf(sha, members), RowPath)
  {
    var rows := RowsOf(sha, members);
    forall i, j | 0 <= i < j < |rows|
      ensures RowPath(rows[i]) != RowPath(rows[j])
    {
      if RowPath(rows[i]) == RowPath(rows[j]) {
        EncodeInjective(members[i].path, members[j].path);
      }
    }
  }

  /** The order in which files were enumerated does not matter. */
  lemma EnumerationOrderDoesNotMatter(sha: Bytes -> string, a: seq<SourceFile>, b: seq<SourceFile>)
    requires DistinctPaths(a) && DistinctPaths(b) && SameElements(a, b)
    ensures Manifest(sha, a) == Manifest(sha, b)
  {
    PathKeysDistinct(sha, a);
    PathKeysDistinct(sha, b);
    RowsWithin(sha, a, b);
    RowsWithin(sha, b, a);
    SortIgnoresOrder(RowsOf(sha, a), RowsOf(sha, b), RowPath);
  }

  lemma RowsWithin(sha: Bytes -> string, a: seq<SourceFile>, b: seq<SourceFile>)
    requires forall i | 0 <= i < |a| :: a[i] in b
    ensures forall i | 0 <= i < |RowsOf(sha, a)| :: RowsOf(sha, a)[i] in RowsOf(sha, b)
  {
    hide RowOf;
    forall i | 0 <= i < |a|
      ensures RowOf(sha, a[i]) in RowsOf(sha, b)
    {
      assert a[i] in b;
      var k :| 0 <= k < |b| && b[k] == a[i];
      assert RowsOf(sha, b)[k] == RowOf(sha, b[k]);
    }
  }

  predicate IsReadable(row: Row) {
    0 !in row.path && |row.digest| == 64
  }

  lemma {:induction false} FirstNulIsUnique(p: Bytes, x: Bytes, q: Bytes, y: Bytes)
    requires 0 !in p && 0 !in q && p + [0] + x == q + [0] + y
    ensures p == q && x == y
  {
    var s := p + [0] + x;
    assert s[0] == (if p == [] then 0 else p[0]) && s[0] == (if q == [] then 0 else q[0]);
    if p != [] && q != [] {
      assert s[1..] == p[1..] + [0] + x && s[1..] == q[1..] + [0] + y;
      FirstNulIsUnique(p[1..], x, q[1..], y);
      assert p == [p[0]] + p[1..] && q == [q[0]] + q[1..];
    } else {
      assert s[1..] == x && s[1..] == y;
    }
  }

  /** A row of known digest length can be read off the front in only one way. */
  lemma FirstRowIsUnique(a: Row, x: Bytes, b: Row, y: Bytes)
    requires IsReadable(a) && IsReadable(b) && RowBytes(a) + x == RowBytes(b) + y
    ensures a == b && x == y
  {
    assert RowBytes(a) + x == a.path + [0] + (a.digest + [10] + x);
    assert RowBytes(b) + y == b.path + [0] + (b.digest + [10] + y);
    var rest := a.digest + [10] + x;
    FirstNulIsUnique(a.path, rest, b.path, b.digest + [10] + y);
    assert rest[..64] == a.digest && rest[..64] == b.digest;
    assert rest[65..] == x && rest[65..] == y;
  }

  lemma {:induction false} RowsAreUnique(a: seq<Row>, b: seq<Row>)
    requires forall i | 0 <= i < |a| :: IsReadable(a[i])
    requires forall i | 0 <= i < |b| :: IsReadable(b[i])
    requires AllBytes(a) == AllBytes(b)
    ensures a == b
  {
    if a != [] && b != [] {
      FirstRowIsUnique(a[0], AllBytes(a[1..]), b[0], AllBytes(b[1..]));
      RowsAreUnique(a[1..], b[1..]);
      assert a == [a[0]] + a[1..] && b == [b[0]] + b[1..];
    }
  }

  lemma SortedReadable(rows: seq<Row>)
    requires DistinctKeys(rows, RowPath) && forall i | 0 <= i < |rows| :: IsReadable(rows[i])
    ensures forall i | 0 <= i < |SortBy(rows, RowPath)| :: IsReadable(SortBy(rows, RowPath)[i])
  {
    SortKeeps(rows, RowPath);
    var sorted := SortBy(rows, RowPath);
    forall i | 0 <= i < |sorted|
      ensures IsReadable(sorted[i])
    {
      assert sorted[i] in rows;
      var k :| 0 <= k < |rows| && rows[k] == sorted[i];
    }
  }

  lemma RowsReadable(sha: Bytes -> string, members: seq<SourceFile>)
    requires forall i | 0 <= i < |members| :: '\U{0000}' !in members[i].path
    requires forall b :: |Encode(sha(b))| == 64
    ensures forall i | 0 <= i < |RowsOf(sha, members)| :: IsReadable(RowsOf(sha, members)[i])
  {
    forall i | 0 <= i < |members|
      ensures IsReadable(RowOf(sha, members[i]))
    {
      AsciiBytesAreCharacters(members[i].path, '\U{0000}');
    }
  }

  /**
   * For NUL-free distinct paths and 64-character digests, two member sets have equal manifests
   * exactly when they have the same (path, file digest) rows.
   */
  lemma BytesIdentifyPackages(sha: Bytes -> string, a: seq<SourceFile>, b: seq<SourceFile>)
    requires DistinctPaths(a) && DistinctPaths(b)
    requires forall i | 0 <= i < |a| :: '\U{0000}' !in a[i].path
    requires forall i | 0 <= i < |b| :: '\U{0000}' !in b[i].path
    requires forall x :: |Encode(sha(x))| == 64
    ensures Manifest(sha, a) == Manifest(sha, b) <==> SameElements(RowsOf(sha, a), RowsOf(sha, b))
  {
    var x, y := RowsOf(sha, a), RowsOf(sha, b);
    PathKeysDistinct(sha, a);
    PathKeysDistinct(sha, b);
    SortIgnoresOrder(x, y, RowPath);
    RowsReadable(sha, a);
    RowsReadable(sha, b);
    SortedReadable(x);
    SortedReadable(y);
    hide RowsOf, SortBy, Encode, SameElements, DistinctKeys, IsReadable, AllBytes;
    if Manifest(sha, a) == Manifest(sha, b) {
      var p := Encode(PREFIX);
      assert Manifest(sha, a)[|p|..] == AllBytes(SortBy(x, RowPath));
      assert Manifest(sha, b)[|p|..] == AllBytes(SortBy(y, RowPath));
      RowsAreUnique(SortBy(x, RowPath), SortBy(y, RowPath));
    }
  }
}
