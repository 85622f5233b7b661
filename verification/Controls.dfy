/** The supplied-table check: a table reaches the machine only as a narrowing of the canonical one. */
module Controls {
  import opened Options
  import opened Lifecycle

  /** A property name of the supplied object: one the lifecycle knows, or any other. */
  datatype StateKey = KnownState(state: LifecycleState) | UnknownState(name: string)
  datatype KindKey = KnownKind(kind: TransitionKind) | UnknownKind(name: string)

  /** A property value where a state is expected. */
  datatype Target = Undefined | To(state: LifecycleState) | Nowhere(name: string)

  /** A property value where a row is expected: its reachable properties, each once. */
  datatype Cell = NotARow | Cells(row: seq<(KindKey, Target)>)

  type Candidate = seq<(StateKey, Cell)>

  datatype TableCheck = Accepted(table: TransitionTable) | WidensState(key: StateKey) | AddsOrRedirects(key: StateKey, kind: KindKey)

  ghost predicate DistinctKeys(candidate: Candidate) {
    && (forall i, j | 0 <= i < j < |candidate| :: candidate[i].0 != candidate[j].0)
    && (forall i, a, b | 0 <= i < |candidate| && candidate[i].1.Cells? && 0 <= a < b < |candidate[i].1.row| ::
          candidate[i].1.row[a].0 != candidate[i].1.row[b].0)
  }

  /** What a plain lookup in the supplied object answers. */
  ghost predicate Supplies(candidate: Candidate, state: LifecycleState, kind: TransitionKind, target: Target) {
    exists i, a :: 0 <= i < |candidate| && candidate[i].0 == KnownState(state) && candidate[i].1.Cells?
      && 0 <= a < |candidate[i].1.row| && candidate[i].1.row[a] == (KnownKind(kind), target)
  }

  predicate IsDeclaredCell(row: Row, cell: (KindKey, Target)) {
    cell.1.Undefined? || (cell.0.KnownKind? && cell.0.kind in row && cell.1 == To(row[cell.0.kind]))
  }

  predicate IsDeclaredRow(entry: (StateKey, Cell)) {
    entry.1.Cells? ==>
      && entry.0.KnownState? && entry.0.state in TRANSITIONS
      && forall a | 0 <= a < |entry.1.row| :: IsDeclaredCell(TRANSITIONS[entry.0.state], entry.1.row[a])
  }

  predicate Narrows(candidate: Candidate) {
    forall i | 0 <= i < |candidate| :: IsDeclaredRow(candidate[i])
  }

  /** `row` holds exactly the defined cells among the first `n`. */
  ghost predicate Copied(cells: seq<(KindKey, Target)>, n: nat, row: Row)
    requires n <= |cells|
  {
    && (forall kind | kind in row :: exists a :: 0 <= a < n && cells[a] == (KnownKind(kind), To(row[kind])))
    && (forall a | 0 <= a < n && !cells[a].1.Undefined? ::
          cells[a].0.KnownKind? && cells[a].0.kind in row && cells[a].1 == To(row[cells[a].0.kind]))
  }

  method CopyRow(declared: Row, cells: seq<(KindKey, Target)>) returns (copied: Option<Row>, refused: KindKey)
    requires forall a, b | 0 <= a < b < |cells| :: cells[a].0 != cells[b].0
    ensures copied.Some? <==> forall a | 0 <= a < |cells| :: IsDeclaredCell(declared, cells[a])
    ensures copied.Some? ==> Copied(cells, |cells|, copied.value)
  {
    var row: Row := map[];
    refused := UnknownKind("");
    for a := 0 to |cells|
      invariant forall b | 0 <= b < a :: IsDeclaredCell(declared, cells[b])
      invariant Copied(cells, a, row)
    {
      var (key, target) := cells[a];
      if target.Undefined? {
        continue;
      }
      if !key.KnownKind? || key.kind !in declared || target != To(declared[key.kind]) {
        refused := key;
        return None, refused;
      }
      ghost var before := row;
      row := row[key.kind := declared[key.kind]];
      forall b | 0 <= b < a && !cells[b].1.Undefined?
        ensures cells[b].0.KnownKind? && cells[b].0.kind in row && cells[b].1 == To(row[cells[b].0.kind])
      {
        assert cells[b].0.kind in before && cells[b].1 == To(before[cells[b].0.kind]);
      }
      forall kind | kind in row
        ensures exists b :: 0 <= b < a + 1 && cells[b] == (KnownKind(kind), To(row[kind]))
      {
        if kind == key.kind {
          assert cells[a] == (KnownKind(kind), To(row[kind]));
        } else {
          var b :| 0 <= b < a && cells[b] == (KnownKind(kind), To(before[kind]));
        }
      }
    }
    copied := Some(row);
  }

  ghost predicate IsRowOf(entry: (StateKey, Cell), state: LifecycleState, row: Row) {
    entry.0 == KnownState(state) && entry.1.Cells? && Copied(entry.1.row, |entry.1.row|, row)
  }

  /** The table built from the first `n` entries. */
  ghost predicate Materialized(candidate: Candidate, n: nat, table: TransitionTable)
    requires n <= |candidate|
  {
    && (forall state | state in table :: exists i :: 0 <= i < n && IsRowOf(candidate[i], state, table[state]))
    && (forall i | 0 <= i < n && candidate[i].1.Cells? :: candidate[i].0.KnownState? && candidate[i].0.state in table)
  }

  /**
   * Accepted exactly when every supplied pair is a declared pair leading to the same state; what
   * the machine then gets is a fresh table that answers every lookup as the supplied one did.
   */
  method NarrowingOnly(candidate: Option<Candidate>) returns (check: TableCheck)
    requires candidate.Some? ==> DistinctKeys(candidate.value)
    ensures candidate.None? ==> check == Accepted(TRANSITIONS)
    ensures candidate.Some? ==> (check.Accepted? <==> Narrows(candidate.value))
    ensures check.Accepted? ==> IsSubTable(check.table, TRANSITIONS)
    ensures candidate.Some? && check.Accepted? ==>
      forall state, kind, to :: DeclaredNext(check.table, state, kind) == Some(to) <==> Supplies(candidate.value, state, kind, To(to))
  {
    if candidate.None? {
      return Accepted(TRANSITIONS);
    }
    var supplied := candidate.value;
    var table: TransitionTable := map[];
    for i := 0 to |supplied|
      invariant forall k | 0 <= k < i :: IsDeclaredRow(supplied[k])
      invariant Materialized(supplied, i, table)
    {
      var (key, cell) := supplied[i];
      if cell.NotARow? {
        continue;
      }
      if !key.KnownState? || key.state !in TRANSITIONS {
        return WidensState(key);
      }
      var copied, refused := CopyRow(TRANSITIONS[key.state], cell.row);
      if copied.None? {
        return AddsOrRedirects(key, refused);
      }
      ghost var before := table;
      table := table[key.state := copied.value];
      forall state | state in table
        ensures exists k :: 0 <= k < i + 1 && IsRowOf(supplied[k], state, table[state])
      {
        if state == key.state {
          assert IsRowOf(supplied[i], state, table[state]);
        } else {
          var k :| 0 <= k < i && IsRowOf(supplied[k], state, before[state]);
        }
      }
    }
    check := Accepted(table);
    forall state, kind, to
      ensures DeclaredNext(table, state, kind) == Some(to) <==> Supplies(supplied, state, kind, To(to))
    {
      LookupsAgree(supplied, table, state, kind, to);
    }
    SuppliedIsDeclared(supplied, table);
  }

  /** A row that is in the table came from the one entry that supplies its state. */
  lemma RowOfEntry(candidate: Candidate, table: TransitionTable, i: nat, state: LifecycleState)
    requires DistinctKeys(candidate) && Materialized(candidate, |candidate|, table)
    requires i < |candidate| && candidate[i].0 == KnownState(state) && candidate[i].1.Cells?
    ensures state in table && IsRowOf(candidate[i], state, table[state])
  {
    hide Copied;
    var k :| 0 <= k < |candidate| && IsRowOf(candidate[k], state, table[state]);
    assert k == i;
  }

  lemma LookupsAgree(candidate: Candidate, table: TransitionTable, state: LifecycleState, kind: TransitionKind, to: LifecycleState)
    requires DistinctKeys(candidate) && Materialized(candidate, |candidate|, table)
    ensures DeclaredNext(table, state, kind) == Some(to) <==> Supplies(candidate, state, kind, To(to))
  {
    if DeclaredNext(table, state, kind) == Some(to) {
      var i :| 0 <= i < |candidate| && IsRowOf(candidate[i], state, table[state]);
      var a :| 0 <= a < |candidate[i].1.row| && candidate[i].1.row[a] == (KnownKind(kind), To(table[state][kind]));
    }
    if Supplies(candidate, state, kind, To(to)) {
      var i, a :| 0 <= i < |candidate| && candidate[i].0 == KnownState(state) && candidate[i].1.Cells?
                  && 0 <= a < |candidate[i].1.row| && candidate[i].1.row[a] == (KnownKind(kind), To(to));
      RowOfEntry(candidate, table, i, state);
    }
    hide DistinctKeys, Materialized;
  }

  lemma SuppliedIsDeclared(candidate: Candidate, table: TransitionTable)
    requires Narrows(candidate)
    requires forall state, kind, to :: DeclaredNext(table, state, kind) == Some(to) <==> Supplies(candidate, state, kind, To(to))
    ensures IsSubTable(table, TRANSITIONS)
  {
    forall state, kind | DeclaredNext(table, state, kind).Some?
      ensures DeclaredNext(TRANSITIONS, state, kind) == DeclaredNext(table, state, kind)
    {
      var to := DeclaredNext(table, state, kind).value;
      var i, a :| 0 <= i < |candidate| && candidate[i].0 == KnownState(state) && candidate[i].1.Cells?
                  && 0 <= a < |candidate[i].1.row| && candidate[i].1.row[a] == (KnownKind(kind), To(to));
      assert IsDeclaredRow(candidate[i]);
      assert IsDeclaredCell(TRANSITIONS[state], candidate[i].1.row[a]);
    }
  }
}
