/**
 * The event sink: ordinary emissions and staged terminal events under one
 * event-domain identity, (run, sequence).
 */
module EventSink {
  import opened Options
  import opened Visibility
  import opened Fence

  /** `body` is the event's canonical serialization apart from its sequence. */
  datatype Event = Event(sequence: nat, body: string)

  datatype Identity = Identity(run: RunId, sequence: nat)

  /** A stored row is an object: `id` is its reference identity. */
  datatype Row = Row(id: nat, event: Event, commit: Option<CommitId>)

  datatype Reservation = Reservation(canonical: Event, stages: map<CommitId, Row>)

  datatype Sink = Sink(
    byRun: map<RunId, seq<Row>>,
    landed: map<Identity, Event>,
    reserved: map<Identity, Reservation>,
    fence: HighWater,
    nextRow: nat)

  /** What `abandon` of a staged event would release. */
  datatype Cleanup = Nothing | Stage(identity: Identity, commit: CommitId, row: Row)

  datatype Staging = Staged(cleanup: Cleanup) | NotStaged(reason: Answer)

  const EMPTY: Sink := Sink(map[], map[], map[], map[], 0)

  function RowsOf(byRun: map<RunId, seq<Row>>, run: RunId): seq<Row> {
    if run in byRun then byRun[run] else []
  }

  /** The first row at `sequence` whose commit has published. */
  function FirstPublished(rows: seq<Row>, published: set<CommitId>, sequence: nat): Option<Event> {
    if rows == [] then None
    else if rows[0].commit.Some? && IsVisible(published, rows[0].commit) && rows[0].event.sequence == sequence
    then Some(rows[0].event)
    else FirstPublished(rows[1..], published, sequence)
  }

  /** What durably occupies an identity. */
  function Durable(s: Sink, published: set<CommitId>, id: Identity): Option<Event> {
    if id in s.landed then Some(s.landed[id])
    else FirstPublished(RowsOf(s.byRun, id.run), published, id.sequence)
  }

  /** Whether some stage of the identity's reservation is still unpublished. */
  predicate HasLiveReservation(s: Sink, published: set<CommitId>, id: Identity) {
    id in s.reserved &&
    exists c <- s.reserved[id].stages :: !IsVisible(published, s.reserved[id].stages[c].commit)
  }

  function RemoveFirst(rows: seq<Row>, row: Row): seq<Row> {
    if rows == [] then []
    else if rows[0] == row then rows[1..]
    else [rows[0]] + RemoveFirst(rows[1..], row)
  }

  function WithoutRow(byRun: map<RunId, seq<Row>>, row: Row): map<RunId, seq<Row>> {
    map run | run in byRun :: RemoveFirst(byRun[run], row)
  }

  function WithoutStage(reserved: map<Identity, Reservation>, id: Identity, commit: CommitId, row: Row)
    : map<Identity, Reservation>
  {
    if id in reserved && commit in reserved[id].stages && reserved[id].stages[commit] == row then
      var stages := reserved[id].stages - {commit};
      if stages == map[] then reserved - {id} else reserved[id := reserved[id].(stages := stages)]
    else reserved
  }

  /** Release one transaction's stage: never a published row, never another's. */
  function Release(s: Sink, published: set<CommitId>, cleanup: Cleanup): Sink {
    if cleanup.Nothing? || IsVisible(published, cleanup.row.commit) then s
    else s.(reserved := WithoutStage(s.reserved, cleanup.identity, cleanup.commit, cleanup.row),
            byRun := WithoutRow(s.byRun, cleanup.row))
  }

  function Push(byRun: map<RunId, seq<Row>>, run: RunId, row: Row): map<RunId, seq<Row>> {
    byRun[run := RowsOf(byRun, run) + [row]]
  }

  function FilterOut(rows: seq<Row>, gone: set<Row>): seq<Row> {
    if rows == [] then []
    else if rows[0] in gone then FilterOut(rows[1..], gone)
    else [rows[0]] + FilterOut(rows[1..], gone)
  }

  /** Every stage of the identity retires at once, for an equal ordinary event that lands. */
  function RetireAll(s: Sink, id: Identity): Sink {
    if id !in s.reserved then s
    else
      var gone := s.reserved[id].stages.Values;
      s.(reserved := s.reserved - {id},
         byRun := map run | run in s.byRun :: FilterOut(s.byRun[run], gone))
  }

  function Land(s: Sink, id: Identity, event: Event): Sink {
    s.(landed := s.landed[id := event],
       byRun := Push(s.byRun, id.run, Row(s.nextRow, event, None)),
       nextRow := s.nextRow + 1)
  }

  /** An ordinary emission, presented under `sequence`. */
  function Emit(s0: Sink, published: set<CommitId>, fence: RunFence, sequence: nat, event: Event): (r: (Answer, Sink)) {
    var s := s0.(fence := After(s0.fence, fence));
    var id := Identity(fence.run, sequence);
    if !Admits(s0.fence, fence) then (StaleFence, s)
    else match Durable(s, published, id)
      case Some(durable) => (if durable == event then Accepted else ConflictingReplay, s)
      case None =>
        if HasLiveReservation(s, published, id) then
          if s.reserved[id].canonical != event then (ConflictingReplay, s)
          else (Accepted, Land(RetireAll(s, id), id, event))
        else (Accepted, Land(s, id, event))
  }

  /** Record the terminal event against `commit`, invisibly. */
  function StageEmit(s0: Sink, published: set<CommitId>, fence: RunFence, commit: CommitId, event: Event)
    : (r: (Staging, Sink))
  {
    var s := s0.(fence := After(s0.fence, fence));
    var id := Identity(fence.run, event.sequence);
    if !Admits(s0.fence, fence) then (NotStaged(StaleFence), s)
    else match Durable(s, published, id)
      case Some(durable) =>
        (if durable == event then Staged(Nothing) else NotStaged(ConflictingReplay), s)
      case None =>
        var live := HasLiveReservation(s, published, id);
        if live && s.reserved[id].canonical != event then (NotStaged(ConflictingReplay), s)
        else if live && commit in s.reserved[id].stages then
          (Staged(Stage(id, commit, s.reserved[id].stages[commit])), s)
        else
          var row := Row(s.nextRow, event, Some(commit));
          var stages := if live then s.reserved[id].stages else map[];
          (Staged(Stage(id, commit, row)),
           s.(byRun := Push(s.byRun, id.run, row),
              reserved := s.reserved[id := Reservation(event, stages[commit := row])],
              nextRow := s.nextRow + 1))
  }

  // ---------------------------------------------------------------- invariant

  ghost predicate Stored(s: Sink, run: RunId, row: Row) {
    row in RowsOf(s.byRun, run)
  }

  ghost predicate Distinct(rows: seq<Row>) {
    forall i, j | 0 <= i < j < |rows| :: rows[i] != rows[j]
  }

  /** Rows are distinct objects, each in one run. */
  ghost predicate RowsAreObjects(s: Sink) {
    && (forall run, row | Stored(s, run, row) :: row.id < s.nextRow)
    && (forall run :: Distinct(RowsOf(s.byRun, run)))
    && (forall run1, run2, row | Stored(s, run1, row) && Stored(s, run2, row) :: run1 == run2)
  }

  /** An uncommitted row and a landed identity are the same fact, once. */
  ghost predicate LandedMatchesRows(s: Sink) {
    && (forall run, row | Stored(s, run, row) && row.commit.None? ::
          var id := Identity(run, row.event.sequence); id in s.landed && s.landed[id] == row.event)
    && (forall id | id in s.landed ::
          s.landed[id].sequence == id.sequence &&
          exists row :: Stored(s, id.run, row) && row.commit.None? && row.event == s.landed[id])
    && (forall run, row1, row2 | Stored(s, run, row1) && Stored(s, run, row2) && row1.commit.None? && row2.commit.None?
          && row1.event.sequence == row2.event.sequence :: row1 == row2)
  }

  ghost predicate IsStage(s: Sink, id: Identity, commit: CommitId, row: Row) {
    id in s.reserved && commit in s.reserved[id].stages && s.reserved[id].stages[commit] == row
  }

  /** A committed row and a stage of its identity's reservation are the same thing. */
  ghost predicate ReservedMatchesRows(s: Sink) {
    && (forall run, row | Stored(s, run, row) && row.commit.Some? ::
          IsStage(s, Identity(run, row.event.sequence), row.commit.value, row))
    && (forall id, commit, row | IsStage(s, id, commit, row) ::
          Stored(s, id.run, row) && row.commit == Some(commit) && row.event == s.reserved[id].canonical)
    && (forall id | id in s.reserved :: s.reserved[id].stages != map[] && s.reserved[id].canonical.sequence == id.sequence)
    && s.landed.Keys !! s.reserved.Keys
  }

  ghost predicate Valid(s: Sink) {
    RowsAreObjects(s) && LandedMatchesRows(s) && ReservedMatchesRows(s)
  }

  ghost predicate Seen(s: Sink, published: set<CommitId>, run: RunId, row: Row) {
    Stored(s, run, row) && IsVisible(published, row.commit)
  }

  /** Some reader-visible row of `run` carries exactly `event`. */
  ghost predicate IsDurable(s: Sink, published: set<CommitId>, run: RunId, event: Event) {
    exists row :: Seen(s, published, run, row) && row.event == event
  }
}
