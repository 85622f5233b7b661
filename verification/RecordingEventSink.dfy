/** The event sink as the object it is: maps and lists updated in place. */
module RecordingSinks {
  import opened Options
  import opened Visibility
  import opened Fence
  import opened EventSink
  import opened EventSinkProofs

  lemma {:induction false} RemoveFirstAbsent(rows: seq<Row>, row: Row)
    requires row !in rows
    ensures RemoveFirst(rows, row) == rows
  {
    if rows != [] {
      RemoveFirstAbsent(rows[1..], row);
    }
  }

  lemma {:induction false} RemoveFirstSplices(rows: seq<Row>, index: nat)
    requires index < |rows| && rows[index] !in rows[..index]
    ensures RemoveFirst(rows, rows[index]) == rows[..index] + rows[index + 1..]
  {
    if index > 0 {
      RemoveFirstSplices(rows[1..], index - 1);
      assert rows[1..][..index - 1] == rows[..index][1..];
    }
  }

  lemma {:induction false} FilterOutNone(rows: seq<Row>)
    ensures FilterOut(rows, {}) == rows
  {
    if rows != [] {
      FilterOutNone(rows[1..]);
    }
  }

  /** Retiring one more stage: removing its one row is filtering it out. */
  lemma {:induction false} FilterOutOneMore(rows: seq<Row>, gone: set<Row>, row: Row)
    requires Distinct(rows)
    ensures RemoveFirst(FilterOut(rows, gone), row) == FilterOut(rows, gone + {row})
  {
    if rows != [] {
      FilterOutOneMore(rows[1..], gone, row);
      if rows[0] == row && row !in gone {
        FilterOutDropsAll(rows[1..], gone);
        RemoveFirstAbsent(FilterOut(rows[1..], gone), row);
      }
    }
  }

  ghost function StageRows(stages: map<CommitId, Row>, commits: set<CommitId>): set<Row> {
    set c | c in stages && c in commits :: stages[c]
  }

  /** The stages of `id` held by `commits` retired, the others untouched. */
  ghost function RetireSome(s: Sink, id: Identity, commits: set<CommitId>): Sink
    requires id in s.reserved
  {
    var stages := s.reserved[id].stages;
    var gone := StageRows(stages, commits);
    s.(reserved := if stages - commits == map[] then s.reserved - {id}
                   else s.reserved[id := s.reserved[id].(stages := stages - commits)],
       byRun := map run | run in s.byRun :: FilterOut(s.byRun[run], gone))
  }

  lemma ReservationHasStages(s: Sink, id: Identity)
    requires EventSink.Valid(s) && id in s.reserved
    ensures s.reserved[id].stages != map[]
  {
  }

  lemma RetireNone(s: Sink, id: Identity)
    requires id in s.reserved && s.reserved[id].stages != map[]
    ensures RetireSome(s, id, {}) == s
  {
    var stages := s.reserved[id].stages;
    var none: set<CommitId> := {};
    var gone := StageRows(stages, none);
    assert gone == {};
    assert stages - none == stages;
    forall run | run in s.byRun
      ensures FilterOut(s.byRun[run], gone) == s.byRun[run]
    {
      FilterOutNone(s.byRun[run]);
    }
    assert (map run | run in s.byRun :: FilterOut(s.byRun[run], gone)) == s.byRun;
  }

  lemma RetireEvery(s: Sink, id: Identity)
    requires id in s.reserved
    ensures RetireSome(s, id, s.reserved[id].stages.Keys) == RetireAll(s, id)
  {
    var stages := s.reserved[id].stages;
    assert StageRows(stages, stages.Keys) == stages.Values;
    assert stages - stages.Keys == map[];
  }

  lemma RetireSomeRows(s: Sink, id: Identity, commits: set<CommitId>)
    requires EventSink.Valid(s) && id in s.reserved
    ensures RowsAreObjects(RetireSome(s, id, commits))
  {
    var s' := RetireSome(s, id, commits);
    var stages := s.reserved[id].stages;
    var gone := StageRows(stages, commits);
    forall run
      ensures Distinct(RowsOf(s'.byRun, run)) && forall row | Stored(s', run, row) :: Stored(s, run, row)
    {
      FilterOutDropsAll(RowsOf(s.byRun, run), gone);
    }
  }

  lemma RetireOneMore(s: Sink, published: set<CommitId>, id: Identity, commits: set<CommitId>, c: CommitId)
    requires EventSink.Valid(s) && id in s.reserved && c in s.reserved[id].stages && c !in commits
    requires !IsVisible(published, s.reserved[id].stages[c].commit)
    ensures RowsAreObjects(RetireSome(s, id, commits))
    ensures Release(RetireSome(s, id, commits), published, Stage(id, c, s.reserved[id].stages[c])) == RetireSome(s, id, commits + {c})
  {
    var stages := s.reserved[id].stages;
    var row := stages[c];
    var s1, s2 := RetireSome(s, id, commits), RetireSome(s, id, commits + {c});
    RetireSomeRows(s, id, commits);
    var gone := StageRows(stages, commits);
    assert StageRows(stages, commits + {c}) == gone + {row};
    forall run | run in s.byRun
      ensures RemoveFirst(FilterOut(s.byRun[run], gone), row) == FilterOut(s.byRun[run], gone + {row})
    {
      assert RowsOf(s.byRun, run) == s.byRun[run];
      FilterOutOneMore(s.byRun[run], gone, row);
    }
    assert WithoutRow(s1.byRun, row) == s2.byRun;
    assert c in stages - commits;
    assert stages - commits - {c} == stages - (commits + {c});
    assert WithoutStage(s1.reserved, id, c, row) == s2.reserved;
  }

  /** While an identity is not durable, none of its stages has published. */
  lemma LiveMeansUnpublished(s: Sink, published: set<CommitId>, id: Identity)
    requires EventSink.Valid(s) && Durable(s, published, id).None? && HasLiveReservation(s, published, id)
    ensures id in s.reserved
    ensures forall c | c in s.reserved[id].stages :: !IsVisible(published, s.reserved[id].stages[c].commit)
  {
    UnusedIdentity(s, published, id);
    forall c | c in s.reserved[id].stages
      ensures !IsVisible(published, s.reserved[id].stages[c].commit)
    {
      assert IsStage(s, id, c, s.reserved[id].stages[c]);
    }
  }

  /** The events of the visible rows, in the order the rows were stored. */
  function EventsSeen(rows: seq<Row>, published: set<CommitId>): seq<Event> {
    if rows == [] then []
    else
      var n := |rows| - 1;
      EventsSeen(rows[..n], published) + if IsVisible(published, rows[n].commit) then [rows[n].event] else []
  }

  lemma {:induction false} EventsSeenAre(rows: seq<Row>, published: set<CommitId>, event: Event)
    ensures event in EventsSeen(rows, published) <==> exists row :: row in rows && IsVisible(published, row.commit) && row.event == event
  {
    if rows != [] {
      var n := |rows| - 1;
      EventsSeenAre(rows[..n], published, event);
      assert rows == rows[..n] + [rows[n]];
      if IsVisible(published, rows[n].commit) && rows[n].event == event {
        assert rows[n] in rows;
      }
    }
  }

  lemma {:induction false} SequencesSeenOnce(rows: seq<Row>, published: set<CommitId>, i: nat, j: nat)
    requires i < j < |EventsSeen(rows, published)|
    requires forall a, b | 0 <= a < b < |rows| && IsVisible(published, rows[a].commit) && IsVisible(published, rows[b].commit) ::
               rows[a].event.sequence != rows[b].event.sequence
    ensures EventsSeen(rows, published)[i].sequence != EventsSeen(rows, published)[j].sequence
  {
    var n := |rows| - 1;
    var before := EventsSeen(rows[..n], published);
    if j < |before| {
      SequencesSeenOnce(rows[..n], published, i, j);
    } else {
      EventsSeenAre(rows[..n], published, before[i]);
      var row :| row in rows[..n] && IsVisible(published, row.commit) && row.event == before[i];
      var a :| 0 <= a < n && rows[a] == row;
    }
  }

  /**
   * What a reader of a run is given is exactly its durable events, and as long as no identity has
   * two published stages, no sequence number appears in it twice.
   */
  lemma ReadersSeeEachIdentityOnce(s: Sink, published: set<CommitId>, run: RunId)
    requires EventSink.Valid(s)
    ensures var events := EventsSeen(RowsOf(s.byRun, run), published);
      && (forall event :: event in events <==> IsDurable(s, published, run, event))
      && ((forall id: Identity | id.run == run :: OnePublishedStage(s, published, id)) ==>
            forall i, j | 0 <= i < j < |events| :: events[i].sequence != events[j].sequence)
  {
    var rows := RowsOf(s.byRun, run);
    var events := EventsSeen(rows, published);
    forall event
      ensures event in events <==> IsDurable(s, published, run, event)
    {
      EventsSeenAre(rows, published, event);
      forall row
        ensures row in rows && IsVisible(published, row.commit) <==> Seen(s, published, run, row)
      {
      }
    }
    if forall id: Identity | id.run == run :: OnePublishedStage(s, published, id) {
      forall a, b | 0 <= a < b < |rows| && IsVisible(published, rows[a].commit) && IsVisible(published, rows[b].commit)
        ensures rows[a].event.sequence != rows[b].event.sequence
      {
        AtMostOneVisibleRow(s, published, Identity(run, rows[a].event.sequence));
        assert Seen(s, published, run, rows[a]) && Seen(s, published, run, rows[b]);
      }
      forall i, j | 0 <= i < j < |events|
        ensures events[i].sequence != events[j].sequence
      {
        SequencesSeenOnce(rows, published, i, j);
      }
    }
  }

  class RecordingEventSink {
    var byRun: map<RunId, seq<Row>>
    var landed: map<Identity, Event>
    var reserved: map<Identity, Reservation>
    var nextRow: nat
    const fence: FenceLedger
    const visibility: CommitLedger

    function State(): Sink
      reads this, fence
    {
      Sink(byRun, landed, reserved, fence.high, nextRow)
    }

    constructor (visibility: CommitLedger)
      ensures State() == EMPTY && this.visibility == visibility && fresh(fence)
    {
      byRun, landed, reserved, nextRow := map[], map[], map[], 0;
      this.visibility := visibility;
      fence := new FenceLedger();
    }

    method DurableCanonical(id: Identity) returns (durable: Option<Event>)
      ensures durable == Durable(State(), visibility.published, id)
    {
      if id in landed {
        return Some(landed[id]);
      }
      var rows := RowsOf(byRun, id.run);
      for i := 0 to |rows|
        invariant FirstPublished(rows, visibility.published, id.sequence)
               == FirstPublished(rows[i..], visibility.published, id.sequence)
      {
        if rows[i].commit.Some? && IsVisible(visibility.published, rows[i].commit) && rows[i].event.sequence == id.sequence {
          return Some(rows[i].event);
        }
      }
      durable := None;
    }

    method LiveReservation(id: Identity) returns (live: bool)
      ensures live == HasLiveReservation(State(), visibility.published, id)
    {
      if id !in reserved {
        return false;
      }
      var todo := reserved[id].stages.Keys;
      while todo != {}
        invariant todo <= reserved[id].stages.Keys
        invariant forall c | c in reserved[id].stages.Keys - todo :: IsVisible(visibility.published, reserved[id].stages[c].commit)
      {
        var c :| c in todo;
        if !IsVisible(visibility.published, reserved[id].stages[c].commit) {
          return true;
        }
        todo := todo - {c};
      }
      live := false;
    }

    /** Splice the row object out of whichever run's list holds it. */
    method RemoveRow(row: Row)
      requires RowsAreObjects(State())
      modifies this`byRun
      ensures byRun == WithoutRow(old(byRun), row)
    {
      var todo := byRun.Keys;
      while todo != {}
        invariant todo <= byRun.Keys && byRun == old(byRun)
        invariant forall run | run in byRun.Keys - todo :: row !in byRun[run]
      {
        var run :| run in todo;
        var rows := byRun[run];
        for i := 0 to |rows|
          invariant byRun == old(byRun) && row !in rows[..i]
        {
          if rows[i] == row {
            RemoveFirstSplices(rows, i);
            forall other | other in byRun && other != run
              ensures RemoveFirst(byRun[other], row) == byRun[other]
            {
              assert Stored(State(), run, row);
              assert !Stored(State(), other, row);
              RemoveFirstAbsent(byRun[other], row);
            }
            byRun := byRun[run := rows[..i] + rows[i + 1..]];
            return;
          }
        }
        todo := todo - {run};
      }
      forall run | run in byRun
        ensures RemoveFirst(byRun[run], row) == byRun[run]
      {
        RemoveFirstAbsent(byRun[run], row);
      }
    }

    method ReleaseStage(id: Identity, commit: CommitId, row: Row)
      requires RowsAreObjects(State())
      modifies this
      ensures State() == Release(old(State()), visibility.published, Stage(id, commit, row))
    {
      if IsVisible(visibility.published, row.commit) {
        return;
      }
      if id in reserved && commit in reserved[id].stages && reserved[id].stages[commit] == row {
        var stages := reserved[id].stages - {commit};
        if |stages| == 0 {
          reserved := reserved - {id};
        } else {
          reserved := reserved[id := reserved[id].(stages := stages)];
        }
      }
      assert forall run, r :: Stored(State(), run, r) <==> old(Stored(State(), run, r));
      RemoveRow(row);
    }

    /** Retire every stage of a live, wholly unpublished reservation. */
    method RetireStages(id: Identity)
      requires EventSink.Valid(State()) && id in reserved
      requires forall c | c in reserved[id].stages :: !IsVisible(visibility.published, reserved[id].stages[c].commit)
      modifies this
      ensures State() == RetireAll(old(State()), id)
    {
      ghost var s0 := State();
      var stages := reserved[id].stages;
      var todo := stages.Keys;
      ReservationHasStages(s0, id);
      RetireNone(s0, id);
      assert stages.Keys - todo == {};
      while todo != {}
        invariant todo <= stages.Keys
        invariant State() == RetireSome(s0, id, stages.Keys - todo)
      {
        var c :| c in todo;
        RetireOneMore(s0, visibility.published, id, stages.Keys - todo, c);
        assert stages.Keys - (todo - {c}) == (stages.Keys - todo) + {c};
        ReleaseStage(id, c, stages[c]);
        todo := todo - {c};
      }
      RetireEvery(s0, id);
    }

    method Emit(request: RunFence, sequence: nat, event: Event) returns (answer: Answer)
      requires EventSink.Valid(State())
      modifies this, fence
      ensures (answer, State()) == EventSink.Emit(old(State()), visibility.published, request, sequence, event)
      ensures sequence == event.sequence ==> EventSink.Valid(State())
    {
      hide EventSink.Valid, RetireAll, Land, Durable;
      ghost var s0 := State();
      var refused := fence.Refuse(request);
      SameRowsValid(s0, State());
      if sequence == event.sequence {
        EmitKeepsValid(s0, visibility.published, request, event);
      }
      if refused {
        return StaleFence;
      }
      var id := Identity(request.run, sequence);
      var durable := DurableCanonical(id);
      if durable.Some? {
        return if durable.value == event then Accepted else ConflictingReplay;
      }
      var live := LiveReservation(id);
      if live {
        if reserved[id].canonical != event {
          return ConflictingReplay;
        }
        LiveMeansUnpublished(State(), visibility.published, id);
        RetireStages(id);
      }
      LandEvent(id, event);
      answer := Accepted;
    }

    method LandEvent(id: Identity, event: Event)
      modifies this
      ensures State() == Land(old(State()), id, event)
    {
      landed := landed[id := event];
      byRun := byRun[id.run := RowsOf(byRun, id.run) + [Row(nextRow, event, None)]];
      nextRow := nextRow + 1;
    }

    method StageEmit(request: RunFence, commit: CommitId, event: Event) returns (staging: Staging)
      requires EventSink.Valid(State())
      modifies this, fence
      ensures (staging, State()) == EventSink.StageEmit(old(State()), visibility.published, request, commit, event)
      ensures EventSink.Valid(State())
    {
      hide EventSink.Valid, Durable;
      StageEmitKeepsValid(State(), visibility.published, request, commit, event);
      var refused := fence.Refuse(request);
      if refused {
        return NotStaged(StaleFence);
      }
      var id := Identity(request.run, event.sequence);
      var durable := DurableCanonical(id);
      if durable.Some? {
        return if durable.value == event then Staged(Nothing) else NotStaged(ConflictingReplay);
      }
      var live := LiveReservation(id);
      if live {
        if reserved[id].canonical != event {
          return NotStaged(ConflictingReplay);
        }
        if commit in reserved[id].stages {
          return Staged(Stage(id, commit, reserved[id].stages[commit]));
        }
      }
      var stages := if live then reserved[id].stages else map[];
      var row := ReserveRow(id, commit, event, stages);
      staging := Staged(Stage(id, commit, row));
    }

    /** A new invisible row, joined to the stages of its identity's reservation. */
    method ReserveRow(id: Identity, commit: CommitId, event: Event, stages: map<CommitId, Row>) returns (row: Row)
      modifies this
      ensures row == Row(old(nextRow), event, Some(commit))
      ensures State() == old(State()).(byRun := Push(old(byRun), id.run, row),
                                       reserved := old(reserved)[id := Reservation(event, stages[commit := row])],
                                       nextRow := old(nextRow) + 1)
    {
      row := Row(nextRow, event, Some(commit));
      byRun := byRun[id.run := RowsOf(byRun, id.run) + [row]];
      reserved := reserved[id := Reservation(event, stages[commit := row])];
      nextRow := nextRow + 1;
    }

    /** What a reader of one run sees: its visible events, in the order they were stored. */
    method EventsOf(run: RunId) returns (events: seq<Event>)
      ensures events == EventsSeen(RowsOf(byRun, run), visibility.published)
    {
      events := [];
      var rows := RowsOf(byRun, run);
      for i := 0 to |rows|
        invariant events == EventsSeen(rows[..i], visibility.published)
      {
        assert rows[..i + 1][..i] == rows[..i];
        if IsVisible(visibility.published, rows[i].commit) {
          events := events + [rows[i].event];
        }
      }
      assert rows[..|rows|] == rows;
    }
  }
}
