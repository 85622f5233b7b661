module EventSinkProofs {
  import opened Options
  import opened Visibility
  import opened Fence
  import opened EventSink

  // ------------------------------------------------------------ list lemmas

  lemma {:induction false} RemoveFirstDropsOne(rows: seq<Row>, row: Row)
    requires Distinct(rows)
    ensures forall other :: other in RemoveFirst(rows, row) <==> other in rows && other != row
    ensures Distinct(RemoveFirst(rows, row))
  {
    if rows != [] && rows[0] != row {
      RemoveFirstDropsOne(rows[1..], row);
      var left := RemoveFirst(rows, row);
      assert forall j | 0 < j < |left| :: left[j] in RemoveFirst(rows[1..], row);
    }
  }

  lemma {:induction false} FilterOutDropsAll(rows: seq<Row>, gone: set<Row>)
    requires Distinct(rows)
    ensures forall other :: other in FilterOut(rows, gone) <==> other in rows && other !in gone
    ensures Distinct(FilterOut(rows, gone))
  {
    if rows != [] {
      FilterOutDropsAll(rows[1..], gone);
      var rest := FilterOut(rows[1..], gone);
      assert rows[0] !in gone ==> forall j | 0 < j < |rest| + 1 :: FilterOut(rows, gone)[j] in rest;
    }
  }

  lemma {:induction false} FirstPublishedFinds(rows: seq<Row>, published: set<CommitId>, sequence: nat)
    ensures FirstPublished(rows, published, sequence).Some? <==>
      exists row :: row in rows && row.commit.Some? && IsVisible(published, row.commit) && row.event.sequence == sequence
    ensures var found := FirstPublished(rows, published, sequence);
      found.Some? ==> (exists row :: row in rows && row.commit.Some? && IsVisible(published, row.commit)
                                     && row.event.sequence == sequence && row.event == found.value)
  {
    if rows != [] {
      FirstPublishedFinds(rows[1..], published, sequence);
      assert forall row :: row in rows <==> row == rows[0] || row in rows[1..];
    }
  }

  // ----------------------------------------------------- identity implies fact

  /** All stored rows at one (run, sequence) carry the same canonical event. */
  lemma IdentityImpliesFact(s: Sink, run: RunId, row1: Row, row2: Row)
    requires Valid(s)
    requires Stored(s, run, row1) && Stored(s, run, row2) && row1.event.sequence == row2.event.sequence
    ensures row1.event == row2.event
  {
    var id := Identity(run, row1.event.sequence);
    if row1.commit.Some? {
      assert IsStage(s, id, row1.commit.value, row1);
    }
    if row2.commit.Some? {
      assert IsStage(s, id, row2.commit.value, row2);
    }
  }

  /** The durable-identity ledger answers exactly what a reader of the run would see. */
  lemma DurableIsWhatReadersSee(s: Sink, published: set<CommitId>, id: Identity, event: Event)
    requires Valid(s)
    ensures Durable(s, published, id) == Some(event) <==>
      event.sequence == id.sequence && IsDurable(s, published, id.run, event)
  {
    FirstPublishedFinds(RowsOf(s.byRun, id.run), published, id.sequence);
    if Durable(s, published, id) == Some(event) {
      if id in s.landed {
        var row :| Stored(s, id.run, row) && row.commit.None? && row.event == s.landed[id];
        assert Seen(s, published, id.run, row);
      } else {
        var row :| row in RowsOf(s.byRun, id.run) && row.commit.Some? && IsVisible(published, row.commit)
          && row.event.sequence == id.sequence && row.event == event;
        assert Seen(s, published, id.run, row);
      }
    }
    if event.sequence == id.sequence && IsDurable(s, published, id.run, event) {
      var row :| Seen(s, published, id.run, row) && row.event == event;
      if id in s.landed {
        var landed :| Stored(s, id.run, landed) && landed.commit.None? && landed.event == s.landed[id];
        IdentityImpliesFact(s, id.run, row, landed);
      } else {
        var found := FirstPublished(RowsOf(s.byRun, id.run), published, id.sequence);
        var first :| first in RowsOf(s.byRun, id.run) && first.event.sequence == id.sequence && first.event == found.value;
        assert Stored(s, id.run, first);
        IdentityImpliesFact(s, id.run, row, first);
      }
    }
  }

  // -------------------------------------------------- each operation's effect

  /** An identity that is neither durable nor reserved has never been used. */
  lemma UnusedIdentity(s: Sink, published: set<CommitId>, id: Identity)
    requires Valid(s) && Durable(s, published, id).None?
    ensures id !in s.landed
    ensures forall row | Stored(s, id.run, row) && row.event.sequence == id.sequence ::
              row.commit.Some? && !IsVisible(published, row.commit) && IsStage(s, id, row.commit.value, row)
    ensures id in s.reserved ==> HasLiveReservation(s, published, id)
  {
    FirstPublishedFinds(RowsOf(s.byRun, id.run), published, id.sequence);
    forall row | Stored(s, id.run, row) && row.event.sequence == id.sequence
      ensures row.commit.Some? && !IsVisible(published, row.commit) && IsStage(s, id, row.commit.value, row)
    {
    }
    if id in s.reserved {
      var c :| c in s.reserved[id].stages;
      assert IsStage(s, id, c, s.reserved[id].stages[c]);
    }
  }

  lemma PushStores(s: Sink, s': Sink, run: RunId, row: Row)
    requires s'.byRun == Push(s.byRun, run, row) && RowsAreObjects(s) && s.nextRow <= row.id
    ensures forall r, x :: Stored(s', r, x) <==> Stored(s, r, x) || (r == run && x == row)
    ensures forall r :: Distinct(RowsOf(s'.byRun, r))
  {
    assert !Stored(s, run, row);
    forall r
      ensures Distinct(RowsOf(s'.byRun, r))
    {
      assert Distinct(RowsOf(s.byRun, r));
    }
  }

  lemma LandKeepsValid(s: Sink, id: Identity, event: Event)
    requires Valid(s) && id !in s.landed && id !in s.reserved && event.sequence == id.sequence
    ensures Valid(Land(s, id, event))
  {
    var s' := Land(s, id, event);
    var row := Row(s.nextRow, event, None);
    PushStores(s, s', id.run, row);
    assert RowsAreObjects(s');
    LandKeepsLanded(s, s', id, row);
    LandKeepsReserved(s, s', id, row);
  }

  lemma LandKeepsLanded(s: Sink, s': Sink, id: Identity, row: Row)
    requires LandedMatchesRows(s) && id !in s.landed && row.event.sequence == id.sequence && row.commit.None?
    requires s'.landed == s.landed[id := row.event]
    requires forall r, x :: Stored(s', r, x) <==> Stored(s, r, x) || (r == id.run && x == row)
    ensures LandedMatchesRows(s')
  {
    assert Stored(s', id.run, row);
    forall k | k in s'.landed
      ensures exists r :: Stored(s', k.run, r) && r.commit.None? && r.event == s'.landed[k]
    {
      if k != id {
        var r :| Stored(s, k.run, r) && r.commit.None? && r.event == s.landed[k];
        assert Stored(s', k.run, r);
      }
    }
  }

  lemma LandKeepsReserved(s: Sink, s': Sink, id: Identity, row: Row)
    requires ReservedMatchesRows(s) && id !in s.reserved && row.commit.None?
    requires s'.landed == s.landed[id := row.event] && s'.reserved == s.reserved
    requires forall r, x :: Stored(s', r, x) <==> Stored(s, r, x) || (r == id.run && x == row)
    ensures ReservedMatchesRows(s')
  {
    assert forall k, commit, r :: IsStage(s', k, commit, r) <==> IsStage(s, k, commit, r);
  }

  lemma RetireAllStores(s: Sink, id: Identity)
    requires Valid(s) && id in s.reserved
    ensures forall run, row :: Stored(RetireAll(s, id), run, row) <==>
              Stored(s, run, row) && row !in s.reserved[id].stages.Values
    ensures forall run :: Distinct(RowsOf(RetireAll(s, id).byRun, run))
  {
    var s' := RetireAll(s, id);
    forall run
      ensures Distinct(RowsOf(s'.byRun, run))
      ensures forall row :: Stored(s', run, row) <==> Stored(s, run, row) && row !in s.reserved[id].stages.Values
    {
      FilterOutDropsAll(RowsOf(s.byRun, run), s.reserved[id].stages.Values);
    }
  }

  lemma RetireAllKeepsValid(s: Sink, id: Identity)
    requires Valid(s) && id in s.reserved
    ensures Valid(RetireAll(s, id)) && id !in RetireAll(s, id).reserved
  {
    var s' := RetireAll(s, id);
    var gone := s.reserved[id].stages.Values;
    RetireAllStores(s, id);
    forall row | row in gone
      ensures row.commit.Some? && Stored(s, id.run, row) && row.event.sequence == id.sequence
    {
      var c :| c in s.reserved[id].stages && s.reserved[id].stages[c] == row;
      assert IsStage(s, id, c, row);
    }
    forall k | k in s'.landed
      ensures exists r :: Stored(s', k.run, r) && r.commit.None? && r.event == s'.landed[k]
    {
      var r :| Stored(s, k.run, r) && r.commit.None? && r.event == s.landed[k];
      assert Stored(s', k.run, r);
    }
    forall run, r | Stored(s', run, r) && r.commit.Some?
      ensures IsStage(s', Identity(run, r.event.sequence), r.commit.value, r)
    {
      assert IsStage(s, Identity(run, r.event.sequence), r.commit.value, r);
    }
    forall k, commit, r | IsStage(s', k, commit, r)
      ensures Stored(s', k.run, r) && r.commit == Some(commit) && r.event == s'.reserved[k].canonical
    {
      assert IsStage(s, k, commit, r);
    }
  }

  /** Ordinary rows are untouched by a new committed row. */
  lemma AddStageKeepsLanded(s: Sink, s': Sink, run: RunId, row: Row)
    requires LandedMatchesRows(s) && s'.landed == s.landed && row.commit.Some?
    requires forall r, x :: Stored(s', r, x) <==> Stored(s, r, x) || (r == run && x == row)
    ensures LandedMatchesRows(s')
  {
    forall k | k in s'.landed
      ensures exists r :: Stored(s', k.run, r) && r.commit.None? && r.event == s'.landed[k]
    {
      var r :| Stored(s, k.run, r) && r.commit.None? && r.event == s.landed[k];
      assert Stored(s', k.run, r);
    }
  }

  lemma AddStageKeepsReserved(s: Sink, s': Sink, id: Identity, commit: CommitId, row: Row)
    requires ReservedMatchesRows(s) && id !in s.landed && row.event.sequence == id.sequence && row.commit == Some(commit)
    requires id in s.reserved ==> s.reserved[id].canonical == row.event && commit !in s.reserved[id].stages
    requires var stages := if id in s.reserved then s.reserved[id].stages else map[];
      s'.reserved == s.reserved[id := Reservation(row.event, stages[commit := row])] && s'.landed == s.landed
    requires forall r, x :: Stored(s', r, x) <==> Stored(s, r, x) || (r == id.run && x == row)
    ensures ReservedMatchesRows(s')
  {
    assert IsStage(s', id, commit, row);
    forall run, r | Stored(s', run, r) && r.commit.Some?
      ensures IsStage(s', Identity(run, r.event.sequence), r.commit.value, r)
    {
      if r != row {
        assert IsStage(s, Identity(run, r.event.sequence), r.commit.value, r);
      }
    }
    forall k, c, r | IsStage(s', k, c, r)
      ensures Stored(s', k.run, r) && r.commit == Some(c) && r.event == s'.reserved[k].canonical
    {
      if k != id || c != commit {
        assert IsStage(s, k, c, r);
      }
    }
  }

  lemma NewRowIsObject(s: Sink, s': Sink, run: RunId, row: Row)
    requires RowsAreObjects(s) && row.id == s.nextRow && s'.nextRow == s.nextRow + 1 && s'.byRun == Push(s.byRun, run, row)
    requires forall r, x :: Stored(s', r, x) <==> Stored(s, r, x) || (r == run && x == row)
    requires forall r :: Distinct(RowsOf(s'.byRun, r))
    ensures RowsAreObjects(s')
  {
    hide Distinct, Stored;
    forall r, x | Stored(s', r, x)
      ensures x.id < s'.nextRow
    {
    }
  }

  lemma AddStageKeepsValid(s: Sink, s': Sink, id: Identity, commit: CommitId, event: Event)
    requires Valid(s) && id !in s.landed && event.sequence == id.sequence
    requires id in s.reserved ==> s.reserved[id].canonical == event && commit !in s.reserved[id].stages
    requires var row := Row(s.nextRow, event, Some(commit));
      var stages := if id in s.reserved then s.reserved[id].stages else map[];
      s' == s.(byRun := Push(s.byRun, id.run, row), reserved := s.reserved[id := Reservation(event, stages[commit := row])],
               nextRow := s.nextRow + 1)
    ensures Valid(s')
  {
    hide LandedMatchesRows, ReservedMatchesRows, RowsAreObjects;
    var row := Row(s.nextRow, event, Some(commit));
    PushStores(s, s', id.run, row);
    NewRowIsObject(s, s', id.run, row);
    AddStageKeepsLanded(s, s', id.run, row);
    AddStageKeepsReserved(s, s', id, commit, row);
  }

  lemma ReleaseStores(s: Sink, published: set<CommitId>, cleanup: Cleanup)
    requires Valid(s) && cleanup.Stage? && !IsVisible(published, cleanup.row.commit)
    ensures forall run, row :: Stored(Release(s, published, cleanup), run, row) <==> Stored(s, run, row) && row != cleanup.row
    ensures forall run :: Distinct(RowsOf(Release(s, published, cleanup).byRun, run))
  {
    var s' := Release(s, published, cleanup);
    forall run
      ensures Distinct(RowsOf(s'.byRun, run))
      ensures forall row :: Stored(s', run, row) <==> Stored(s, run, row) && row != cleanup.row
    {
      RemoveFirstDropsOne(RowsOf(s.byRun, run), cleanup.row);
    }
  }

  /** The row a cleanup names is at the identity and under the commit it names. */
  ghost predicate Addressed(cleanup: Cleanup) {
    cleanup.Stage? ==>
      cleanup.row.commit == Some(cleanup.commit) && cleanup.row.event.sequence == cleanup.identity.sequence
  }

  ghost predicate InOwnRun(s: Sink, cleanup: Cleanup) {
    cleanup.Stage? ==> forall run | Stored(s, run, cleanup.row) :: run == cleanup.identity.run
  }

  lemma WithoutStageStages(s: Sink, s': Sink, id: Identity, commit: CommitId, row: Row)
    requires s'.reserved == WithoutStage(s.reserved, id, commit, row)
    requires forall k | k in s.reserved :: s.reserved[k].stages != map[]
    ensures forall k, c, r :: IsStage(s', k, c, r) <==> IsStage(s, k, c, r) && !(k == id && c == commit && r == row)
    ensures forall k | k in s'.reserved ::
              k in s.reserved && s'.reserved[k].stages != map[] && s'.reserved[k].canonical == s.reserved[k].canonical
  {
    if IsStage(s, id, commit, row) {
      var stages := s.reserved[id].stages - {commit};
      if stages == map[] {
        forall c | c in s.reserved[id].stages
          ensures c == commit
        {
          assert c == commit || c in stages;
        }
      }
    }
  }

  lemma ReleaseKeepsValid(s: Sink, published: set<CommitId>, cleanup: Cleanup)
    requires Valid(s) && Addressed(cleanup) && InOwnRun(s, cleanup)
    ensures Valid(Release(s, published, cleanup))
  {
    if cleanup.Stage? && !IsVisible(published, cleanup.row.commit) {
      var s' := Release(s, published, cleanup);
      var row := cleanup.row;
      ReleaseStores(s, published, cleanup);
      WithoutStageStages(s, s', cleanup.identity, cleanup.commit, row);
      ReleaseKeepsReserved(s, s', cleanup);
      forall k | k in s'.landed
        ensures exists r :: Stored(s', k.run, r) && r.commit.None? && r.event == s'.landed[k]
      {
        var r :| Stored(s, k.run, r) && r.commit.None? && r.event == s.landed[k];
        assert Stored(s', k.run, r);
      }
    }
  }

  lemma ReleaseKeepsReserved(s: Sink, s': Sink, cleanup: Cleanup)
    requires Valid(s) && cleanup.Stage? && Addressed(cleanup) && InOwnRun(s, cleanup) && s'.landed == s.landed
    requires forall run, row :: Stored(s', run, row) <==> Stored(s, run, row) && row != cleanup.row
    requires forall k, c, r :: IsStage(s', k, c, r) <==>
               IsStage(s, k, c, r) && !(k == cleanup.identity && c == cleanup.commit && r == cleanup.row)
    requires forall k | k in s'.reserved ::
              k in s.reserved && s'.reserved[k].stages != map[] && s'.reserved[k].canonical == s.reserved[k].canonical
    ensures ReservedMatchesRows(s')
  {
    forall k, c, r | IsStage(s', k, c, r)
      ensures Stored(s', k.run, r) && r.commit == Some(c) && r.event == s'.reserved[k].canonical
    {
      assert IsStage(s, k, c, r);
    }
    forall run, r | Stored(s', run, r) && r.commit.Some?
      ensures IsStage(s', Identity(run, r.event.sequence), r.commit.value, r)
    {
      assert IsStage(s, Identity(run, r.event.sequence), r.commit.value, r);
    }
  }

  // ---------------------------------------------------------------- theorems

  /** An ordinary emission keeps every identity's one fact. */
  lemma EmitKeepsValid(s: Sink, published: set<CommitId>, fence: RunFence, event: Event)
    requires Valid(s)
    ensures Valid(Emit(s, published, fence, event.sequence, event).1)
  {
    var s1 := s.(fence := After(s.fence, fence));
    assert SameRows(s, s1);
    SameRowsValid(s, s1);
    var id := Identity(fence.run, event.sequence);
    if Admits(s.fence, fence) && Durable(s1, published, id).None? {
      UnusedIdentity(s1, published, id);
      if HasLiveReservation(s1, published, id) {
        if s1.reserved[id].canonical == event {
          RetireAllKeepsValid(s1, id);
          LandKeepsValid(RetireAll(s1, id), id, event);
        }
      } else {
        LandKeepsValid(s1, id, event);
      }
    }
  }

  ghost predicate SameRows(s: Sink, s': Sink) {
    s' == s.(fence := s'.fence)
  }

  lemma SameRowsValid(s: Sink, s': Sink)
    requires SameRows(s, s')
    ensures Valid(s) <==> Valid(s')
  {
    assert forall run, row :: Stored(s, run, row) <==> Stored(s', run, row);
    assert forall id, c, row :: IsStage(s, id, c, row) <==> IsStage(s', id, c, row);
  }

  lemma StageEmitKeepsValid(s: Sink, published: set<CommitId>, fence: RunFence, commit: CommitId, event: Event)
    requires Valid(s)
    ensures Valid(StageEmit(s, published, fence, commit, event).1)
    ensures var staging := StageEmit(s, published, fence, commit, event).0;
      staging.Staged? ==> Addressed(staging.cleanup) && InOwnRun(StageEmit(s, published, fence, commit, event).1, staging.cleanup)
  {
    var s1 := s.(fence := After(s.fence, fence));
    SameRowsValid(s, s1);
    var id := Identity(fence.run, event.sequence);
    if Admits(s.fence, fence) && Durable(s1, published, id).None? {
      UnusedIdentity(s1, published, id);
      var live := HasLiveReservation(s1, published, id);
      if live && commit in s1.reserved[id].stages {
        assert IsStage(s1, id, commit, s1.reserved[id].stages[commit]);
      } else if !live || s1.reserved[id].canonical == event {
        AddStageKeepsValid(s1, StageEmit(s, published, fence, commit, event).1, id, commit, event);
        PushStores(s1, StageEmit(s, published, fence, commit, event).1, id.run, Row(s1.nextRow, event, Some(commit)));
      }
    }
  }

  // ------------------------------------------------------ nothing seen is lost

  lemma EmitEffect(s: Sink, published: set<CommitId>, fence: RunFence, event: Event)
    requires Valid(s)
    ensures var s' := Emit(s, published, fence, event.sequence, event).1;
      && s.nextRow <= s'.nextRow
      && (forall run, row | Seen(s, published, run, row) :: Stored(s', run, row))
      && (forall run, row | Stored(s', run, row) && !Stored(s, run, row) :: row.commit.None? && s.nextRow <= row.id)
      && (forall run, row | Stored(s, run, row) && !Stored(s', run, row) :: IsDurable(s', published, run, row.event))
    ensures Emit(s, published, fence, event.sequence, event).0 == Accepted ==>
              IsDurable(Emit(s, published, fence, event.sequence, event).1, published, fence.run, event)
  {
    var s' := Emit(s, published, fence, event.sequence, event).1;
    var s1 := s.(fence := After(s.fence, fence));
    SameRowsValid(s, s1);
    assert forall run, row :: Stored(s, run, row) <==> Stored(s1, run, row);
    var id := Identity(fence.run, event.sequence);
    if Admits(s.fence, fence) {
      if Durable(s1, published, id).None? {
        UnusedIdentity(s1, published, id);
        var live := HasLiveReservation(s1, published, id);
        if !live || s1.reserved[id].canonical == event {
          var s2 := if live then RetireAll(s1, id) else s1;
          if live {
            RetireAllStores(s1, id);
            RetireAllKeepsValid(s1, id);
            forall row | row in s1.reserved[id].stages.Values
              ensures row.event == event && !IsVisible(published, row.commit) && forall run | Stored(s1, run, row) :: run == id.run
            {
              var c :| c in s1.reserved[id].stages && s1.reserved[id].stages[c] == row;
              assert IsStage(s1, id, c, row);
            }
          }
          var row := Row(s.nextRow, event, None);
          PushStores(s2, s', id.run, row);
          assert Seen(s', published, id.run, row);
        }
      } else {
        DurableIsWhatReadersSee(s1, published, id, Durable(s1, published, id).value);
        if Durable(s1, published, id).value == event {
          var row :| Seen(s1, published, id.run, row) && row.event == event;
          assert Seen(s', published, id.run, row);
        }
      }
    }
  }

  lemma StageEmitEffect(s: Sink, published: set<CommitId>, fence: RunFence, commit: CommitId, event: Event)
    requires Valid(s)
    ensures var (staging, s') := StageEmit(s, published, fence, commit, event);
      && s.nextRow <= s'.nextRow
      && (forall run, row | Stored(s, run, row) :: Stored(s', run, row))
      && (forall run, row | Stored(s', run, row) && !Stored(s, run, row) ::
            run == fence.run && row.event == event && row.commit == Some(commit) && staging.Staged? && s.nextRow <= row.id)
      && (staging.Staged? && staging.cleanup.Nothing? ==> s' == s.(fence := s'.fence) && IsDurable(s', published, fence.run, event))
      && (staging.Staged? && staging.cleanup.Stage? ==>
            && staging.cleanup.identity == Identity(fence.run, event.sequence) && staging.cleanup.commit == commit
            && staging.cleanup.row.event == event && staging.cleanup.row.commit == Some(commit)
            && staging.cleanup.row.id < s'.nextRow
            && Stored(s', fence.run, staging.cleanup.row))
      && (staging.NotStaged? ==> s' == s.(fence := s'.fence))
  {
    var (staging, s') := StageEmit(s, published, fence, commit, event);
    var s1 := s.(fence := After(s.fence, fence));
    SameRowsValid(s, s1);
    assert forall run, row :: Stored(s, run, row) <==> Stored(s1, run, row);
    var id := Identity(fence.run, event.sequence);
    if Admits(s.fence, fence) {
      if Durable(s1, published, id).None? {
        UnusedIdentity(s1, published, id);
        var live := HasLiveReservation(s1, published, id);
        if live && commit in s1.reserved[id].stages {
          assert IsStage(s1, id, commit, s1.reserved[id].stages[commit]);
        } else if !live || s1.reserved[id].canonical == event {
          PushStores(s1, s', id.run, Row(s1.nextRow, event, Some(commit)));
          assert Stored(s', id.run, Row(s1.nextRow, event, Some(commit)));
        }
      } else if staging.Staged? {
        DurableIsWhatReadersSee(s1, published, id, event);
        var row :| Seen(s1, published, id.run, row) && row.event == event;
        assert Seen(s', published, id.run, row);
      }
    }
  }

  /** Abandoning a stage removes that stage's row and nothing else, and never a published one. */
  lemma ReleaseEffect(s: Sink, published: set<CommitId>, cleanup: Cleanup)
    requires Valid(s)
    ensures var s' := Release(s, published, cleanup);
      && s'.nextRow == s.nextRow && s'.landed == s.landed
      && (forall run, row :: Stored(s', run, row) <==>
            Stored(s, run, row) && !(cleanup.Stage? && !IsVisible(published, row.commit) && row == cleanup.row))
  {
    if cleanup.Stage? && !IsVisible(published, cleanup.row.commit) {
      ReleaseStores(s, published, cleanup);
    }
  }

  /** A reader of the run sees at most one row at this identity. */
  ghost predicate ShowsOneRow(s: Sink, published: set<CommitId>, id: Identity) {
    forall row1, row2 | Seen(s, published, id.run, row1) && Seen(s, published, id.run, row2)
                        && row1.event.sequence == id.sequence == row2.event.sequence :: row1 == row2
  }

  /** At most one of the commits staged at this identity is published. */
  ghost predicate OnePublishedStage(s: Sink, published: set<CommitId>, id: Identity) {
    forall c1, c2, row1, row2 | IsStage(s, id, c1, row1) && IsStage(s, id, c2, row2) && c1 in published && c2 in published ::
      c1 == c2
  }

  /** A reader sees at most one row at an identity exactly when at most one commit staged there is published. */
  lemma AtMostOneVisibleRow(s: Sink, published: set<CommitId>, id: Identity)
    requires Valid(s)
    ensures ShowsOneRow(s, published, id) <==> OnePublishedStage(s, published, id)
  {
    if OnePublishedStage(s, published, id) {
      forall row1, row2 | Seen(s, published, id.run, row1) && Seen(s, published, id.run, row2)
                          && row1.event.sequence == id.sequence == row2.event.sequence
        ensures row1 == row2
      {
        if row1.commit.Some? {
          assert IsStage(s, id, row1.commit.value, row1);
        }
        if row2.commit.Some? {
          assert IsStage(s, id, row2.commit.value, row2);
        }
      }
    }
    if ShowsOneRow(s, published, id) {
      forall c1, c2, row1, row2 | IsStage(s, id, c1, row1) && IsStage(s, id, c2, row2) && c1 in published && c2 in published
        ensures c1 == c2
      {
        assert Seen(s, published, id.run, row1) && Seen(s, published, id.run, row2);
      }
    }
  }

  // ------------------------------------------------------------- whole histories

  datatype Action =
    | Emitted(fence: RunFence, event: Event)
    | StagedEvent(fence: RunFence, commit: CommitId, event: Event)
    | Abandoned(cleanup: Cleanup)
    | Published(commit: CommitId)

  datatype History = History(sink: Sink, published: set<CommitId>, issued: set<Cleanup>)

  function Step(h: History, action: Action): History {
    match action
    case Emitted(fence, event) => h.(sink := Emit(h.sink, h.published, fence, event.sequence, event).1)
    case StagedEvent(fence, commit, event) =>
      var (staging, sink) := StageEmit(h.sink, h.published, fence, commit, event);
      h.(sink := sink, issued := h.issued + if staging.Staged? then {staging.cleanup} else {})
    case Abandoned(cleanup) =>
      if cleanup in h.issued then h.(sink := Release(h.sink, h.published, cleanup)) else h
    case Published(commit) => h.(published := h.published + {commit})
  }

  function Play(h: History, actions: seq<Action>): History
    decreases actions
  {
    if actions == [] then h else Play(Step(h, actions[0]), actions[1..])
  }

  ghost predicate Sound(h: History) {
    && Valid(h.sink)
    && (forall cleanup | cleanup in h.issued && cleanup.Stage? ::
          Addressed(cleanup) && InOwnRun(h.sink, cleanup) && cleanup.row.id < h.sink.nextRow)
  }

  lemma StepKeepsSound(h: History, action: Action)
    requires Sound(h)
    ensures Sound(Step(h, action))
    ensures forall run, row | Seen(h.sink, h.published, run, row) :: Seen(Step(h, action).sink, Step(h, action).published, run, row)
  {
    match action
    case Emitted(fence, event) =>
      EmitKeepsValid(h.sink, h.published, fence, event);
      EmitEffect(h.sink, h.published, fence, event);
    case StagedEvent(fence, commit, event) =>
      StageEmitKeepsValid(h.sink, h.published, fence, commit, event);
      StageEmitEffect(h.sink, h.published, fence, commit, event);
      var h' := Step(h, action);
      forall cleanup | cleanup in h'.issued && cleanup.Stage?
        ensures Addressed(cleanup) && InOwnRun(h'.sink, cleanup) && cleanup.row.id < h'.sink.nextRow
      {
        if cleanup in h.issued {
          StagedRowsAreFresh(h, fence, commit, event, cleanup);
        }
      }
    case Abandoned(cleanup) =>
      ReleaseEffect(h.sink, h.published, cleanup);
      if cleanup in h.issued {
        ReleaseKeepsValid(h.sink, h.published, cleanup);
      }
    case Published(commit) =>
  }

  lemma StagedRowsAreFresh(h: History, fence: RunFence, commit: CommitId, event: Event, cleanup: Cleanup)
    requires Sound(h) && cleanup in h.issued && cleanup.Stage?
    ensures InOwnRun(StageEmit(h.sink, h.published, fence, commit, event).1, cleanup)
  {
    StageEmitEffect(h.sink, h.published, fence, commit, event);
    var (staging, s') := StageEmit(h.sink, h.published, fence, commit, event);
    forall run | Stored(s', run, cleanup.row)
      ensures run == cleanup.identity.run
    {
      if !Stored(h.sink, run, cleanup.row) {
        assert false;
      }
    }
  }

  /**
   * Over every sequence of emissions, stagings, abandons of issued handles and publications:
   * an identity names one fact, a visible row stays visible, and a run shows two rows at an
   * identity only when two commits staged there are published.
   */
  lemma {:induction false} EventIdentityTheorem(h: History, actions: seq<Action>)
    requires Sound(h)
    ensures var h' := Play(h, actions);
      && Sound(h')
      && (forall run, row | Seen(h.sink, h.published, run, row) :: Seen(h'.sink, h'.published, run, row))
      && (forall run, row1, row2 | Stored(h'.sink, run, row1) && Stored(h'.sink, run, row2)
             && row1.event.sequence == row2.event.sequence :: row1.event == row2.event)
      && (forall id :: ShowsOneRow(h'.sink, h'.published, id) <==> OnePublishedStage(h'.sink, h'.published, id))
    decreases actions
  {
    hide ShowsOneRow, OnePublishedStage;
    if actions == [] {
      forall id
        ensures ShowsOneRow(h.sink, h.published, id) <==> OnePublishedStage(h.sink, h.published, id)
      {
        AtMostOneVisibleRow(h.sink, h.published, id);
      }
      forall run, row1, row2 | Stored(h.sink, run, row1) && Stored(h.sink, run, row2) && row1.event.sequence == row2.event.sequence
        ensures row1.event == row2.event
      {
        IdentityImpliesFact(h.sink, run, row1, row2);
      }
    } else {
      StepKeepsSound(h, actions[0]);
      EventIdentityTheorem(Step(h, actions[0]), actions[1..]);
    }
  }

  lemma InitiallySound()
    ensures Sound(History(EMPTY, {}, {}))
  {
    assert forall run, row :: !Stored(EMPTY, run, row);
  }

  /**
   * The emitter's discipline is needed: an event presented under a sequence that is not its own
   * lets two different events wear one sequence.
   */
  lemma MismatchedSequenceBreaksIdentity()
    ensures var fence := RunFence("r", 1);
      var s1 := Emit(EMPTY, {}, fence, 1, Event(2, "a")).1;
      var s2 := Emit(s1, {}, fence, 2, Event(2, "b")).1;
      exists row1, row2 :: Stored(s2, "r", row1) && Stored(s2, "r", row2)
        && row1.event.sequence == row2.event.sequence && row1.event != row2.event
  {
    var fence := RunFence("r", 1);
    var s1 := Emit(EMPTY, {}, fence, 1, Event(2, "a")).1;
    var row1 := Row(0, Event(2, "a"), None);
    assert Admits(map[], fence) && Durable(EMPTY.(fence := After(map[], fence)), {}, Identity("r", 1)).None?;
    assert RowsOf(s1.byRun, "r") == [row1];
    assert FirstPublished([row1], {}, 2) == FirstPublished([], {}, 2);
    var s2 := Emit(s1, {}, fence, 2, Event(2, "b")).1;
    var row2 := Row(1, Event(2, "b"), None);
    assert RowsOf(s2.byRun, "r") == [row1, row2];
    assert Stored(s2, "r", row1) && Stored(s2, "r", row2);
  }
}
