/** What each store operation does to the stores' half of the coordinator's invariant. */
module FinalizationStores {
  import opened Options
  import opened Visibility
  import opened Fence
  import opened Lifecycle
  import opened Finalization
  import Journal
  import EventSink
  import EventSinkProofs
  import EvidenceSink

  // ------------------------------------------------------------------ journal

  lemma JournalStaged(j: Journal.JournalState, owners: OwnerMap, k: Commit)
    requires JournalOk(j, owners) && k.id !in owners
    ensures var (staged, j') := Journal.StageTransitions(j, Holder(k), k.id, k.transitions);
      JournalOk(j', if staged then owners[k.id := k] else owners)
  {
    var (staged, j') := Journal.StageTransitions(j, Holder(k), k.id, k.transitions);
    if staged {
      forall run, c
        ensures Journal.Under(Journal.PageOf(j', run).transitions, c)
             == Journal.Under(Journal.PageOf(j, run).transitions, c) + if run == k.run && c == k.id then k.transitions else []
      {
        TailAdded(j, j', k, run, c);
      }
    }
  }

  lemma TailAdded(j: Journal.JournalState, j': Journal.JournalState, k: Commit, run: RunId, c: CommitId)
    requires Journal.StageTransitions(j, Holder(k), k.id, k.transitions) == (true, j')
    ensures Journal.Under(Journal.PageOf(j', run).transitions, c)
         == Journal.Under(Journal.PageOf(j, run).transitions, c) + if run == k.run && c == k.id then k.transitions else []
  {
    var rows := Journal.PageOf(j, run).transitions;
    if run == k.run {
      assert Journal.PageOf(j', run).transitions == rows + Journal.Tail(k.transitions, k.id);
      Journal.UnderSplits(rows, Journal.Tail(k.transitions, k.id), c);
      Journal.UnderTail(k.transitions, k.id, c);
    } else {
      assert Journal.PageOf(j', run) == Journal.PageOf(j, run);
    }
  }

  /** What one page holds under one commit, given who owns what. */
  function Owed(owners: OwnerMap, run: RunId, c: CommitId): seq<TransitionEntry> {
    if c in owners && owners[c].run == run then owners[c].transitions else []
  }

  lemma JournalAbandoned(j: Journal.JournalState, owners: OwnerMap, k: Commit)
    requires JournalOk(j, owners) && k.id in owners && owners[k.id].run == k.run
    ensures JournalOk(Journal.AbandonTail(j, k.run, k.id), owners - {k.id})
  {
    var j' := Journal.AbandonTail(j, k.run, k.id);
    var owners' := owners - {k.id};
    forall run, c
      ensures Journal.Under(Journal.PageOf(j', run).transitions, c) == Owed(owners', run, c)
    {
      assert Journal.Under(Journal.PageOf(j, run).transitions, c) == Owed(owners, run, c);
      AbandonedUnder(j, k, run, c);
    }
  }

  lemma AbandonedUnder(j: Journal.JournalState, k: Commit, run: RunId, c: CommitId)
    ensures var rows := Journal.PageOf(j, run).transitions;
      Journal.Under(Journal.PageOf(Journal.AbandonTail(j, k.run, k.id), run).transitions, c)
      == if run == k.run && c == k.id then [] else Journal.Under(rows, c)
  {
    Journal.UnderDropped(Journal.PageOf(j, run).transitions, k.id, c);
  }

  lemma AppendedUnder(j: Journal.JournalState, fence: RunFence, id: Journal.EntryId, fact: Journal.Fact, run: RunId, c: CommitId)
    ensures var j' := Journal.Append(j, fence, id, fact).1;
      Journal.Under(Journal.PageOf(j', run).transitions, c) == Journal.Under(Journal.PageOf(j, run).transitions, c)
  {
    var rows := Journal.PageOf(j, run).transitions;
    var rows' := Journal.PageOf(Journal.Append(j, fence, id, fact).1, run).transitions;
    if fact.TransitionFact? {
      var row := Journal.StoredTransition(fact.transition, None);
      assert rows' == rows || rows' == rows + [row];
      Journal.UnderSplits(rows, [row], c);
      assert Journal.Under([row], c) == [];
    } else {
      assert rows' == rows;
    }
  }

  lemma JournalAppended(j: Journal.JournalState, owners: OwnerMap, fence: RunFence, id: Journal.EntryId, fact: Journal.Fact)
    requires JournalOk(j, owners)
    ensures JournalOk(Journal.Append(j, fence, id, fact).1, owners)
  {
    hide Journal.Append, Journal.Under;
    var j' := Journal.Append(j, fence, id, fact).1;
    forall run, c
      ensures Journal.Under(Journal.PageOf(j', run).transitions, c) == Owed(owners, run, c)
    {
      assert Journal.Under(Journal.PageOf(j, run).transitions, c) == Owed(owners, run, c);
      AppendedUnder(j, fence, id, fact, run, c);
    }
  }

  // ----------------------------------------------------------------- evidence

  lemma EvidenceStaged(e: EvidenceSink.EvidenceState, owners: OwnerMap, k: Commit)
    requires EvidenceOk(e, owners) && k.id !in owners
    ensures var (staged, e') := EvidenceSink.StageWrite(e, Holder(k), k.id, k.bundle);
      EvidenceOk(e', if staged then owners[k.id := k] else owners)
  {
    var row := SealOf(k, k.id);
    forall c
      ensures EvidenceSink.Under(e.writes + [row], c) == EvidenceSink.Under(e.writes, c) + if c == k.id then [row] else []
    {
      EvidenceSink.UnderSplits(e.writes, [row], c);
      assert EvidenceSink.Under([row], c) == if c == k.id then [row] else [];
    }
  }

  lemma EvidenceAbandoned(e: EvidenceSink.EvidenceState, owners: OwnerMap, id: CommitId)
    requires EvidenceOk(e, owners)
    ensures EvidenceOk(EvidenceSink.AbandonWrite(e, id), owners - {id})
  {
    forall c {
      EvidenceSink.UnderDropped(e.writes, id, c);
    }
  }

  lemma EvidenceWritten(e: EvidenceSink.EvidenceState, owners: OwnerMap, fence: RunFence, id: string, record: EvidenceSink.Record)
    requires EvidenceOk(e, owners)
    ensures EvidenceOk(EvidenceSink.WriteRecord(e, fence, id, record).1, owners)
  {
    var row := EvidenceSink.StoredWrite(fence.run, record, None);
    forall c
      ensures EvidenceSink.Under(e.writes + [row], c) == EvidenceSink.Under(e.writes, c)
    {
      EvidenceSink.UnderSplits(e.writes, [row], c);
      assert EvidenceSink.Under([row], c) == [];
    }
  }

  // ------------------------------------------------------------------- events

  /** Rows that persist keep every commit's event carried. */
  lemma CarriedKept(e: EventSink.Sink, e': EventSink.Sink, published: set<CommitId>, published': set<CommitId>, c: CommitId, k: Commit)
    requires Carried(e, published, c, k) && published <= published'
    requires forall run, row | EventSink.Seen(e, published, run, row) :: EventSink.Stored(e', run, row)
    requires forall row | EventSink.Stored(e, k.run, row) && row.commit == Some(c) && row.event == k.event ::
               EventSink.Stored(e', k.run, row) || EventSink.IsDurable(e', published', k.run, k.event)
    ensures Carried(e', published', c, k)
  {
    if EventSink.IsDurable(e, published, k.run, k.event) {
      var row :| EventSink.Seen(e, published, k.run, row) && row.event == k.event;
      assert EventSink.Seen(e', published', k.run, row);
    } else {
      var row :| EventSink.Stored(e, k.run, row) && row.commit == Some(c) && row.event == k.event;
    }
  }

  /** After staging, the only rows of `k` are the one its cleanup names; all others were there. */
  lemma EventStagedRows(e: EventSink.Sink, published: set<CommitId>, owners: OwnerMap, k: Commit)
    requires EventsOk(e, published, owners) && k.id !in owners
    ensures var (staging, e') := EventSink.StageEmit(e, published, Holder(k), k.id, k.event);
      && EventSink.Valid(e')
      && (staging.Staged? ==> EventHandleOk(k, TerminalEvent(staging.cleanup)) && Carried(e', published, k.id, k))
      && (forall run, row | EventSink.Stored(e, run, row) :: EventSink.Stored(e', run, row))
      && (forall run, row | EventSink.Stored(e', run, row) && row.commit == Some(k.id) ::
            run == k.run && row.event == k.event
            && staging.Staged? && staging.cleanup.Stage? && staging.cleanup.row == row)
      && (forall run, row | EventSink.Stored(e', run, row) && row.commit != Some(k.id) :: EventSink.Stored(e, run, row))
  {
    var (staging, e') := EventSink.StageEmit(e, published, Holder(k), k.id, k.event);
    EventSinkProofs.StageEmitKeepsValid(e, published, Holder(k), k.id, k.event);
    EventSinkProofs.StageEmitEffect(e, published, Holder(k), k.id, k.event);
    forall run, row | EventSink.Stored(e, run, row)
      ensures row.commit != Some(k.id)
    {
    }
    forall run, row | EventSink.Stored(e', run, row) && row.commit == Some(k.id)
      ensures staging.Staged? && staging.cleanup.Stage? && staging.cleanup.row == row
    {
      var id := EventSink.Identity(k.run, k.event.sequence);
      assert !EventSink.Stored(e, run, row);
      assert EventSink.IsStage(e', id, k.id, row);
      assert EventSink.IsStage(e', id, k.id, staging.cleanup.row);
    }
  }

  lemma EventStaged(e: EventSink.Sink, published: set<CommitId>, owners: OwnerMap, k: Commit)
    requires EventsOk(e, published, owners) && k.id !in owners
    ensures var (staging, e') := EventSink.StageEmit(e, published, Holder(k), k.id, k.event);
      EventsOk(e', published, if staging.Staged? then owners[k.id := k] else owners)
  {
    var (staging, e') := EventSink.StageEmit(e, published, Holder(k), k.id, k.event);
    EventStagedRows(e, published, owners, k);
    if staging.Staged? {
      OneMoreOwner(e, e', published, owners, k);
    } else {
      OthersStillCarried(e, e', published, owners);
    }
  }

  lemma OneMoreOwner(e: EventSink.Sink, e': EventSink.Sink, published: set<CommitId>, owners: OwnerMap, k: Commit)
    requires EventsOk(e, published, owners) && k.id !in owners
    requires EventSink.Valid(e') && Carried(e', published, k.id, k)
    requires forall run, row | EventSink.Stored(e, run, row) :: EventSink.Stored(e', run, row)
    requires forall run, row | EventSink.Stored(e', run, row) ::
               EventSink.Stored(e, run, row) || (row.commit == Some(k.id) && run == k.run && row.event == k.event)
    ensures EventsOk(e', published, owners[k.id := k])
  {
    OthersStillCarried(e, e', published, owners);
    var owners' := owners[k.id := k];
    forall c | c in owners'
      ensures Carried(e', published, c, owners'[c])
    {
    }
  }

  lemma OthersStillCarried(e: EventSink.Sink, e': EventSink.Sink, published: set<CommitId>, owners: OwnerMap)
    requires EventsOk(e, published, owners)
    requires forall run, row | EventSink.Stored(e, run, row) :: EventSink.Stored(e', run, row)
    ensures forall c | c in owners :: Carried(e', published, c, owners[c])
  {
    forall c | c in owners
      ensures Carried(e', published, c, owners[c])
    {
      CarriedKept(e, e', published, published, c, owners[c]);
    }
  }

  /** Abandoning an unpublished commit's stage leaves no row of it, and everyone else's alone. */
  lemma EventAbandoned(e: EventSink.Sink, published: set<CommitId>, owners: OwnerMap, k: Commit, cleanup: EventSink.Cleanup)
    requires EventsOk(e, published, owners) && k.id !in published && k.id in owners && owners[k.id] == k
    requires EventHandleOk(k, TerminalEvent(cleanup))
    requires forall run, row | EventSink.Stored(e, run, row) && row.commit == Some(k.id) :: cleanup.Stage? && cleanup.row == row
    ensures var e' := EventSink.Release(e, published, cleanup);
      && EventsOk(e', published, owners - {k.id})
      && (forall run, row | EventSink.Stored(e', run, row) :: EventSink.Stored(e, run, row) && row.commit != Some(k.id))
  {
    var e' := EventSink.Release(e, published, cleanup);
    EventSinkProofs.ReleaseEffect(e, published, cleanup);
    EventSinkProofs.ReleaseKeepsValid(e, published, cleanup);
    forall c | c in owners - {k.id}
      ensures Carried(e', published, c, owners[c])
    {
      CarriedKept(e, e', published, published, c, owners[c]);
    }
  }

  lemma EventEmitted(e: EventSink.Sink, published: set<CommitId>, owners: OwnerMap, fence: RunFence, event: EventSink.Event)
    requires EventsOk(e, published, owners)
    ensures var e' := EventSink.Emit(e, published, fence, event.sequence, event).1;
      && EventsOk(e', published, owners)
      && (forall run, row | EventSink.Stored(e', run, row) && row.commit.Some? :: EventSink.Stored(e, run, row))
  {
    var e' := EventSink.Emit(e, published, fence, event.sequence, event).1;
    EventSinkProofs.EmitKeepsValid(e, published, fence, event);
    EventSinkProofs.EmitEffect(e, published, fence, event);
    forall c | c in owners
      ensures Carried(e', published, c, owners[c])
    {
      CarriedKept(e, e', published, published, c, owners[c]);
    }
  }

  /** Publishing turns a carried event into a durable one and hides nothing. */
  lemma EventPublished(e: EventSink.Sink, published: set<CommitId>, owners: OwnerMap, id: CommitId)
    requires EventsOk(e, published, owners)
    ensures EventsOk(e, published + {id}, owners)
  {
    forall c | c in owners
      ensures Carried(e, published + {id}, c, owners[c])
    {
      CarriedKept(e, e, published, published + {id}, c, owners[c]);
    }
  }

  // ------------------------------------------------------------ all three together

  ghost predicate HandleFits(c: Commit, index: nat, write: StagedWrite) {
    && write.commit == c.id
    && (index == 0 ==> write.handle == JournalTail)
    && (index == 1 ==> EventHandleOk(c, write.handle))
    && (index == 2 ==> write.handle == SealedBundle)
  }

  lemma StagedTail(st: Stores, published: set<CommitId>, c: Commit, o0: OwnerMap, o1: OwnerMap, o2: OwnerMap)
    requires Recorded(st, published, o0, o1, o2) && c.id !in o0
    ensures var (reply, st') := Stage(st, published, c, 0);
      && !reply.Rejected? && st'.events == st.events
      && (reply.Prepared? ==> HandleFits(c, 0, reply.write) && Recorded(st', published, o0[c.id := c], o1, o2))
      && (reply.Declined? ==> Recorded(st', published, o0, o1, o2))
  {
    JournalStaged(st.journal, o0, c);
  }

  lemma StagedTerminal(st: Stores, published: set<CommitId>, c: Commit, o0: OwnerMap, o1: OwnerMap, o2: OwnerMap)
    requires Recorded(st, published, o0, o1, o2) && c.id !in o1
    ensures var (reply, st') := Stage(st, published, c, 1);
      && !reply.Rejected?
      && (reply.Prepared? ==> HandleFits(c, 1, reply.write) && Recorded(st', published, o0, o1[c.id := c], o2))
      && (reply.Declined? ==> Recorded(st', published, o0, o1, o2))
      && (forall run, row | EventSink.Stored(st'.events, run, row) && row.commit == Some(c.id) ::
            reply.Prepared? && reply.write.handle.cleanup.Stage? && reply.write.handle.cleanup.row == row)
      && (forall run, row | EventSink.Stored(st'.events, run, row) && row.commit != Some(c.id) :: EventSink.Stored(st.events, run, row))
  {
    EventStaged(st.events, published, o1, c);
    EventStagedRows(st.events, published, o1, c);
  }

  lemma StagedSeal(st: Stores, published: set<CommitId>, c: Commit, o0: OwnerMap, o1: OwnerMap, o2: OwnerMap)
    requires Recorded(st, published, o0, o1, o2) && c.id !in o2
    ensures var (reply, st') := Stage(st, published, c, 2);
      && !reply.Rejected? && st'.events == st.events
      && (reply.Prepared? ==> HandleFits(c, 2, reply.write) && Recorded(st', published, o0, o1, o2[c.id := c]))
      && (reply.Declined? ==> Recorded(st', published, o0, o1, o2))
  {
    EvidenceStaged(st.evidence, o2, c);
  }

  ghost predicate Staircase(c: Commit, n: nat, o0: OwnerMap, o1: OwnerMap, o2: OwnerMap) {
    && (c.id in o0 <==> 0 < n) && (c.id in o1 <==> 1 < n) && (c.id in o2 <==> 2 < n)
    && (0 < n ==> o0[c.id] == c) && (1 < n ==> o1[c.id] == c)
  }

  ghost predicate StagedShape(c: Commit, staged: seq<StagedWrite>) {
    |staged| <= 3 && forall i | 0 <= i < |staged| :: HandleFits(c, i, staged[i])
  }

  lemma AbandonAllByStore(st: Stores, published: set<CommitId>, c: Commit, staged: seq<StagedWrite>)
    requires StagedShape(c, staged)
    decreases staged
    ensures var st' := AbandonAll(st, published, c, staged);
      && st'.journal == (if 0 < |staged| then Journal.AbandonTail(st.journal, c.run, c.id) else st.journal)
      && st'.events == (if 1 < |staged| then EventSink.Release(st.events, published, staged[1].handle.cleanup) else st.events)
      && st'.evidence == (if 2 < |staged| then EvidenceSink.AbandonWrite(st.evidence, c.id) else st.evidence)
  {
    if staged != [] {
      var last := |staged| - 1;
      var st1 := AbandonOne(st, published, c, staged[last]);
      AbandonAllByStore(st1, published, c, staged[..last]);
    }
  }

  lemma JournalCleared(j: Journal.JournalState, c: Commit, staged: bool, owners: OwnerMap)
    requires JournalOk(j, owners) && (c.id in owners <==> staged) && (staged ==> owners[c.id] == c)
    ensures JournalOk(if staged then Journal.AbandonTail(j, c.run, c.id) else j, owners - {c.id})
  {
    if staged {
      JournalAbandoned(j, owners, c);
    } else {
      assert owners - {c.id} == owners;
    }
  }

  lemma EvidenceCleared(e: EvidenceSink.EvidenceState, c: Commit, staged: bool, owners: OwnerMap)
    requires EvidenceOk(e, owners) && (c.id in owners <==> staged)
    ensures EvidenceOk(if staged then EvidenceSink.AbandonWrite(e, c.id) else e, owners - {c.id})
  {
    if staged {
      EvidenceAbandoned(e, owners, c.id);
    } else {
      assert owners - {c.id} == owners;
    }
  }

  lemma EventsCleared(e: EventSink.Sink, published: set<CommitId>, c: Commit, staged: bool, cleanup: EventSink.Cleanup, owners: OwnerMap)
    requires EventsOk(e, published, owners) && (c.id in owners <==> staged) && (staged ==> owners[c.id] == c)
    requires c.id !in published && (staged ==> EventHandleOk(c, TerminalEvent(cleanup)))
    requires forall run, row | EventSink.Stored(e, run, row) && row.commit == Some(c.id) ::
               staged && cleanup.Stage? && cleanup.row == row
    ensures var e' := if staged then EventSink.Release(e, published, cleanup) else e;
      && EventsOk(e', published, owners - {c.id})
      && (forall run, row | EventSink.Stored(e', run, row) :: EventSink.Stored(e, run, row) && row.commit != Some(c.id))
  {
    if staged {
      EventAbandoned(e, published, owners, c, cleanup);
    } else {
      assert owners - {c.id} == owners;
    }
  }

  /** Abandoning everything an unpublished commit staged leaves every store without it. */
  lemma AbandonedEverywhere(st: Stores, published: set<CommitId>, c: Commit, staged: seq<StagedWrite>,
                            o0: OwnerMap, o1: OwnerMap, o2: OwnerMap)
    requires Recorded(st, published, o0, o1, o2) && Staircase(c, |staged|, o0, o1, o2) && StagedShape(c, staged)
    requires c.id !in published
    requires forall run, row | EventSink.Stored(st.events, run, row) && row.commit == Some(c.id) ::
               1 < |staged| && staged[1].handle.cleanup.Stage? && staged[1].handle.cleanup.row == row
    ensures var st' := AbandonAll(st, published, c, staged);
      && Recorded(st', published, o0 - {c.id}, o1 - {c.id}, o2 - {c.id})
      && (forall run, row | EventSink.Stored(st'.events, run, row) :: EventSink.Stored(st.events, run, row) && row.commit != Some(c.id))
  {
    hide JournalOk, EventsOk, EvidenceOk, AbandonAll;
    AbandonAllByStore(st, published, c, staged);
    JournalCleared(st.journal, c, 0 < |staged|, o0);
    EvidenceCleared(st.evidence, c, 2 < |staged|, o2);
    if 1 < |staged| {
      assert HandleFits(c, 1, staged[1]);
      EventsCleared(st.events, published, c, true, staged[1].handle.cleanup, o1);
    } else {
      EventsCleared(st.events, published, c, false, EventSink.Nothing, o1);
    }
  }
}
