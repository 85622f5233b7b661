/**
 * What the other two reports of an ended attempt are worth: a conclusion over an early-termination
 * record, and the settlement fallback's report, which looks at the machine and never at the outbox.
 */
module DurableWalkReports {
  import opened Options
  import opened Visibility
  import opened Fence
  import opened Lifecycle
  import opened Journal
  import opened Machines
  import opened Outboxes
  import opened ExactlyOnce
  import opened Scopes
  import opened PageOrder
  import opened CommitNames
  import opened DurableWalk
  import opened DurableWalkOwners
  import opened DurableWalkProofs
  import opened DurableWalkTheorems
  import F = Finalization
  import FM = FinalizationMoves
  import FT = FinalizationTheorems
  import W = DurableWalkWitness
  import EventSink
  import EvidenceSink

  // ------------------------------------------------------- the settlement fallback

  /** Everything recorded landed, except that the reply about the last fact may still be missing. */
  ghost predicate OnlyAReplyIsMissing(w: Whole, g: Generation)
    requires g in w.bus.couriers
  {
    var pending := w.bus.couriers[g].outbox.pending;
    pending == [] || (|pending| == 1 && pending[0].id in PageOf(w.fin.stores.journal, w.bus.run).seen)
  }

  /** The fallback claims a terminal while the journal lacks facts this ownership recorded. */
  ghost predicate Overclaims(w: Whole, g: Generation, intended: LifecycleState)
    requires g in w.bus.couriers && g in w.attempts
  {
    && Incomplete(w.bus.couriers[g], w.attempts[g], intended).Terminal?
    && LogOf(w.bus.log, g) != w.bus.couriers[g].recorded
  }

  lemma WhatLanded(w: Whole, g: Generation)
    requires Sound(w) && g in w.attempts
    ensures g in w.bus.couriers
    ensures LogOf(w.bus.log, g) == w.bus.couriers[g].recorded <==> OnlyAReplyIsMissing(w, g)
  {
    hide F.Inv, OwnersOk, CallsNamed, AttemptsOk, LogOf, CategoriesOk, FenceOk, LogKnown;
    SoundOwner(w, g);
    var c := w.bus.couriers[g];
    assert SeenOk(PageOf(w.fin.stores.journal, w.bus.run).seen, w.bus);
    if |c.outbox.pending| == 1 {
      assert c.outbox.pending[0].id == IdAt(c.outbox.scope, Acked(c) + 1);
    }
  }

  /**
   * The settlement fallback overclaims, in every reachable state, exactly when it reports a
   * terminal while more than the reply about one landed fact is missing from the outbox's account.
   * A conclusion of `finish` over the same attempt would not have claimed a terminal.
   */
  lemma IncompleteOverclaimsExactly(run: RunId, actions: seq<DurableWalk.Action>, g: Generation, intended: LifecycleState)
    requires '#' !in run
    requires g in DurableWalk.Play(DurableWalk.Initial(run), actions).attempts
    ensures var w := DurableWalk.Play(DurableWalk.Initial(run), actions);
      && g in w.bus.couriers
      && var (c, a) := (w.bus.couriers[g], w.attempts[g]);
      && (Overclaims(w, g, intended) <==>
            !c.lost && a.recorded != NothingProduced && IsTerminal(a.machine.state) && !OnlyAReplyIsMissing(w, g))
      && (Overclaims(w, g, intended) ==> !Decide(c, a.(pc := Concluding(a.recorded))).Terminal?)
  {
    hide DurableWalk.Play, Sound, LogOf, OnlyAReplyIsMissing;
    InitiallySound(run);
    PlayKeepsSound(DurableWalk.Initial(run), actions);
    var w := DurableWalk.Play(DurableWalk.Initial(run), actions);
    WhatLanded(w, g);
    assert w.bus.couriers[g].outbox.pending == [] ==> OnlyAReplyIsMissing(w, g) by { EmptyMissesNothing(w, g); }
  }

  lemma EmptyMissesNothing(w: Whole, g: Generation)
    requires g in w.bus.couriers
    ensures w.bus.couriers[g].outbox.pending == [] ==> OnlyAReplyIsMissing(w, g)
  {
  }

  const MOVED: Machine :=
    W.FRESH.(transitions := [W.ENTRY], state := Cancelled, version := 1)
  const CANCEL: Machines.Action := Applying(WriteClaim("r", 0), Machines.Step(Cancel, "cancelled", "t"), "")
  const BUS: Bus := Bus("r", map[1 := W.COURIER], {}, {}, [])

  lemma Cancelling()
    ensures Next(W.FRESH, CANCEL) == MOVED && CursorsOk(MOVED)
  {
    assert DeclaredNext(TRANSITIONS, Requested, Cancel) == Some(Cancelled);
    assert [] + [W.ENTRY] == [W.ENTRY];
  }

  lemma Starting()
    ensures DurableWalk.Step(DurableWalk.Initial("r"), Began(1, TRANSITIONS)) == Whole(F.INITIAL, BUS, map[1 := W.WALKING])
  {
    assert IsNarrowing(TRANSITIONS);
    hide IsNarrowing;
  }

  lemma Moving()
    ensures DurableWalk.Step(Whole(F.INITIAL, BUS, map[1 := W.WALKING]), MachineMoved(1, CANCEL))
      == Whole(F.INITIAL, BUS, map[1 := W.WALKING.(machine := MOVED)])
  {
    Cancelling();
    hide Next;
    var w := Whole(F.INITIAL, BUS, map[1 := W.WALKING]);
    assert map[1 := W.WALKING][1 := W.WALKING.(machine := MOVED)] == map[1 := W.WALKING.(machine := MOVED)];
    assert DurableWalk.Step(w, MachineMoved(1, CANCEL)) == MoveMachine(w, 1, CANCEL);
  }

  /** The early record lands at once, and the transition it speaks of is only queued. */
  lemma Writing(w: Whole)
    requires w == Whole(F.INITIAL, BUS, map[1 := W.WALKING.(machine := MOVED)])
    ensures var w' := DurableWalk.Step(w, EarlyWrite(1, "record", false));
      && 1 in w'.attempts && 1 in w'.bus.couriers
      && Incomplete(w'.bus.couriers[1], w'.attempts[1], Cancelled) == Terminal(Cancelled, EarlyTerminationRecord)
      && LogOf(w'.bus.log, 1) == [] && w'.bus.couriers[1].recorded == [TransitionFact(W.ENTRY)]
  {
    var record := EvidenceSink.Record(EvidenceSink.EarlyTerminationRecord, "record");
    var id := EarlyId("r", 1);
    assert EvidenceSink.WriteRecord(F.INITIAL.stores.evidence, RunFence("r", 1), id, record).0 == Accepted;
    assert Undrained(MOVED) == [TransitionFact(W.ENTRY)] by {
      assert PendingTransitions(MOVED) == [W.ENTRY] && PendingRejections(MOVED) == [];
    }
    hide Undrained, RecordAll, EarlyId, EvidenceSink.WriteRecord, F.Step;
    assert [] + [TransitionFact(W.ENTRY)] == [TransitionFact(W.ENTRY)];
    assert DurableWalk.Step(w, EarlyWrite(1, "record", false)) == WriteEarly(w, 1, "record", false);
  }

  /** A run in which the fallback would claim a terminal of which the journal holds nothing. */
  lemma OverclaimIsReachable() returns (actions: seq<DurableWalk.Action>)
    ensures var w := DurableWalk.Play(DurableWalk.Initial("r"), actions);
      && 1 in w.attempts && 1 in w.bus.couriers
      && Incomplete(w.bus.couriers[1], w.attempts[1], Cancelled) == Terminal(Cancelled, EarlyTerminationRecord)
      && Overclaims(w, 1, Cancelled) && LogOf(w.bus.log, 1) == []
  {
    hide DurableWalk.Step, DurableWalk.Play, LogOf, Incomplete;
    Starting();
    Moving();
    var w := Whole(F.INITIAL, BUS, map[1 := W.WALKING.(machine := MOVED)]);
    Writing(w);
    var a1 := [EarlyWrite(1, "record", false)];
    var a2 := [MachineMoved(1, CANCEL)] + a1;
    actions := [Began(1, TRANSITIONS)] + a2;
    W.PlayOne(DurableWalk.Initial("r"), Began(1, TRANSITIONS), a2);
    W.PlayOne(Whole(F.INITIAL, BUS, map[1 := W.WALKING]), MachineMoved(1, CANCEL), a1);
    W.PlayOne(w, EarlyWrite(1, "record", false), []);
    assert a1 == [EarlyWrite(1, "record", false)] + [];
    W.PlayNone(DurableWalk.Step(w, EarlyWrite(1, "record", false)));
  }

  // --------------------------------------------- conclusions over an early record

  lemma {:induction false} VisibleCounts(rows: seq<StoredTransition>, gens: seq<Generation>, g: Generation, id: CommitId)
    requires |Plain(rows)| == |gens|
    ensures |VisibleOf(rows, gens, {id}, g)| == |Pick(Plain(rows), gens, g)| + |Under(rows, id)|
    decreases rows
  {
    if rows != [] {
      var n := |rows| - 1;
      PlainLast(rows);
      UnderLast(rows, id);
      var plain := Plain(rows);
      if rows[n].commit.None? {
        var m := |gens| - 1;
        assert plain[..m] == Plain(rows[..n]);
        VisibleCounts(rows[..n], gens[..m], g, id);
      } else {
        assert Plain(rows[..n]) == plain;
        VisibleCounts(rows[..n], gens, g, id);
      }
    }
  }

  lemma SealedTailIsStaged(fin: F.System, run: RunId, g: Generation)
    requires F.Inv(fin) && RunFence(run, g) in fin.finalized
    ensures var id := fin.finalized[RunFence(run, g)];
      && id in fin.sealed && F.Holder(fin.sealed[id]) == RunFence(run, g) && FM.OwnerOf(fin, id) == Some(fin.sealed[id])
      && Under(PageOf(fin.stores.journal, run).transitions, id) == fin.sealed[id].transitions
      && CommitsOf(fin.sealed, RunFence(run, g)) == {id}
  {
    hide F.Inv;
    var id := fin.finalized[RunFence(run, g)];
    OneCommitOf(fin, RunFence(run, g));
    FT.SealedIsPublished(fin);
    FT.SealedIsVisible(fin, id);
    FT.SealedHolder(fin, id);
    assert F.Holder(fin.sealed[id]) == RunFence(run, g) by { FinalizedHolds(fin, RunFence(run, g)); }
    hide CommitsOf;
    assert Under(PageOf(fin.stores.journal, run).transitions, id) == FT.TailUnder(fin, run, id);
  }

  lemma FinalizedHolds(fin: F.System, h: RunFence)
    requires F.Inv(fin) && h in fin.finalized
    ensures fin.finalized[h] in fin.sealed && F.Holder(fin.sealed[fin.finalized[h]]) == h
  {
    hide F.StoresOk, F.HandlesOk, F.CallsBelieve, F.TasksBelieve, F.AllShaped, F.ClaimsOk, F.Linked;
  }

  lemma SealedTailIsNotEmpty(w: Whole, id: CommitId)
    requires Sound(w) && FM.OwnerOf(w.fin, id).Some? && FM.OwnerOf(w.fin, id).value.run == w.bus.run
    ensures FM.OwnerOf(w.fin, id).value.transitions != []
  {
    hide F.Inv, ExactlyOnce.Inv, CallsNamed, AttemptsOk, Late, Bounded, LogOf, WellNamed, FM.OwnerOf;
    assert OwnerOk(Rows(w), w.bus, w.attempts, id, FM.OwnerOf(w.fin, id).value);
  }

  /** With a published commit the readers of a generation see more than what it landed. */
  lemma VisibleBesidesTail(w: Whole, g: Generation)
    requires Sound(w) && g in w.attempts && RunFence(w.bus.run, g) in w.fin.finalized
    ensures |Plain(Rows(w))| == |GensOf(w.bus.log)|
    ensures |DurableWalkOf(w, g)| > |FactTransitions(LogOf(w.bus.log, g))|
  {
    hide FM.OwnerOf, CommitsOf, LogOf, FactTransitions, Pick, VisibleOf, Plain, Under, GensOf;
    GensAlign(w);
    SealedTailIsStaged(w.fin, w.bus.run, g);
    var id := w.fin.finalized[RunFence(w.bus.run, g)];
    SealedTailIsNotEmpty(w, id);
    hide Sound;
    PickIsLanded(w.bus.log, g);
    VisibleCounts(Rows(w), GensOf(w.bus.log), g, id);
  }

  /** With no published commit they see exactly what it landed. */
  lemma VisibleWithoutTail(w: Whole, g: Generation)
    requires Sound(w) && RunFence(w.bus.run, g) !in w.fin.finalized
    ensures |Plain(Rows(w))| == |GensOf(w.bus.log)|
    ensures DurableWalkOf(w, g) == FactTransitions(LogOf(w.bus.log, g))
  {
    NoCommitOf(w.fin, RunFence(w.bus.run, g));
    GensAlign(w);
    PickIsLanded(w.bus.log, g);
    LandedAlone(Rows(w), GensOf(w.bus.log), g);
  }

  ghost predicate EarlyWalkIsDurable(w: Whole, g: Generation, state: LifecycleState) {
    && g in w.attempts && |Plain(Rows(w))| == |GensOf(w.bus.log)|
    && DurableWalkOf(w, g) == w.attempts[g].machine.transitions
    && IsTerminal(state) && state == StateAfter(Requested, DurableWalkOf(w, g))
  }

  /**
   * A terminal conclusion over an early-termination record: what readers of the journal see of this
   * generation is its machine's whole record exactly when no commit of the generation is published.
   */
  lemma EarlyWalkExactly(run: RunId, actions: seq<DurableWalk.Action>, g: Generation, state: LifecycleState)
    requires '#' !in run
    requires ConcludedAs(DurableWalk.Play(DurableWalk.Initial(run), actions), g, Terminal(state, EarlyTerminationRecord))
    ensures var w := DurableWalk.Play(DurableWalk.Initial(run), actions);
      EarlyWalkIsDurable(w, g, state) <==> RunFence(run, g) !in w.fin.finalized
  {
    hide DurableWalk.Play, Sound;
    InitiallySound(run);
    PlayKeepsSound(DurableWalk.Initial(run), actions);
    var w := DurableWalk.Play(DurableWalk.Initial(run), actions);
    ConcludedRecord(w, g, state, EarlyTerminationRecord);
    hide DurableWalkOf, LogOf, Rows, HoldsEarlyRecord;
    assert FactTransitions(LogOf(w.bus.log, g)) + [] == w.attempts[g].machine.transitions;
    if RunFence(run, g) in w.fin.finalized {
      VisibleBesidesTail(w, g);
    } else {
      VisibleWithoutTail(w, g);
      MachineEndsThere(w, g);
    }
  }

  lemma MachineEndsThere(w: Whole, g: Generation)
    requires Sound(w) && g in w.attempts
    ensures w.attempts[g].machine.state == StateAfter(Requested, w.attempts[g].machine.transitions)
  {
    hide F.Inv, ExactlyOnce.Inv, OwnersOk, CallsNamed, AttemptsOk, PcOk, HandedOver, CourierOk, PrefixOk;
    SoundOwner(w, g);
  }

  /** Nothing was ever committed for this holder. */
  ghost predicate Uncommitted(fin: F.System, h: RunFence) {
    && (forall t | 0 <= t < |fin.tasks| :: F.Holder(fin.tasks[t].commit) != h)
    && (forall id | id in fin.sealed :: F.Holder(fin.sealed[id]) != h)
  }

  /** Generation `g` never got as far as a commit. */
  ghost predicate NeverCommitting(w: Whole, g: Generation) {
    && (g in w.attempts ==> !w.attempts[g].pc.Sealing? && !w.attempts[g].pc.Committing?)
    && Uncommitted(w.fin, RunFence(w.bus.run, g))
  }

  /** No step but `finish` itself takes an attempt towards a commit. */
  lemma OnlyFinishSeals(w: Whole, action: DurableWalk.Action, g: Generation)
    requires !(action.FinishCalled? && action.generation == g)
    ensures var w' := DurableWalk.Step(w, action);
      && (g in w'.attempts && (w'.attempts[g].pc.Sealing? || w'.attempts[g].pc.Committing?) ==>
            g in w.attempts && (w.attempts[g].pc.Sealing? || w.attempts[g].pc.Committing?))
  {
    hide F.Step, F.Enter, Deliver, StartFinish, RecordAll, Undrained, Drained, Next, ReachTerminal, EvidenceSink.WriteRecord,
         CommitProjected, HeadSent, HeadAcknowledged, HeadRefused, FenceLost, FactsRecorded, Decide, EarlyRecordOf;
  }

  /** What a step does to the coordinator: nothing, or one of its own actions. */
  lemma CoordinatorMoves(w: Whole, action: DurableWalk.Action) returns (moved: bool, act: F.Action)
    ensures var w' := DurableWalk.Step(w, action);
      && w'.fin == (if moved then F.Step(w.fin, act) else w.fin)
      && (moved && act.CommitCalled? ==>
            (action.Elsewhere? && act.commit.run != w.bus.run)
            || (action.TickReturned? && action.generation in w.attempts && w.attempts[action.generation].pc.Sealing?
                && F.Holder(act.commit) == RunFence(w.bus.run, action.generation)))
  {
    hide F.Enter, Deliver, StartFinish, SealGate, BeginConclude, CommitAnswered, EarlyWritten, Tick, Next,
         FT.ToldTo, IsNarrowing, CanTick, EvidenceSink.WriteRecord, Decide, EarlyRecordOf, EarlyId, CommitIdOf, StateName;
    var w' := DurableWalk.Step(w, action);
    moved, act := true, F.ClockRead(0);
    match action
    case Arriving(m) =>
      act := F.Appended(m.fence, m.entry.id, m.entry.fact);
      moved := m in w.bus.sent;
    case TickReturned(g, eligible, what, rejects, at) =>
      if g in w.attempts && w.attempts[g].pc.Sealing? {
        act := F.CommitCalled(CommitFor(w.bus.run, g, w.attempts[g].pc.capability.entries, what), rejects);
      }
      moved := w'.fin != w.fin;
    case EarlyWrite(g, built, replyLost) =>
      if g in w.attempts {
        act := F.Wrote(RunFence(w.bus.run, g), EarlyId(w.bus.run, g),
                       EvidenceSink.Record(EvidenceSink.EarlyTerminationRecord, EarlyRecordOf(w.attempts[g], built)));
      }
      moved := w'.fin != w.fin;
    case Elsewhere(a) =>
      act := a;
      moved := IsElsewhere(w.bus.run, a);
    case _ =>
      moved := false;
  }

  lemma OthersCommit(fin: F.System, act: F.Action, h: RunFence)
    requires F.Inv(fin) && Uncommitted(fin, h) && (act.CommitCalled? ==> F.Holder(act.commit) != h)
    ensures Uncommitted(F.Step(fin, act), h)
  {
    hide F.Inv, F.Step;
    FT.TasksChange(fin, act);
    FT.PublicationIsGuarded(fin, act);
  }

  lemma StaysUncommitted(w: Whole, action: DurableWalk.Action, g: Generation)
    requires Sound(w) && NeverCommitting(w, g) && !(action.FinishCalled? && action.generation == g)
    ensures NeverCommitting(DurableWalk.Step(w, action), g)
  {
    hide DurableWalk.Step, Sound, F.Step, Uncommitted, F.Inv;
    OnlyFinishSeals(w, action, g);
    SameRun(w, action);
    var moved, act := CoordinatorMoves(w, action);
    if moved {
      FinIsSound(w);
      OthersCommit(w.fin, act, RunFence(w.bus.run, g));
    }
  }

  lemma FinIsSound(w: Whole)
    requires Sound(w)
    ensures F.Inv(w.fin)
  {
  }

  lemma {:induction false} PlayedUncommitted(w: Whole, actions: seq<DurableWalk.Action>, g: Generation)
    requires Sound(w) && NeverCommitting(w, g)
    requires forall i | 0 <= i < |actions| :: !(actions[i].FinishCalled? && actions[i].generation == g)
    ensures NeverCommitting(DurableWalk.Play(w, actions), g) && Sound(DurableWalk.Play(w, actions))
    decreases actions
  {
    hide DurableWalk.Step, Sound, NeverCommitting;
    if actions != [] {
      StepKeepsSound(w, actions[0]);
      StaysUncommitted(w, actions[0], g);
      PlayedUncommitted(DurableWalk.Step(w, actions[0]), actions[1..], g);
    }
  }

  lemma NeverSealed(w: Whole, g: Generation)
    requires F.Inv(w.fin) && NeverCommitting(w, g)
    ensures RunFence(w.bus.run, g) !in w.fin.finalized
  {
    if RunFence(w.bus.run, g) in w.fin.finalized {
      OneCommitOf(w.fin, RunFence(w.bus.run, g));
    }
  }

  /**
   * The program writes an early-termination record only for a run that never acquired the authority
   * `finish` needs. For such a generation a terminal conclusion means that the durable walk is the
   * machine's whole record, entry by entry.
   */
  lemma EarlyWalkIsTheWalk(run: RunId, actions: seq<DurableWalk.Action>, g: Generation, state: LifecycleState)
    requires '#' !in run
    requires forall i | 0 <= i < |actions| :: !(actions[i].FinishCalled? && actions[i].generation == g)
    requires ConcludedAs(DurableWalk.Play(DurableWalk.Initial(run), actions), g, Terminal(state, EarlyTerminationRecord))
    ensures EarlyWalkIsDurable(DurableWalk.Play(DurableWalk.Initial(run), actions), g, state)
  {
    hide DurableWalk.Play, Sound, EarlyWalkIsDurable, F.Inv;
    InitiallySound(run);
    PlayKeepsSound(DurableWalk.Initial(run), actions);
    PlayedUncommitted(DurableWalk.Initial(run), actions, g);
    var w := DurableWalk.Play(DurableWalk.Initial(run), actions);
    FinIsSound(w);
    NeverSealed(w, g);
    EarlyWalkExactly(run, actions, g, state);
  }
}
