/** A run that does end: one ownership claims its run, cancels it, and concludes with a sealed bundle. */
module DurableWalkWitness {
  import opened Options
  import opened Visibility
  import opened Fence
  import opened Lifecycle
  import opened Journal
  import opened Machines
  import opened Outboxes
  import opened ExactlyOnce
  import opened Scopes
  import opened PageOrder
  import opened DurableWalk
  import F = Finalization
  import FT = FinalizationTheorems
  import FR = FinalizationRuns
  import FW = FinalizationWitnesses
  import EventSink
  import EvidenceSink
  import Lease

  const WHAT: Sealed := Sealed(Cancelled, EventSink.Event(0, "run cancelled"), "bundle", 0, None, F.Governed)
  const ENTRY: TransitionEntry := TransitionEntry("r", Requested, Cancelled, Cancel, "cancelled", "t")
  const CAPABILITY: Capability := Capability(1, 0, [ENTRY], 0)
  const COMMIT: F.Commit := CommitFor("r", 1, [ENTRY], WHAT)

  const FRESH: Machine := Fresh(1, "r", TRANSITIONS)
  const PROJECTED: Machine := FRESH.(projections := {CAPABILITY}, minted := 1)
  const CANCELLED: Machine :=
    FRESH.(minted := 1, transitions := [ENTRY], state := Cancelled, version := 1, journaledTransitions := 1)

  const COURIER: Courier := Courier([], Empty(RunFence("r", 1)), false)

  lemma MachineSteps()
    ensures Project(FRESH, FinishSteps(Cancel, "cancelled", "t")) == (Projected(CAPABILITY), PROJECTED)
    ensures CommitProjected(PROJECTED, CAPABILITY) == (Adopted, CANCELLED)
  {
    var steps := FinishSteps(Cancel, "cancelled", "t");
    assert steps == [Step(Cancel, "cancelled", "t")] && steps[1..] == [];
    assert DeclaredNext(TRANSITIONS, Requested, Cancel) == Some(Cancelled);
    assert {} + {CAPABILITY} == {CAPABILITY};
    assert PathFrom(TRANSITIONS, "r", Cancelled, []) == Declared([]);
    assert PathFrom(TRANSITIONS, "r", Requested, steps) == Declared([ENTRY] + []);
    assert [ENTRY] + [] == [ENTRY] && [] + [ENTRY] == [ENTRY];
    assert {CAPABILITY} - {CAPABILITY} == {};
  }

  lemma NothingToTick(m: Machine)
    requires m == PROJECTED || m == CANCELLED
    ensures CursorsOk(m) && Undrained(m) == [] && Drained(m) == m && RecordAll(COURIER.outbox, []) == COURIER.outbox
    ensures [] + Undrained(m) == []
  {
    assert PendingTransitions(m) == [] && PendingRejections(m) == [];
  }

  const WALKING: Attempt := Attempt(FRESH, false, NothingProduced, None, [], Walking)
  const SEALING: Attempt := WALKING.(machine := PROJECTED, pc := Sealing(Cancel, CAPABILITY))
  const COMMITTING: Attempt := SEALING.(pc := Committing(Cancel, CAPABILITY, 0))
  const CONCLUDING: Attempt :=
    Attempt(CANCELLED, false, EvidenceBundle, None, [ENTRY], Concluding(EvidenceBundle))

  /** The attempt's own segments, from its first to its conclusion. */
  lemma AttemptSteps()
    ensures CursorsOk(FRESH) && CursorsOk(PROJECTED)
    ensures StartFinish(COURIER, WALKING, Cancel, "cancelled", Assembled, "t") == (COURIER, SEALING)
    ensures SealGate(COURIER, SEALING, true, 0, "t") == (COURIER, COMMITTING)
    ensures CommitAnswered(COURIER, COMMITTING, F.Committed, "t") == (COURIER, CONCLUDING)
    ensures Decide(COURIER, CONCLUDING) == Terminal(Cancelled, EvidenceBundle)
  {
    MachineSteps();
    NothingToTick(PROJECTED);
    NothingToTick(CANCELLED);
    hide Project, CommitProjected, Undrained, Drained, RecordAll, FinishSteps;
    assert Tick(COURIER, WALKING.(machine := PROJECTED)) == (COURIER, WALKING.(machine := PROJECTED));
    var adopted := COMMITTING.(machine := CANCELLED, tail := [ENTRY], recorded := EvidenceBundle);
    assert Tick(COURIER, adopted) == (COURIER, adopted);
  }

  const CLAIMED: F.System := F.INITIAL.(lease := Lease.LeaseState(map["r" := 1], map[FW.ATTEMPT := Lease.Granted(1)], 1))

  lemma Claimed()
    ensures F.Step(F.INITIAL, F.Leased(Lease.ClaimAction(FW.ATTEMPT, false))) == CLAIMED
  {
  }

  lemma CanCommit()
    ensures FW.Unhindered(CLAIMED, COMMIT) && FW.Stageable(CLAIMED, COMMIT) && Lease.Holds(CLAIMED.lease, "r", 1)
  {
  }

  /** The coordinator's side, five continuations after the call. */
  lemma CommitSteps() returns (s1: F.System, s2: F.System, s3: F.System, s4: F.System, s5: F.System, s6: F.System)
    ensures s1 == F.Enter(CLAIMED, COMMIT, false)
    ensures s2 == F.Step(s1, F.Resumed(0, false)) && s3 == F.Step(s2, F.Resumed(0, false)) && s4 == F.Step(s3, F.Resumed(0, false))
    ensures s5 == F.Step(s4, F.Resumed(0, false)) && s6 == F.Step(s5, F.Resumed(0, false))
    ensures |s6.tasks| == 1 && s6.tasks[0].pc == F.Done(F.Committed)
  {
    CanCommit();
    hide F.Step, F.Enter, FW.Stageable, FW.Unhindered;
    s1 := F.Step(CLAIMED, F.CommitCalled(COMMIT, false));
    EnterIsStep();
    s2 := F.Step(s1, F.Resumed(0, false));
    s3 := F.Step(s2, F.Resumed(0, false));
    s4 := F.Step(s3, F.Resumed(0, false));
    s5 := F.Step(s4, F.Resumed(0, false));
    s6 := F.Step(s5, F.Resumed(0, false));
    FW.FirstStage(CLAIMED, COMMIT);
    FW.SecondStage(CLAIMED, s1, COMMIT);
    var staging := EventSink.StageEmit(CLAIMED.stores.events, CLAIMED.published, F.Holder(COMMIT), COMMIT.id, COMMIT.event).0;
    assert staging.Staged? by { StagedNow(); }
    FW.ThirdStage(CLAIMED, s2, COMMIT, F.TerminalEvent(staging.cleanup));
    FW.Renewal(CLAIMED, s3, COMMIT);
    GateOpen(s4);
    FW.MarkerAndOutcome(s4, 0);
  }

  lemma EnterIsStep()
    ensures F.Step(CLAIMED, F.CommitCalled(COMMIT, false)) == F.Enter(CLAIMED, COMMIT, false)
  {
    hide F.Enter;
  }

  lemma StagedNow()
    requires FW.Stageable(CLAIMED, COMMIT)
    ensures EventSink.StageEmit(CLAIMED.stores.events, CLAIMED.published, F.Holder(COMMIT), COMMIT.id, COMMIT.event).0.Staged?
  {
  }

  lemma GateOpen(s: F.System)
    requires FW.Midway(CLAIMED, s, COMMIT, 3, F.Renewing(Some(true)))
    ensures |s.tasks| == 1 && s.tasks[0].pc == F.Renewing(Some(true)) && s.tasks[0].commit == COMMIT
    ensures COMMIT.signal !in s.aborted && !F.IsExpired(s, COMMIT) && F.Holder(COMMIT) !in s.finalized
    ensures F.Holder(COMMIT) in s.inFlightByGeneration ==> s.inFlightByGeneration[F.Holder(COMMIT)] == COMMIT.id
  {
  }

  /** The call made by the gate is still the one that will be answered. */
  lemma CallStays(s1: F.System, s2: F.System, s3: F.System, s4: F.System, s5: F.System, s6: F.System)
    requires s1 == F.Enter(CLAIMED, COMMIT, false)
    requires s2 == F.Step(s1, F.Resumed(0, false)) && s3 == F.Step(s2, F.Resumed(0, false)) && s4 == F.Step(s3, F.Resumed(0, false))
    requires s5 == F.Step(s4, F.Resumed(0, false)) && s6 == F.Step(s5, F.Resumed(0, false))
    ensures |s6.calls| >= 1 && s6.calls[0] == F.Joined(COMMIT, 0)
  {
    FirstCall();
    hide F.Step, F.Enter, F.Inv;
    ClaimedInv();
    FR.EnterKeepsInv(CLAIMED, COMMIT, false);
    FR.StepKeepsInv(s1, F.Resumed(0, false));
    FR.StepKeepsInv(s2, F.Resumed(0, false));
    FR.StepKeepsInv(s3, F.Resumed(0, false));
    FR.StepKeepsInv(s4, F.Resumed(0, false));
    FT.TasksChange(s1, F.Resumed(0, false));
    FT.TasksChange(s2, F.Resumed(0, false));
    FT.TasksChange(s3, F.Resumed(0, false));
    FT.TasksChange(s4, F.Resumed(0, false));
    FT.TasksChange(s5, F.Resumed(0, false));
  }

  lemma ClaimedInv()
    ensures F.Inv(CLAIMED)
  {
    hide F.Inv, F.Step;
    FR.InitiallyInv();
    FR.StepKeepsInv(F.INITIAL, F.Leased(Lease.ClaimAction(FW.ATTEMPT, false)));
    Claimed();
  }

  lemma FirstCall()
    ensures |F.Enter(CLAIMED, COMMIT, false).calls| == 1 && F.Enter(CLAIMED, COMMIT, false).calls[0] == F.Joined(COMMIT, 0)
  {
    hide F.Proceed;
    FT.ProceedEffect(F.Open(CLAIMED, COMMIT), 0, false);
  }

  lemma PlayOne(w: Whole, action: DurableWalk.Action, more: seq<DurableWalk.Action>)
    ensures DurableWalk.Play(w, [action] + more) == DurableWalk.Play(DurableWalk.Step(w, action), more)
  {
    hide DurableWalk.Step;
    assert ([action] + more)[1..] == more;
  }

  /** There is a run that concludes with a sealed bundle, so what such conclusions guarantee is not empty. */
  lemma ConclusionIsReachable() returns (actions: seq<DurableWalk.Action>)
    ensures var w := DurableWalk.Play(DurableWalk.Initial("r"), actions);
      1 in w.attempts && w.attempts[1].pc == Concluded(Terminal(Cancelled, EvidenceBundle))
  {
    var s1, s2, s3, s4, s5, s6 := CommitSteps();
    CallStays(s1, s2, s3, s4, s5, s6);
    AttemptSteps();
    Claimed();
    var resumed := DurableWalk.Action.Elsewhere(F.Resumed(0, false));
    var bus := Bus("r", map[1 := COURIER], {}, {}, []);
    var w0 := DurableWalk.Initial("r");
    var w1 := w0.(fin := CLAIMED);
    var w2 := Whole(CLAIMED, bus, map[1 := WALKING]);
    var w3 := Whole(CLAIMED, bus, map[1 := SEALING]);
    var w4 := Whole(s1, bus, map[1 := COMMITTING]);
    var w9 := Whole(s6, bus, map[1 := COMMITTING]);
    var w10 := Whole(s6, bus, map[1 := CONCLUDING]);
    var w11 := Whole(s6, bus, map[1 := CONCLUDING.(pc := Concluded(Terminal(Cancelled, EvidenceBundle)))]);
    hide F.Step, F.Enter, StartFinish, SealGate, CommitAnswered, Decide, DurableWalk.Play;
    Beginning();
    StepsOfAttempt(s1);
    StepsOfCommit(bus, COMMITTING, s1, s2, s3, s4, s5, s6);
    LastSteps(s6);
    hide *;
    var a11 := [Reported(1)];
    var a10 := [CommitReturned(1, "t")] + a11;
    var a9 := [resumed] + a10;
    var a8 := [resumed] + a9;
    var a7 := [resumed] + a8;
    var a6 := [resumed] + a7;
    var a5 := [resumed] + a6;
    var a4 := [TickReturned(1, true, WHAT, false, "t")] + a5;
    var a3 := [FinishCalled(1, Cancel, "cancelled", Assembled, "t")] + a4;
    var a2 := [Began(1, TRANSITIONS)] + a3;
    actions := [DurableWalk.Action.Elsewhere(F.Leased(Lease.ClaimAction(FW.ATTEMPT, false)))] + a2;
    PlayOne(w0, DurableWalk.Action.Elsewhere(F.Leased(Lease.ClaimAction(FW.ATTEMPT, false))), a2);
    PlayOne(w1, Began(1, TRANSITIONS), a3);
    PlayOne(w2, FinishCalled(1, Cancel, "cancelled", Assembled, "t"), a4);
    PlayOne(w3, TickReturned(1, true, WHAT, false, "t"), a5);
    PlayOne(w4, resumed, a6);
    PlayOne(w4.(fin := s2), resumed, a7);
    PlayOne(w4.(fin := s3), resumed, a8);
    PlayOne(w4.(fin := s4), resumed, a9);
    PlayOne(w4.(fin := s5), resumed, a10);
    PlayOne(w9, CommitReturned(1, "t"), a11);
    PlayOne(w10, Reported(1), []);
    assert a11 == [Reported(1)] + [];
    PlayNone(w11);
  }

  lemma PlayNone(w: Whole)
    ensures DurableWalk.Play(w, []) == w
  {
  }

  lemma Beginning()
    ensures var w0 := DurableWalk.Initial("r");
      var w1 := w0.(fin := CLAIMED);
      && DurableWalk.Step(w0, DurableWalk.Action.Elsewhere(F.Leased(Lease.ClaimAction(FW.ATTEMPT, false)))) == w1
      && DurableWalk.Step(w1, Began(1, TRANSITIONS)) == Whole(CLAIMED, Bus("r", map[1 := COURIER], {}, {}, []), map[1 := WALKING])
  {
    Claimed();
    hide F.Step;
    assert IsNarrowing(TRANSITIONS);
    hide IsNarrowing;
  }

  lemma StepsOfAttempt(s1: F.System)
    requires s1 == F.Enter(CLAIMED, COMMIT, false)
    ensures var bus := Bus("r", map[1 := COURIER], {}, {}, []);
      var w2 := Whole(CLAIMED, bus, map[1 := WALKING]);
      var w3 := Whole(CLAIMED, bus, map[1 := SEALING]);
      && DurableWalk.Step(w2, FinishCalled(1, Cancel, "cancelled", Assembled, "t")) == w3
      && DurableWalk.Step(w3, TickReturned(1, true, WHAT, false, "t")) == Whole(s1, bus, map[1 := COMMITTING])
  {
    AttemptSteps();
    hide F.Enter, StartFinish, SealGate, DurableWalk.Step, Put, CursorsOk;
    var bus := Bus("r", map[1 := COURIER], {}, {}, []);
    var w2 := Whole(CLAIMED, bus, map[1 := WALKING]);
    var w3 := Whole(CLAIMED, bus, map[1 := SEALING]);
    Finishes(w2, 1, Cancel, "cancelled", Assembled, "t", (COURIER, SEALING));
    PutSame(w2, WALKING, SEALING);
    PassesGate(w3, 1, WHAT, false, "t", (COURIER, COMMITTING));
    PutSame(w3, SEALING, COMMITTING);
  }

  lemma Finishes(w: Whole, g: Fence.Generation, kind: TransitionKind, detail: string, assembly: Assembly, at: string, to: (Courier, Attempt))
    requires IsOpen(w, g) && w.attempts[g].pc.Walking? && CanTick(w, g)
    requires StartFinish(w.bus.couriers[g], w.attempts[g], kind, detail, assembly, at) == to
    ensures DurableWalk.Step(w, FinishCalled(g, kind, detail, assembly, at)) == Put(w, g, to)
  {
    hide StartFinish, Put, CursorsOk;
  }

  lemma PassesGate(w: Whole, g: Fence.Generation, what: Sealed, rejects: bool, at: string, to: (Courier, Attempt))
    requires IsOpen(w, g) && w.attempts[g].pc.Sealing? && CanTick(w, g) && to.1.pc.Committing?
    requires SealGate(w.bus.couriers[g], w.attempts[g], true, |w.fin.calls|, at) == to
    ensures DurableWalk.Step(w, TickReturned(g, true, what, rejects, at))
      == Put(w, g, to).(fin := F.Enter(w.fin, CommitFor(w.bus.run, g, w.attempts[g].pc.capability.entries, what), rejects))
  {
    hide SealGate, F.Enter, CommitFor, CursorsOk;
  }

  lemma Answers(w: Whole, g: Fence.Generation, at: string, outcome: F.Outcome, to: (Courier, Attempt))
    requires IsOpen(w, g) && w.attempts[g].pc.Committing? && CanTick(w, g)
    requires var call := w.attempts[g].pc.call;
      && call < |w.fin.calls| && (w.fin.calls[call].Joined? ==> w.fin.calls[call].task < |w.fin.tasks|)
      && FT.ToldTo(w.fin, call) == Some(outcome)
    requires CommitAnswered(w.bus.couriers[g], w.attempts[g], outcome, at) == to
    ensures DurableWalk.Step(w, CommitReturned(g, at)) == Put(w, g, to)
  {
    hide CommitAnswered, FT.ToldTo, Put, CursorsOk;
  }

  lemma StepsOfCommit(bus: Bus, a: Attempt, s1: F.System, s2: F.System, s3: F.System, s4: F.System, s5: F.System, s6: F.System)
    requires s2 == F.Step(s1, F.Resumed(0, false)) && s3 == F.Step(s2, F.Resumed(0, false)) && s4 == F.Step(s3, F.Resumed(0, false))
    requires s5 == F.Step(s4, F.Resumed(0, false)) && s6 == F.Step(s5, F.Resumed(0, false))
    ensures var resumed := DurableWalk.Action.Elsewhere(F.Resumed(0, false));
      && DurableWalk.Step(Whole(s1, bus, map[1 := a]), resumed) == Whole(s2, bus, map[1 := a])
      && DurableWalk.Step(Whole(s2, bus, map[1 := a]), resumed) == Whole(s3, bus, map[1 := a])
      && DurableWalk.Step(Whole(s3, bus, map[1 := a]), resumed) == Whole(s4, bus, map[1 := a])
      && DurableWalk.Step(Whole(s4, bus, map[1 := a]), resumed) == Whole(s5, bus, map[1 := a])
      && DurableWalk.Step(Whole(s5, bus, map[1 := a]), resumed) == Whole(s6, bus, map[1 := a])
  {
    hide F.Step;
  }

  lemma LastSteps(s6: F.System)
    requires |s6.tasks| == 1 && s6.tasks[0].pc == F.Done(F.Committed) && |s6.calls| >= 1 && s6.calls[0] == F.Joined(COMMIT, 0)
    ensures var bus := Bus("r", map[1 := COURIER], {}, {}, []);
      && DurableWalk.Step(Whole(s6, bus, map[1 := COMMITTING]), CommitReturned(1, "t")) == Whole(s6, bus, map[1 := CONCLUDING])
      && DurableWalk.Step(Whole(s6, bus, map[1 := CONCLUDING]), Reported(1))
         == Whole(s6, bus, map[1 := CONCLUDING.(pc := Concluded(Terminal(Cancelled, EvidenceBundle)))])
  {
    hide DurableWalk.Step;
    Returns(s6);
    Reports(s6);
  }

  lemma Returns(s6: F.System)
    requires |s6.tasks| == 1 && s6.tasks[0].pc == F.Done(F.Committed) && |s6.calls| >= 1 && s6.calls[0] == F.Joined(COMMIT, 0)
    ensures var bus := Bus("r", map[1 := COURIER], {}, {}, []);
      DurableWalk.Step(Whole(s6, bus, map[1 := COMMITTING]), CommitReturned(1, "t")) == Whole(s6, bus, map[1 := CONCLUDING])
  {
    assert FT.ToldTo(s6, 0) == Some(F.Committed);
    hide CommitAnswered, FT.ToldTo, SealGate, StartFinish, Decide, CursorsOk, DurableWalk.Step, Put;
    AttemptSteps();
    var w := Whole(s6, Bus("r", map[1 := COURIER], {}, {}, []), map[1 := COMMITTING]);
    PutSame(w, COMMITTING, CONCLUDING);
    Answers(w, 1, "t", F.Committed, (COURIER, CONCLUDING));
  }

  lemma PutSame(w: Whole, before: Attempt, after: Attempt)
    requires w.bus.couriers == map[1 := COURIER] && w.attempts == map[1 := before]
    ensures Put(w, 1, (COURIER, after)) == w.(attempts := map[1 := after])
  {
    assert map[1 := COURIER][1 := COURIER] == map[1 := COURIER];
    assert map[1 := before][1 := after] == map[1 := after];
  }

  lemma Reports(s6: F.System)
    ensures var bus := Bus("r", map[1 := COURIER], {}, {}, []);
      DurableWalk.Step(Whole(s6, bus, map[1 := CONCLUDING]), Reported(1))
      == Whole(s6, bus, map[1 := CONCLUDING.(pc := Concluded(Terminal(Cancelled, EvidenceBundle)))])
  {
    hide CommitAnswered, SealGate, StartFinish, Decide;
    AttemptSteps();
    var done := CONCLUDING.(pc := Concluded(Terminal(Cancelled, EvidenceBundle)));
    assert map[1 := CONCLUDING][1 := done] == map[1 := done];
  }
}
