/**
 * The guarantees are not empty and not stronger than stated: an undisturbed commit does publish,
 * and concrete runs show which tempting stronger claims are false.
 */
module FinalizationWitnesses {
  import opened Options
  import opened Visibility
  import opened Fence
  import opened Lifecycle
  import opened Finalization
  import opened FinalizationProofs
  import opened FinalizationRuns
  import opened FinalizationTheorems
  import Journal
  import EventSink
  import EvidenceSink
  import Lease

  // ------------------------------------------------------------ an undisturbed commit

  /** Every participant would accept its part of `c` right now. */
  predicate Stageable(s: System, c: Commit) {
    && Admits(s.stores.journal.fence, Holder(c)) && Admits(s.stores.evidence.fence, Holder(c))
    && EventSink.StageEmit(s.stores.events, s.published, Holder(c), c.id, c.event).0.Staged?
  }

  predicate Unhindered(s: System, c: Commit) {
    && c.id !in s.published && c.id !in s.inFlightByCommit
    && Holder(c) !in s.finalized && Holder(c) !in s.inFlightByGeneration
    && c.signal !in s.aborted && !IsExpired(s, c)
  }

  /** `s` has task `t` with `n` writes staged for `c`, the next answer being `pc`. */
  predicate Midway(s: System, s': System, c: Commit, n: nat, pc: Pc) {
    && |s'.tasks| == |s.tasks| + 1
    && var task := s'.tasks[|s.tasks|];
    && task.commit == c && |task.staged| == n && task.pc == pc
    && s'.published == s.published && s'.finalized == s.finalized && s'.aborted == s.aborted && s'.now == s.now
    && s'.lease == s.lease && s'.inFlightByGeneration == s.inFlightByGeneration[Holder(c) := c.id]
  }

  lemma FirstStage(s: System, c: Commit)
    requires Unhindered(s, c) && Stageable(s, c)
    ensures var s' := Step(s, CommitCalled(c, false));
      && Midway(s, s', c, 0, Awaiting(Prepared(StagedWrite(c.id, JournalTail))))
      && s'.stores.events == s.stores.events && s'.stores.evidence == s.stores.evidence
  {
    var open := Open(s, c);
    assert open.tasks[|s.tasks|] == Task(c, [], Executing);
  }

  lemma SecondStage(s: System, s1: System, c: Commit)
    requires Unhindered(s, c) && Stageable(s, c)
    requires Midway(s, s1, c, 0, Awaiting(Prepared(StagedWrite(c.id, JournalTail))))
    requires s1.stores.events == s.stores.events && s1.stores.evidence == s.stores.evidence
    ensures var s' := Step(s1, Resumed(|s.tasks|, false));
      var cleanup := EventSink.StageEmit(s.stores.events, s.published, Holder(c), c.id, c.event).0.cleanup;
      && Midway(s, s', c, 1, Awaiting(Prepared(StagedWrite(c.id, TerminalEvent(cleanup)))))
      && s'.stores.evidence == s.stores.evidence
  {
    hide EventSink.StageEmit;
  }

  lemma ThirdStage(s: System, s2: System, c: Commit, handle: Handle)
    requires Unhindered(s, c) && Stageable(s, c)
    requires Midway(s, s2, c, 1, Awaiting(Prepared(StagedWrite(c.id, handle))))
    requires s2.stores.evidence == s.stores.evidence
    ensures Midway(s, Step(s2, Resumed(|s.tasks|, false)), c, 2, Awaiting(Prepared(StagedWrite(c.id, SealedBundle))))
  {
  }

  lemma Renewal(s: System, s3: System, c: Commit)
    requires Unhindered(s, c) && Lease.Holds(s.lease, c.run, c.generation)
    requires Midway(s, s3, c, 2, Awaiting(Prepared(StagedWrite(c.id, SealedBundle))))
    ensures Midway(s, Step(s3, Resumed(|s.tasks|, false)), c, 3, Renewing(Some(true)))
  {
  }

  /** From a confirmed renewal to the outcome, provided the gate finds nothing in the way. */
  lemma MarkerAndOutcome(s: System, t: nat)
    requires t < |s.tasks| && s.tasks[t].pc == Renewing(Some(true))
    requires var c := s.tasks[t].commit;
      && c.signal !in s.aborted && !IsExpired(s, c) && Holder(c) !in s.finalized
      && (Holder(c) in s.inFlightByGeneration ==> s.inFlightByGeneration[Holder(c)] == c.id)
    ensures var c := s.tasks[t].commit;
      var s5 := Step(s, Resumed(t, false));
      var s6 := Step(s5, Resumed(t, false));
      && c.id in s5.published && |s6.tasks| == |s.tasks| && s6.tasks[t].pc == Done(Committed) && s6.tasks[t].commit == c
      && s6.published == s5.published == s.published + {c.id} && s6.sealed == s.sealed[c.id := c]
      && s6.intents == s.intents[c.id := Canonical(c)]
  {
  }

  lemma PlayMore(actions: seq<Action>, action: Action)
    ensures Play(actions + [action]) == Step(Play(actions), action)
  {
    hide Step;
    var all := actions + [action];
    assert all[..|all| - 1] == actions;
  }

  function UpToRenewal(actions: seq<Action>, c: Commit): seq<Action> {
    var t := |Play(actions).tasks|;
    actions + [CommitCalled(c, false)] + [Resumed(t, false)] + [Resumed(t, false)] + [Resumed(t, false)]
  }

  lemma ReachesRenewal(actions: seq<Action>, c: Commit)
    requires var s := Play(actions); Unhindered(s, c) && Stageable(s, c) && Lease.Holds(s.lease, c.run, c.generation)
    ensures Midway(Play(actions), Play(UpToRenewal(actions, c)), c, 3, Renewing(Some(true)))
  {
    hide Step, Play, Midway, Unhindered;
    var s := Play(actions);
    var t := |s.tasks|;
    var a1 := actions + [CommitCalled(c, false)];
    var a2 := a1 + [Resumed(t, false)];
    var a3 := a2 + [Resumed(t, false)];
    PlayMore(actions, CommitCalled(c, false));
    PlayMore(a1, Resumed(t, false));
    PlayMore(a2, Resumed(t, false));
    PlayMore(a3, Resumed(t, false));
    FirstStage(s, c);
    SecondStage(s, Play(a1), c);
    var cleanup := EventSink.StageEmit(s.stores.events, s.published, Holder(c), c.id, c.event).0.cleanup;
    ThirdStage(s, Play(a2), c, TerminalEvent(cleanup));
    Renewal(s, Play(a3), c);
  }

  /**
   * A commit nobody interferes with publishes: in any reachable state in which its participants
   * accept it, its generation holds the lease and is free, it is not aborted and not expired, its
   * own steps end with its caller told that it succeeded.
   */
  lemma UndisturbedCommitPublishes(actions: seq<Action>, c: Commit)
    requires var s := Play(actions); Unhindered(s, c) && Stageable(s, c) && Lease.Holds(s.lease, c.run, c.generation)
    ensures var t := |Play(actions).tasks|;
      var s' := Play(UpToRenewal(actions, c) + [Resumed(t, false)] + [Resumed(t, false)]);
      && c.id in s'.sealed && s'.sealed[c.id] == c && WhollyVisible(s', c.id)
      && t < |s'.tasks| && s'.tasks[t].pc == Done(Committed)
  {
    hide Step, Play, Stageable, UpToRenewal, WhollyVisible, Inv;
    var t := |Play(actions).tasks|;
    var a4 := UpToRenewal(actions, c);
    ReachesRenewal(actions, c);
    MarkerAndOutcome(Play(a4), t);
    PlayMore(a4, Resumed(t, false));
    PlayMore(a4 + [Resumed(t, false)], Resumed(t, false));
    Reachable(a4 + [Resumed(t, false)] + [Resumed(t, false)]);
    SealedIsVisible(Play(a4 + [Resumed(t, false)] + [Resumed(t, false)]), c.id);
  }

  // ----------------------------------------------------------- what does not hold

  const ATTEMPT := Lease.Attempt("r", "a")
  const COMMIT := Commit("r", 1, "r#g1", Cancelled, [], EventSink.Event(0, "run cancelled"), "bundle", 0, None, Governed)
  const OPENING := [Leased(Lease.ClaimAction(ATTEMPT, false))]

  lemma OpeningState()
    ensures var s := Play(OPENING);
      Unhindered(s, COMMIT) && Stageable(s, COMMIT) && Lease.Holds(s.lease, "r", 1) && s.tasks == []
      && s.stores == INITIAL.stores
  {
    var claim := Leased(Lease.ClaimAction(ATTEMPT, false));
    assert OPENING == [] + [claim];
    PlayMore([], claim);
    var s := Play(OPENING);
    assert s.lease == Lease.Step(Lease.EMPTY, Lease.ClaimAction(ATTEMPT, false));
  }

  /** Ownership is confirmed when the lease answers, not when the marker is set. */
  lemma LeaseMayMoveBeforeMarker() returns (actions: seq<Action>)
    ensures actions != []
    ensures var before, after := Play(actions[..|actions| - 1]), Play(actions);
      COMMIT.id in after.published && COMMIT.id !in before.published && !Lease.Holds(before.lease, "r", 1)
  {
    hide Play, UpToRenewal, Stageable;
    OpeningState();
    ReachesRenewal(OPENING, COMMIT);
    var a4 := UpToRenewal(OPENING, COMMIT);
    var release := Leased(Lease.ReleaseAction("r", 1));
    PlayMore(a4, release);
    var a5 := a4 + [release];
    PlayMore(a5, Resumed(0, false));
    actions := a5 + [Resumed(0, false)];
    assert actions[..|actions| - 1] == a5;
    hide Step;
    MarkerAndOutcome(Play(a5), 0);
  }

  /**
   * Reconciliation compares identity and intent, neither of which names the run: without the
   * caller's convention that an identity determines its holder, a commit for another run would be
   * told it succeeded.
   */
  lemma SharedIdentityAnswersForAnotherRun() returns (actions: seq<Action>, other: Commit)
    ensures var s := Play(actions);
      && s.calls != [] && s.calls[|s.calls| - 1] == Answered(other, Committed)
      && other.id in s.sealed && Holder(s.sealed[other.id]) != Holder(other)
  {
    hide Play, UpToRenewal, Stageable, WhollyVisible, Inv;
    OpeningState();
    UndisturbedCommitPublishes(OPENING, COMMIT);
    other := COMMIT.(run := "s");
    var a6 := UpToRenewal(OPENING, COMMIT) + [Resumed(0, false)] + [Resumed(0, false)];
    PlayMore(a6, CommitCalled(other, false));
    actions := a6 + [CommitCalled(other, false)];
    Reachable(a6);
    SealedIsPublished(Play(a6));
    ReplayReconciles(a6, other, false);
    hide Step;
  }
}
