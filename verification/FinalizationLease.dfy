/** When the generation that the lease confirmed is still current at the marker. */
module FinalizationLease {
  import opened Options
  import opened Visibility
  import opened Fence
  import opened Finalization
  import opened FinalizationProofs
  import opened FinalizationRuns
  import opened FinalizationTheorems
  import Lease

  lemma FailLeavesLease(s: System, t: nat, outcome: Outcome)
    requires t < |s.tasks|
    ensures Fail(s, t, outcome).lease == s.lease
  {
    hide AbandonAll;
  }

  lemma ProceedLeavesLease(s: System, t: nat, rejects: bool)
    requires t < |s.tasks|
    ensures Proceed(s, t, rejects).lease == s.lease
  {
    hide Fail, Stage, Lease.Holds, IsExpired, ExpiredOutcome;
    FailLeavesLease(s, t, NotCommitted(Unspecified));
    FailLeavesLease(s, t, ExpiredOutcome(s.tasks[t].commit));
  }

  lemma GateLeavesLease(s: System, t: nat)
    requires t < |s.tasks|
    ensures Gate(s, t).lease == s.lease
  {
    hide Fail, IsExpired, ExpiredOutcome;
    var c := s.tasks[t].commit;
    FailLeavesLease(s, t, NotCommitted(AlreadyCommitted));
    FailLeavesLease(s.(inFlightByGeneration := s.inFlightByGeneration[Holder(c) := c.id]), t, ExpiredOutcome(c));
  }

  lemma ResumeLeavesLease(s: System, t: nat, rejects: bool)
    requires t < |s.tasks|
    ensures Resume(s, t, rejects).lease == s.lease
  {
    hide Fail, Proceed, Gate;
    var task := s.tasks[t];
    match task.pc
    case Executing =>
    case Awaiting(Rejected) => FailLeavesLease(s, t, NotCommitted(Unspecified));
    case Awaiting(Declined(reason)) => FailLeavesLease(s, t, NotCommitted(reason));
    case Awaiting(Prepared(write)) =>
      var s1 := SetTask(s, t, task.(staged := task.staged + [write], pc := Executing));
      FailLeavesLease(s1, t, NotCommitted(Unspecified));
      ProceedLeavesLease(s1, t, rejects);
    case Renewing(_) =>
      FailLeavesLease(s, t, NotCommitted(Unspecified));
      FailLeavesLease(s, t, NotCommitted(Stale));
      GateLeavesLease(s, t);
    case Retiring(_) =>
    case Done(_) =>
  }

  /** Only lease operations move the lease. */
  lemma OthersLeaveTheLease(s: System, action: Action)
    ensures Step(s, action).lease == if action.Leased? then Lease.Step(s.lease, action.action) else s.lease
  {
    hide Proceed, Resume, Lease.Step;
    match action
    case CommitCalled(c, rejects) => ProceedLeavesLease(Open(s, c), |s.tasks|, rejects);
    case Resumed(t, rejects) => if t < |s.tasks| { ResumeLeavesLease(s, t, rejects); }
    case _ =>
  }

  /** The lease operations of a run, in order. */
  function LeaseActions(actions: seq<Action>): seq<Lease.Action> {
    if actions == [] then []
    else
      var n := |actions| - 1;
      LeaseActions(actions[..n]) + if actions[n].Leased? then [actions[n].action] else []
  }

  lemma {:induction false} LeaseActionsAre(actions: seq<Action>, act: Lease.Action)
    ensures act in LeaseActions(actions) <==> Leased(act) in actions
  {
    if actions != [] {
      var n := |actions| - 1;
      LeaseActionsAre(actions[..n], act);
      assert actions == actions[..n] + [actions[n]];
    }
  }

  lemma {:induction false} LeaseRuns(before: seq<Action>, more: seq<Action>)
    ensures Play(before + more).lease == Lease.Play(Play(before).lease, LeaseActions(more))
    decreases more
  {
    hide Step, Play, Lease.Step;
    if more == [] {
      assert before + more == before;
    } else {
      hide Lease.Play;
      var n := |more| - 1;
      var all := before + more;
      assert all[..|all| - 1] == before + more[..n] && all[|all| - 1] == more[n];
      LeaseRuns(before, more[..n]);
      StepsOnce(all);
      OthersLeaveTheLease(Play(before + more[..n]), more[n]);
      if more[n].Leased? {
        Lease.PlaySplits(Play(before).lease, LeaseActions(more[..n]), more[n].action);
      } else {
        assert LeaseActions(more) == LeaseActions(more[..n]);
      }
    }
  }

  lemma LeaseIsSound(actions: seq<Action>)
    ensures Lease.Sound(Play(actions).lease)
  {
    hide Play, Lease.Sound;
    LeaseRuns([], actions);
    assert [] + actions == actions;
    assert Play([]).lease == Lease.EMPTY by { Nothing(); }
    Lease.EmptyIsSound();
    Lease.LeaseTheorem(Lease.EMPTY, LeaseActions(actions), Lease.Attempt("", ""), false);
  }

  lemma Nothing()
    ensures Play([]) == INITIAL
  {
  }

  /** The lease operations after step `p` and before the last one. */
  function Meanwhile(actions: seq<Action>, p: nat): seq<Action>
    requires p < |actions| - 1
  {
    actions[p..|actions| - 1]
  }

  /**
   * The generation confirmed before a publication is still current at the marker exactly when,
   * between that answer and the marker, nobody released it and nobody abandoned the attempt that
   * was granted it. No other lease operation, of this run or any other, can take it away.
   */
  lemma CurrentAtMarkerExactly(actions: seq<Action>, id: CommitId) returns (t: nat, p: nat, task: Task, owner: Lease.Attempt)
    requires actions != []
    requires id in Play(actions).published && id !in Play(actions[..|actions| - 1]).published
    ensures p < |actions| - 1 && task.commit.id == id
    ensures RenewedAt(actions, t, p) && StillSince(actions[..|actions| - 1], t, p, task)
    ensures owner.run == task.commit.run && Lease.IsGranted(Play(actions[..p]).lease, owner, task.commit.generation)
    ensures Lease.Holds(Play(actions[..|actions| - 1]).lease, task.commit.run, task.commit.generation)
      <==> Leased(Lease.ReleaseAction(task.commit.run, task.commit.generation)) !in Meanwhile(actions, p)
           && Leased(Lease.AbandonAction(owner)) !in Meanwhile(actions, p)
  {
    hide Play, Step, Lease.Play, Lease.Sound, At, Inv;
    t, p, task := OwnedWhenRenewed(actions, id);
    var before := actions[..|actions| - 1];
    var g := task.commit.generation;
    HeldAtRenewal(actions, t, p, task);
    LeaseIsSound(actions[..p]);
    owner := OwnerOfHeld(Play(actions[..p]).lease, task.commit.run);
    assert before == actions[..p] + Meanwhile(actions, p);
    LeaseRuns(actions[..p], Meanwhile(actions, p));
    Lease.HeldExactly(Play(actions[..p]).lease, LeaseActions(Meanwhile(actions, p)), owner, g);
    LeaseActionsAre(Meanwhile(actions, p), Lease.ReleaseAction(task.commit.run, g));
    LeaseActionsAre(Meanwhile(actions, p), Lease.AbandonAction(owner));
  }

  lemma OwnerOfHeld(s: Lease.LeaseState, run: RunId) returns (owner: Lease.Attempt)
    requires Lease.Sound(s) && run in s.held
    ensures owner.run == run && Lease.IsGranted(s, owner, s.held[run])
  {
    owner :| owner.run == run && Lease.IsGranted(s, owner, s.held[run]);
  }

  /** The task that is answered is the one that will publish. */
  lemma HeldAtRenewal(actions: seq<Action>, t: nat, p: nat, task: Task)
    requires p < |actions| - 1 && RenewedAt(actions, t, p) && StillSince(actions[..|actions| - 1], t, p, task)
    ensures Lease.Holds(Play(actions[..p]).lease, task.commit.run, task.commit.generation)
  {
    hide Play, Step, At, Inv;
    AtIsPlay(actions, p);
    AtIsPlay(actions, p + 1);
    var before := actions[..|actions| - 1];
    AtIsPlay(before, p + 1);
    assert before[..p + 1] == actions[..p + 1];
    assert TaskIs(At(before, p + 1), t, task);
    Reachable(actions[..p]);
    assert actions[..p + 1][..p] == actions[..p] && actions[..p + 1][p] == actions[p];
    StepsOnce(actions[..p + 1]);
    TasksChange(Play(actions[..p]), actions[p]);
  }

  lemma StepsOnce(actions: seq<Action>)
    requires actions != []
    ensures Play(actions) == Step(Play(actions[..|actions| - 1]), actions[|actions| - 1])
  {
    hide Step;
  }
}
