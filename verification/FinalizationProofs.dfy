/** The coordinator's invariant, segment by segment. */
module FinalizationProofs {
  import opened Options
  import opened Visibility
  import opened Fence
  import opened Lifecycle
  import opened Finalization
  import opened FinalizationStores
  import Journal
  import EventSink
  import EvidenceSink
  import Lease

  // ------------------------------------------------------- replacing one task

  lemma LinkedAfterUpdate(inFlight: map<CommitId, InFlight>, tasks: seq<Task>, t: nat, task: Task)
    requires Linked(inFlight, tasks) && t < |tasks| && !tasks[t].pc.Done? && !task.pc.Done?
    requires task.commit == tasks[t].commit
    ensures Linked(inFlight, tasks[t := task])
  {
    assert inFlight[task.commit.id].task == t;
    forall c | c in inFlight
      ensures LinkedTo(inFlight, c, tasks[t := task][inFlight[c].task])
    {
      assert LinkedTo(inFlight, c, tasks[inFlight[c].task]);
    }
  }

  lemma ClaimsAfterUpdate(claims: map<RunFence, CommitId>, inFlight: map<CommitId, InFlight>, tasks: seq<Task>, t: nat, task: Task)
    requires ClaimsOk(claims, inFlight, tasks) && t < |tasks| && task.commit == tasks[t].commit
    ensures ClaimsOk(claims, inFlight, tasks[t := task])
  {
  }

  lemma ShapesAfterUpdate(tasks: seq<Task>, t: nat, task: Task)
    requires AllShaped(tasks) && t < |tasks| && Shaped(task)
    ensures AllShaped(tasks[t := task])
  {
  }

  lemma BeliefsAfterUpdate(intents: map<CommitId, Intent>, tasks: seq<Task>, calls: seq<Call>, t: nat, task: Task)
    requires TasksBelieve(intents, tasks) && CallsBelieve(intents, tasks, calls)
    requires t < |tasks| && task.commit == tasks[t].commit && TaskBelief(intents, task)
    ensures TasksBelieve(intents, tasks[t := task]) && CallsBelieve(intents, tasks[t := task], calls)
  {
    forall i | 0 <= i < |calls|
      ensures CallBelief(intents, tasks[t := task], calls[i])
    {
      assert CallBelief(intents, tasks, calls[i]);
    }
  }

  /** Which store a task's commit is in follows from how many writes it has staged. */
  lemma OwnerOfTask(sealed: map<CommitId, Commit>, inFlight: map<CommitId, InFlight>, tasks: seq<Task>, t: nat, part: nat)
    requires Linked(inFlight, tasks) && t < |tasks| && !tasks[t].pc.Done? && tasks[t].commit.id !in sealed
    ensures var id := tasks[t].commit.id;
      var owners := Owners(sealed, inFlight, tasks, part);
      (id in owners <==> part < |Writes(tasks[t])|) && (id in owners ==> owners[id] == tasks[t].commit)
  {
  }

  lemma OtherOwners(sealed: map<CommitId, Commit>, inFlight: map<CommitId, InFlight>, tasks: seq<Task>, tasks': seq<Task>,
                    id: CommitId, part: nat)
    requires Linked(inFlight, tasks) && Linked(inFlight, tasks')
    requires forall c | c in inFlight && c != id :: tasks'[inFlight[c].task] == tasks[inFlight[c].task]
    ensures var owners, owners' := Owners(sealed, inFlight, tasks, part), Owners(sealed, inFlight, tasks', part);
      forall c | c != id :: (c in owners' <==> c in owners) && (c in owners ==> owners'[c] == owners[c])
  {
  }

  /** How one participant's owners change when a task's staged writes do. */
  ghost predicate OwnersMove(owners: OwnerMap, owners': OwnerMap, c: Commit, before: nat, after: nat, part: nat) {
    && (c.id in owners <==> part < before) && (c.id in owners ==> owners[c.id] == c)
    && (part < before && part < after ==> owners' == owners)
    && (before <= part && after <= part ==> owners' == owners)
    && (before <= part < after ==> owners' == owners[c.id := c])
    && (after <= part < before ==> owners' == owners - {c.id})
  }

  lemma OwnersAfterUpdate(sealed: map<CommitId, Commit>, inFlight: map<CommitId, InFlight>, tasks: seq<Task>,
                          t: nat, task: Task, part: nat)
    requires Linked(inFlight, tasks) && t < |tasks| && !tasks[t].pc.Done? && !task.pc.Done?
    requires task.commit == tasks[t].commit && task.commit.id !in sealed
    ensures Linked(inFlight, tasks[t := task])
    ensures OwnersMove(Owners(sealed, inFlight, tasks, part), Owners(sealed, inFlight, tasks[t := task], part),
                       task.commit, |Writes(tasks[t])|, |Writes(task)|, part)
  {
    var tasks' := tasks[t := task];
    LinkedAfterUpdate(inFlight, tasks, t, task);
    OwnerOfTask(sealed, inFlight, tasks, t, part);
    OwnerOfTask(sealed, inFlight, tasks', t, part);
    OtherOwners(sealed, inFlight, tasks, tasks', task.commit.id, part);
    hide Linked, Owners;
    MovesPointwise(Owners(sealed, inFlight, tasks, part), Owners(sealed, inFlight, tasks', part), task.commit,
                   |Writes(tasks[t])|, |Writes(task)|, part);
  }

  lemma MovesPointwise(owners: OwnerMap, owners': OwnerMap, c: Commit, before: nat, after: nat, part: nat)
    requires (c.id in owners <==> part < before) && (c.id in owners ==> owners[c.id] == c)
    requires (c.id in owners' <==> part < after) && (c.id in owners' ==> owners'[c.id] == c)
    requires forall k | k != c.id :: (k in owners' <==> k in owners) && (k in owners ==> owners'[k] == owners[k])
    ensures OwnersMove(owners, owners', c, before, after, part)
  {
  }

  lemma UnsealedOwners(sealed: map<CommitId, Commit>, inFlight: map<CommitId, InFlight>, tasks: seq<Task>, t: nat)
    requires Linked(inFlight, tasks) && t < |tasks| && !tasks[t].pc.Done? && tasks[t].commit.id !in sealed
    requires |Writes(tasks[t])| <= 3
    ensures Staircase(tasks[t].commit, |Writes(tasks[t])|,
                      Owners(sealed, inFlight, tasks, 0), Owners(sealed, inFlight, tasks, 1), Owners(sealed, inFlight, tasks, 2))
  {
    OwnerOfTask(sealed, inFlight, tasks, t, 0);
    OwnerOfTask(sealed, inFlight, tasks, t, 1);
    OwnerOfTask(sealed, inFlight, tasks, t, 2);
  }

  lemma ShapeGivesHandles(task: Task)
    requires Shaped(task)
    ensures StagedShape(task.commit, Writes(task))
  {
  }

  /** The ledgers, tasks and callers after one task was replaced by `task`. */
  lemma UpdateKeepsLedgers(s: System, s': System, t: nat, task: Task)
    requires Inv(s) && t < |s.tasks| && !s.tasks[t].pc.Done? && !task.pc.Done? && task.commit == s.tasks[t].commit
    requires s' == s.(tasks := s.tasks[t := task], stores := s'.stores)
    requires Shaped(task) && TaskBelief(s.intents, task)
    ensures Linked(s'.inFlightByCommit, s'.tasks)
    ensures StoresOk(s') && HandlesOk(s'.tasks, s'.stores.events) ==> Inv(s')
  {
    hide StoresOk, HandlesOk, LedgerOk;
    LinkedAfterUpdate(s.inFlightByCommit, s.tasks, t, task);
    ClaimsAfterUpdate(s.inFlightByGeneration, s.inFlightByCommit, s.tasks, t, task);
    ShapesAfterUpdate(s.tasks, t, task);
    BeliefsAfterUpdate(s.intents, s.tasks, s.calls, t, task);
  }

  lemma EventsAreValid(s: System)
    requires Inv(s)
    ensures EventSink.Valid(s.stores.events)
  {
    hide EventSink.Valid, LedgerOk, TasksBelieve, CallsBelieve, AllShaped, ClaimsOk, HandlesOk, JournalOk, EvidenceOk, Owners;
  }

  // ----------------------------------------------------------------- giving up

  lemma FailedHandles(tasks: seq<Task>, e: EventSink.Sink, e': EventSink.Sink, t: nat, task: Task)
    requires HandlesOk(tasks, e) && t < |tasks| && !IsLive(task)
    requires forall run, row | EventSink.Stored(e', run, row) :: EventSink.Stored(e, run, row)
    ensures HandlesOk(tasks[t := task], e')
  {
  }

  lemma FailKeepsStores(s: System, t: nat, outcome: Outcome)
    requires Inv(s) && t < |s.tasks| && IsLive(s.tasks[t]) && Writes(s.tasks[t]) == s.tasks[t].staged
    requires s.tasks[t].commit.id !in s.sealed && Linked(s.inFlightByCommit, Fail(s, t, outcome).tasks)
    ensures StoresOk(Fail(s, t, outcome))
  {
    hide Recorded, HandlesOk, Owners, Linked, Writes, OwnersMove, AbandonAll;
    var task := s.tasks[t];
    var n := |task.staged|;
    var task' := task.(staged := [], pc := Retiring(outcome));
    NothingStaged(task');
    FailStores(s, t);
    OwnersAfterUpdate(s.sealed, s.inFlightByCommit, s.tasks, t, task', 0);
    OwnersAfterUpdate(s.sealed, s.inFlightByCommit, s.tasks, t, task', 1);
    OwnersAfterUpdate(s.sealed, s.inFlightByCommit, s.tasks, t, task', 2);
    var tasks' := s.tasks[t := task'];
    DropOwners(task.commit, n, Owners(s.sealed, s.inFlightByCommit, s.tasks, 0), Owners(s.sealed, s.inFlightByCommit, tasks', 0), 0);
    DropOwners(task.commit, n, Owners(s.sealed, s.inFlightByCommit, s.tasks, 1), Owners(s.sealed, s.inFlightByCommit, tasks', 1), 1);
    DropOwners(task.commit, n, Owners(s.sealed, s.inFlightByCommit, s.tasks, 2), Owners(s.sealed, s.inFlightByCommit, tasks', 2), 2);
  }

  lemma NothingStaged(task: Task)
    requires task.staged == [] && task.pc.Retiring?
    ensures Writes(task) == [] && Shaped(task)
  {
  }

  /** A live task that gives up leaves no trace of its commit in any store. */
  lemma FailKeepsInv(s: System, t: nat, outcome: Outcome)
    requires Inv(s) && t < |s.tasks| && IsLive(s.tasks[t]) && Writes(s.tasks[t]) == s.tasks[t].staged
    requires outcome.NotCommitted?
    ensures Inv(Fail(s, t, outcome))
  {
    hide StoresOk, HandlesOk, Shaped, Writes, AbandonAll;
    var task := s.tasks[t];
    var task' := task.(staged := [], pc := Retiring(outcome));
    var s' := Fail(s, t, outcome);
    NothingStaged(task');
    assert TaskBelief(s.intents, task);
    assert s' == s.(tasks := s.tasks[t := task'], stores := s'.stores);
    UpdateKeepsLedgers(s, s', t, task');
    FailKeepsStores(s, t, outcome);
    FailStores(s, t);
    FailedHandles(s.tasks, s.stores.events, s'.stores.events, t, task');
  }

  lemma DropOwners(c: Commit, before: nat, owners: OwnerMap, owners': OwnerMap, part: nat)
    requires OwnersMove(owners, owners', c, before, 0, part)
    ensures owners' == owners - {c.id}
  {
  }

  lemma FailStores(s: System, t: nat)
    requires Inv(s) && t < |s.tasks| && IsLive(s.tasks[t]) && Writes(s.tasks[t]) == s.tasks[t].staged
    ensures var c := s.tasks[t].commit;
      var st' := AbandonAll(s.stores, s.published, c, s.tasks[t].staged);
      && Recorded(st', s.published,
                  Owners(s.sealed, s.inFlightByCommit, s.tasks, 0) - {c.id},
                  Owners(s.sealed, s.inFlightByCommit, s.tasks, 1) - {c.id},
                  Owners(s.sealed, s.inFlightByCommit, s.tasks, 2) - {c.id})
      && (forall run, row | EventSink.Stored(st'.events, run, row) :: EventSink.Stored(s.stores.events, run, row))
  {
    hide Recorded;
    var task := s.tasks[t];
    assert TaskBelief(s.intents, task) && Shaped(task);
    ShapeGivesHandles(task);
    UnsealedOwners(s.sealed, s.inFlightByCommit, s.tasks, t);
    forall run, row | EventSink.Stored(s.stores.events, run, row) && row.commit == Some(task.commit.id)
      ensures 1 < |task.staged| && task.staged[1].handle.cleanup.Stage? && task.staged[1].handle.cleanup.row == row
    {
      assert CanRelease(task, row);
    }
    AbandonedEverywhere(s.stores, s.published, task.commit, task.staged,
      Owners(s.sealed, s.inFlightByCommit, s.tasks, 0),
      Owners(s.sealed, s.inFlightByCommit, s.tasks, 1),
      Owners(s.sealed, s.inFlightByCommit, s.tasks, 2));
  }

  // -------------------------------------------------- from one await to the next

  lemma SameWritesHandles(tasks: seq<Task>, e: EventSink.Sink, t: nat, task: Task)
    requires HandlesOk(tasks, e) && t < |tasks| && IsLive(tasks[t])
    requires task.commit == tasks[t].commit && Writes(task) == Writes(tasks[t])
    ensures HandlesOk(tasks[t := task], e)
  {
    var tasks' := tasks[t := task];
    forall u, run, row | 0 <= u < |tasks'| && IsLive(tasks'[u]) && EventSink.Stored(e, run, row)
        && row.commit == Some(tasks'[u].commit.id)
      ensures CanRelease(tasks'[u], row)
    {
      assert CanRelease(tasks[u], row);
    }
  }

  lemma KeepOwners(c: Commit, before: nat, owners: OwnerMap, owners': OwnerMap, part: nat)
    requires OwnersMove(owners, owners', c, before, before, part)
    ensures owners' == owners
  {
  }

  /** A task record that changes without touching the stores or what it has staged. */
  lemma RecordKeepsInv(s: System, t: nat, task: Task)
    requires Inv(s) && t < |s.tasks| && IsLive(s.tasks[t]) && IsLive(task)
    requires task.commit == s.tasks[t].commit && Writes(task) == Writes(s.tasks[t]) && Shaped(task)
    ensures Inv(SetTask(s, t, task))
  {
    hide Recorded, HandlesOk;
    var s' := SetTask(s, t, task);
    var n := |Writes(task)|;
    assert TaskBelief(s.intents, s.tasks[t]);
    UpdateKeepsLedgers(s, s', t, task);
    OwnersAfterUpdate(s.sealed, s.inFlightByCommit, s.tasks, t, task, 0);
    OwnersAfterUpdate(s.sealed, s.inFlightByCommit, s.tasks, t, task, 1);
    OwnersAfterUpdate(s.sealed, s.inFlightByCommit, s.tasks, t, task, 2);
    KeepOwners(task.commit, n, Owners(s.sealed, s.inFlightByCommit, s.tasks, 0), Owners(s.sealed, s.inFlightByCommit, s'.tasks, 0), 0);
    KeepOwners(task.commit, n, Owners(s.sealed, s.inFlightByCommit, s.tasks, 1), Owners(s.sealed, s.inFlightByCommit, s'.tasks, 1), 1);
    KeepOwners(task.commit, n, Owners(s.sealed, s.inFlightByCommit, s.tasks, 2), Owners(s.sealed, s.inFlightByCommit, s'.tasks, 2), 2);
    SameWritesHandles(s.tasks, s.stores.events, t, task);
  }

  lemma AwaitingShaped(task: Task, reply: Reply)
    requires Shaped(task) && task.pc.Executing? && |task.staged| < 3
    requires reply.Prepared? ==> HandleFits(task.commit, |task.staged|, reply.write)
    ensures Shaped(task.(pc := Awaiting(reply)))
  {
    assert Writes(task) == task.staged;
    var writes := Writes(task.(pc := Awaiting(reply)));
    assert forall i | 0 <= i < |task.staged| :: writes[i] == task.staged[i];
  }

  /** Handles after one more participant answered. */
  lemma StagedHandles(tasks: seq<Task>, e: EventSink.Sink, e': EventSink.Sink, t: nat, reply: Reply)
    requires HandlesOk(tasks, e) && t < |tasks| && tasks[t].pc.Executing? && |tasks[t].staged| < 3
    requires forall u | 0 <= u < |tasks| && u != t && IsLive(tasks[u]) :: tasks[u].commit.id != tasks[t].commit.id
    requires forall run, row | EventSink.Stored(e', run, row) && row.commit != Some(tasks[t].commit.id) :: EventSink.Stored(e, run, row)
    requires |tasks[t].staged| == 1 ==>
      forall run, row | EventSink.Stored(e', run, row) && row.commit == Some(tasks[t].commit.id) ::
        reply.Prepared? && reply.write.handle.TerminalEvent? && reply.write.handle.cleanup.Stage? && reply.write.handle.cleanup.row == row
    requires |tasks[t].staged| != 1 ==> e' == e
    ensures HandlesOk(tasks[t := tasks[t].(pc := Awaiting(reply))], e')
  {
    var task' := tasks[t].(pc := Awaiting(reply));
    var tasks' := tasks[t := task'];
    assert Writes(tasks[t]) == tasks[t].staged;
    forall u, run, row | 0 <= u < |tasks'| && IsLive(tasks'[u]) && EventSink.Stored(e', run, row)
        && row.commit == Some(tasks'[u].commit.id)
      ensures CanRelease(tasks'[u], row)
    {
      if u != t {
        assert CanRelease(tasks[u], row);
      } else if |tasks[t].staged| == 1 {
        assert Writes(task')[1] == reply.write;
      } else {
        assert CanRelease(tasks[t], row);
        assert Writes(task')[1] == Writes(tasks[t])[1];
      }
    }
  }

  lemma DistinctLiveCommits(s: System, t: nat)
    requires Linked(s.inFlightByCommit, s.tasks) && t < |s.tasks| && !s.tasks[t].pc.Done?
    ensures forall u | 0 <= u < |s.tasks| && u != t && IsLive(s.tasks[u]) :: s.tasks[u].commit.id != s.tasks[t].commit.id
  {
  }

  /** What one participant's staging does to all three stores. */
  ghost predicate StagedOne(c: Commit, n: nat, reply: Reply, st': Stores, published: set<CommitId>,
                            o0: OwnerMap, o1: OwnerMap, o2: OwnerMap)
  {
    && !reply.Rejected?
    && (reply.Prepared? ==> HandleFits(c, n, reply.write))
    && (reply.Declined? ==> Recorded(st', published, o0, o1, o2))
    && (reply.Prepared? && n == 0 ==> Recorded(st', published, o0[c.id := c], o1, o2))
    && (reply.Prepared? && n == 1 ==> Recorded(st', published, o0, o1[c.id := c], o2))
    && (reply.Prepared? && n == 2 ==> Recorded(st', published, o0, o1, o2[c.id := c]))
  }

  lemma StageStores(s: System, t: nat)
    requires Inv(s) && t < |s.tasks| && s.tasks[t].pc.Executing? && |s.tasks[t].staged| < 3
    ensures var task := s.tasks[t];
      var (reply, st') := Stage(s.stores, s.published, task.commit, |task.staged|);
      && StagedOne(task.commit, |task.staged|, reply, st', s.published,
                   Owners(s.sealed, s.inFlightByCommit, s.tasks, 0),
                   Owners(s.sealed, s.inFlightByCommit, s.tasks, 1),
                   Owners(s.sealed, s.inFlightByCommit, s.tasks, 2))
      && HandlesOk(s.tasks[t := task.(pc := Awaiting(reply))], st'.events)
  {
    hide Recorded;
    var task := s.tasks[t];
    var c := task.commit;
    var n := |task.staged|;
    var (reply, st') := Stage(s.stores, s.published, c, n);
    assert TaskBelief(s.intents, task) && Shaped(task);
    UnsealedOwners(s.sealed, s.inFlightByCommit, s.tasks, t);
    var o0 := Owners(s.sealed, s.inFlightByCommit, s.tasks, 0);
    var o1 := Owners(s.sealed, s.inFlightByCommit, s.tasks, 1);
    var o2 := Owners(s.sealed, s.inFlightByCommit, s.tasks, 2);
    if n == 0 {
      StagedTail(s.stores, s.published, c, o0, o1, o2);
    } else if n == 1 {
      StagedTerminal(s.stores, s.published, c, o0, o1, o2);
    } else {
      StagedSeal(s.stores, s.published, c, o0, o1, o2);
    }
    DistinctLiveCommits(s, t);
    StagedHandles(s.tasks, s.stores.events, st'.events, t, reply);
  }

  /** One participant stages its part: it and no other store gains exactly this commit's record. */
  lemma StageKeepsInv(s: System, t: nat)
    requires Inv(s) && t < |s.tasks| && s.tasks[t].pc.Executing? && |s.tasks[t].staged| < 3
    ensures var task := s.tasks[t];
      var (reply, stores) := Stage(s.stores, s.published, task.commit, |task.staged|);
      Inv(SetTask(s, t, task.(pc := Awaiting(reply))).(stores := stores))
  {
    hide Recorded, HandlesOk;
    var task := s.tasks[t];
    var n := |task.staged|;
    var (reply, stores) := Stage(s.stores, s.published, task.commit, n);
    var task' := task.(pc := Awaiting(reply));
    var s' := SetTask(s, t, task').(stores := stores);
    assert TaskBelief(s.intents, task);
    StageStores(s, t);
    AwaitingShaped(task, reply);
    assert s' == s.(tasks := s.tasks[t := task'], stores := stores);
    UpdateKeepsLedgers(s, s', t, task');
    OwnersAfterUpdate(s.sealed, s.inFlightByCommit, s.tasks, t, task', 0);
    OwnersAfterUpdate(s.sealed, s.inFlightByCommit, s.tasks, t, task', 1);
    OwnersAfterUpdate(s.sealed, s.inFlightByCommit, s.tasks, t, task', 2);
    assert |Writes(task)| == n && |Writes(task')| == if reply.Prepared? then n + 1 else n;
  }

  lemma ExecutingFacts(s: System, t: nat)
    requires Inv(s) && t < |s.tasks| && s.tasks[t].pc.Executing?
    ensures Shaped(s.tasks[t]) && Writes(s.tasks[t]) == s.tasks[t].staged && |s.tasks[t].staged| <= 3 && IsLive(s.tasks[t])
  {
    hide Linked, ClaimsOk, LedgerOk, TasksBelieve, CallsBelieve, StoresOk, HandlesOk;
  }

  lemma AwaitingWrites(task: Task)
    requires task.pc.Executing?
    ensures Writes(task.(pc := Awaiting(Rejected))) == Writes(task)
  {
  }

  lemma RenewingShaped(task: Task, answer: Option<bool>)
    requires Shaped(task) && task.pc.Executing? && |task.staged| >= 3
    ensures Shaped(task.(pc := Renewing(answer))) && Writes(task.(pc := Renewing(answer))) == Writes(task)
  {
  }

  /** From an executing task to its next await. */
  lemma ProceedKeepsInv(s: System, t: nat, rejects: bool)
    requires Inv(s) && t < |s.tasks| && s.tasks[t].pc.Executing?
    ensures Inv(Proceed(s, t, rejects))
  {
    hide Inv, Fail, Stage, Shaped, Writes, SetTask;
    var task := s.tasks[t];
    var c := task.commit;
    ExecutingFacts(s, t);
    if c.signal in s.aborted {
      FailKeepsInv(s, t, NotCommitted(Unspecified));
    } else if |task.staged| < 3 {
      if IsExpired(s, c) {
        FailKeepsInv(s, t, ExpiredOutcome(c));
      } else if rejects {
        AwaitingShaped(task, Rejected);
        AwaitingWrites(task);
        RecordKeepsInv(s, t, task.(pc := Awaiting(Rejected)));
      } else {
        StageKeepsInv(s, t);
      }
    } else {
      var answer := if rejects then None else Some(Lease.Holds(s.lease, c.run, c.generation));
      RenewingShaped(task, answer);
      RecordKeepsInv(s, t, task.(pc := Renewing(answer)));
    }
  }

  lemma AcceptedShaped(task: Task)
    requires Shaped(task) && task.pc.Awaiting? && task.pc.reply.Prepared?
    ensures var task' := task.(staged := task.staged + [task.pc.reply.write], pc := Executing);
      Writes(task') == Writes(task) && Shaped(task') && task.pc.reply.write.commit == task.commit.id
  {
    assert Writes(task)[|task.staged|] == task.pc.reply.write;
  }

  lemma TaskShaped(s: System, t: nat)
    requires Inv(s) && t < |s.tasks|
    ensures Shaped(s.tasks[t])
  {
    hide Linked, ClaimsOk, LedgerOk, TasksBelieve, CallsBelieve, StoresOk, HandlesOk, Shaped;
  }

  /** The continuation that takes an acknowledgement counts the write it was handed. */
  lemma AcceptKeepsInv(s: System, t: nat)
    requires Inv(s) && t < |s.tasks| && s.tasks[t].pc.Awaiting? && s.tasks[t].pc.reply.Prepared?
    ensures var task := s.tasks[t];
      && task.pc.reply.write.commit == task.commit.id
      && Inv(SetTask(s, t, task.(staged := task.staged + [task.pc.reply.write], pc := Executing)))
  {
    hide Inv, Shaped, Writes, SetTask;
    var task := s.tasks[t];
    TaskShaped(s, t);
    AcceptedShaped(task);
    RecordKeepsInv(s, t, task.(staged := task.staged + [task.pc.reply.write], pc := Executing));
  }

  // ---------------------------------------------------------------- publication

  /** The owners of every participant are the same before and after the marker. */
  lemma OwnersAcrossMarker(sealed: map<CommitId, Commit>, inFlight: map<CommitId, InFlight>, tasks: seq<Task>,
                           t: nat, task: Task, part: nat)
    requires Linked(inFlight, tasks) && t < |tasks| && !tasks[t].pc.Done? && !task.pc.Done?
    requires task.commit == tasks[t].commit && task.commit.id !in sealed && part < |Writes(tasks[t])|
    ensures Linked(inFlight, tasks[t := task])
    ensures Owners(sealed[task.commit.id := task.commit], inFlight, tasks[t := task], part) == Owners(sealed, inFlight, tasks, part)
  {
    var tasks' := tasks[t := task];
    LinkedAfterUpdate(inFlight, tasks, t, task);
    OwnerOfTask(sealed, inFlight, tasks, t, part);
    SealingKeepsOwners(sealed, inFlight, tasks', task, part);
    SameOthers(inFlight, tasks, t, task);
    OtherOwners(sealed, inFlight, tasks, tasks', task.commit.id, part);
    hide Owners, Linked;
    SameMaps(Owners(sealed, inFlight, tasks, part), Owners(sealed, inFlight, tasks', part),
             Owners(sealed[task.commit.id := task.commit], inFlight, tasks', part), task.commit.id);
  }

  lemma SameOthers(inFlight: map<CommitId, InFlight>, tasks: seq<Task>, t: nat, task: Task)
    requires Linked(inFlight, tasks) && t < |tasks| && !tasks[t].pc.Done?
    ensures forall c | c in inFlight && c != tasks[t].commit.id :: tasks[t := task][inFlight[c].task] == tasks[inFlight[c].task]
  {
    forall c | c in inFlight && c != tasks[t].commit.id
      ensures inFlight[c].task != t
    {
      assert LinkedTo(inFlight, c, tasks[inFlight[c].task]);
    }
  }

  lemma SameMaps(a: OwnerMap, b: OwnerMap, c: OwnerMap, id: CommitId)
    requires forall k | k != id :: (k in b <==> k in a) && (k in a ==> b[k] == a[k])
    requires forall k | k != id :: (k in c <==> k in b) && (k in b ==> c[k] == b[k])
    requires id in a && id in c && a[id] == c[id]
    ensures c == a
  {
    assert forall k :: (k in c <==> k in a) && (k in a ==> c[k] == a[k]);
  }

  /** Moving a commit from the tasks to the sealed ones leaves every other owner alone. */
  lemma SealingKeepsOwners(sealed: map<CommitId, Commit>, inFlight: map<CommitId, InFlight>, tasks: seq<Task>, task: Task, part: nat)
    requires Linked(inFlight, tasks) && task.commit.id !in sealed
    ensures var sealed' := sealed[task.commit.id := task.commit];
      var owners, owners' := Owners(sealed, inFlight, tasks, part), Owners(sealed', inFlight, tasks, part);
      && task.commit.id in owners' && owners'[task.commit.id] == task.commit
      && forall c | c != task.commit.id :: (c in owners' <==> c in owners) && (c in owners ==> owners'[c] == owners[c])
  {
  }

  lemma LedgerAcrossMarker(published: set<CommitId>, finalized: map<RunFence, CommitId>, intents: map<CommitId, Intent>,
                           sealed: map<CommitId, Commit>, c: Commit)
    requires LedgerOk(published, finalized, intents, sealed)
    requires c.id !in intents && Holder(c) !in finalized
    ensures LedgerOk(published + {c.id}, finalized[Holder(c) := c.id], intents[c.id := Canonical(c)], sealed[c.id := c])
  {
    var finalized' := finalized[Holder(c) := c.id];
    var sealed' := sealed[c.id := c];
    forall k | k in sealed'
      ensures Holder(sealed'[k]) in finalized' && finalized'[Holder(sealed'[k])] == k
    {
    }
    forall h | h in finalized'
      ensures finalized'[h] in sealed' && Holder(sealed'[finalized'[h]]) == h
    {
    }
  }

  lemma BeliefsAcrossMarker(intents: map<CommitId, Intent>, tasks: seq<Task>, calls: seq<Call>, t: nat, task: Task)
    requires TasksBelieve(intents, tasks) && CallsBelieve(intents, tasks, calls)
    requires t < |tasks| && task.commit == tasks[t].commit && task.commit.id !in intents && task.pc == Retiring(Committed)
    requires forall u | 0 <= u < |tasks| && u != t && !tasks[u].pc.Done? :: tasks[u].commit.id != task.commit.id
    ensures var intents' := intents[task.commit.id := Canonical(task.commit)];
      TasksBelieve(intents', tasks[t := task]) && CallsBelieve(intents', tasks[t := task], calls)
  {
    var intents' := intents[task.commit.id := Canonical(task.commit)];
    var tasks' := tasks[t := task];
    forall u | 0 <= u < |tasks'|
      ensures TaskBelief(intents', tasks'[u])
    {
      assert u != t ==> TaskBelief(intents, tasks[u]);
    }
    forall i | 0 <= i < |calls|
      ensures CallBelief(intents', tasks', calls[i])
    {
      assert CallBelief(intents, tasks, calls[i]);
    }
  }

  lemma OtherTasksInFlight(inFlight: map<CommitId, InFlight>, tasks: seq<Task>, t: nat)
    requires Linked(inFlight, tasks) && t < |tasks| && !tasks[t].pc.Done?
    ensures forall u | 0 <= u < |tasks| && u != t && !tasks[u].pc.Done? :: tasks[u].commit.id != tasks[t].commit.id
    ensures tasks[t].commit.id in inFlight && inFlight[tasks[t].commit.id].task == t
  {
  }

  lemma PublishStores(s: System, t: nat)
    requires Inv(s) && t < |s.tasks| && s.tasks[t].pc.Renewing?
    ensures var c := s.tasks[t].commit;
      Recorded(s.stores, s.published + {c.id},
               Owners(s.sealed, s.inFlightByCommit, s.tasks, 0),
               Owners(s.sealed, s.inFlightByCommit, s.tasks, 1),
               Owners(s.sealed, s.inFlightByCommit, s.tasks, 2))
  {
    EventPublished(s.stores.events, s.published, Owners(s.sealed, s.inFlightByCommit, s.tasks, 1), s.tasks[t].commit.id);
  }

  lemma PublishKeepsLedgers(s: System, t: nat)
    requires Inv(s) && t < |s.tasks| && s.tasks[t].pc.Renewing? && Holder(s.tasks[t].commit) !in s.finalized
    ensures var s' := Publish(s, t);
      && Linked(s'.inFlightByCommit, s'.tasks)
      && ClaimsOk(s'.inFlightByGeneration, s'.inFlightByCommit, s'.tasks)
      && AllShaped(s'.tasks)
      && LedgerOk(s'.published, s'.finalized, s'.intents, s'.sealed)
      && TasksBelieve(s'.intents, s'.tasks)
      && CallsBelieve(s'.intents, s'.tasks, s'.calls)
      && HandlesOk(s'.tasks, s'.stores.events)
  {
    hide StoresOk;
    var task := s.tasks[t];
    var task' := task.(staged := [], pc := Retiring(Committed));
    assert task.commit.id !in s.intents by {
      assert TaskBelief(s.intents, task);
    }
    OtherTasksInFlight(s.inFlightByCommit, s.tasks, t);
    LinkedAfterUpdate(s.inFlightByCommit, s.tasks, t, task');
    ClaimsAfterUpdate(s.inFlightByGeneration, s.inFlightByCommit, s.tasks, t, task');
    assert Shaped(s.tasks[t]);
    ShapesAfterUpdate(s.tasks, t, task');
    hide Linked, ClaimsOk, AllShaped, LedgerOk, TasksBelieve, CallsBelieve, HandlesOk;
    LedgerAcrossMarker(s.published, s.finalized, s.intents, s.sealed, task.commit);
    BeliefsAcrossMarker(s.intents, s.tasks, s.calls, t, task');
    FailedHandles(s.tasks, s.stores.events, s.stores.events, t, task');
  }

  lemma PublishKeepsStores(s: System, t: nat)
    requires Inv(s) && t < |s.tasks| && s.tasks[t].pc.Renewing? && Linked(s.inFlightByCommit, Publish(s, t).tasks)
    ensures StoresOk(Publish(s, t))
  {
    hide Recorded;
    var task := s.tasks[t];
    var task' := task.(staged := [], pc := Retiring(Committed));
    assert TaskBelief(s.intents, task) && Shaped(task) && Writes(task) == task.staged;
    PublishStores(s, t);
    OwnersAcrossMarker(s.sealed, s.inFlightByCommit, s.tasks, t, task', 0);
    OwnersAcrossMarker(s.sealed, s.inFlightByCommit, s.tasks, t, task', 1);
    OwnersAcrossMarker(s.sealed, s.inFlightByCommit, s.tasks, t, task', 2);
  }

  /** The marker is set over a fully staged commit: every store already holds exactly its record. */
  lemma PublishKeepsInv(s: System, t: nat)
    requires Inv(s) && t < |s.tasks| && s.tasks[t].pc.Renewing? && Holder(s.tasks[t].commit) !in s.finalized
    ensures Inv(Publish(s, t))
  {
    PublishKeepsLedgers(s, t);
    PublishKeepsStores(s, t);
    hide StoresOk, HandlesOk, LedgerOk, TasksBelieve, CallsBelieve, AllShaped, Linked, ClaimsOk;
  }

  lemma RetakeKeepsInv(s: System, t: nat)
    requires Inv(s) && t < |s.tasks| && !s.tasks[t].pc.Done?
    ensures var c := s.tasks[t].commit;
      Inv(s.(inFlightByGeneration := s.inFlightByGeneration[Holder(c) := c.id]))
  {
    hide StoresOk, HandlesOk, LedgerOk, TasksBelieve, CallsBelieve, AllShaped;
    OtherTasksInFlight(s.inFlightByCommit, s.tasks, t);
    var c := s.tasks[t].commit;
    var s' := s.(inFlightByGeneration := s.inFlightByGeneration[Holder(c) := c.id]);
    assert ClaimsOk(s'.inFlightByGeneration, s.inFlightByCommit, s.tasks);
    StoresIgnoreClaims(s, s');
  }

  lemma StoresIgnoreClaims(s: System, s': System)
    requires Linked(s.inFlightByCommit, s.tasks) && StoresOk(s) && s' == s.(inFlightByGeneration := s'.inFlightByGeneration)
    ensures StoresOk(s')
  {
  }

  lemma GateKeepsInv(s: System, t: nat)
    requires Inv(s) && t < |s.tasks| && s.tasks[t].pc.Renewing?
    ensures Inv(Gate(s, t))
  {
    hide Recorded, HandlesOk, EventsOk, JournalOk, EvidenceOk, Owners, LedgerOk, TasksBelieve, CallsBelieve;
    var c := s.tasks[t].commit;
    assert Shaped(s.tasks[t]) && Writes(s.tasks[t]) == s.tasks[t].staged;
    if Holder(c) in s.finalized {
      FailKeepsInv(s, t, NotCommitted(AlreadyCommitted));
    } else if Holder(c) in s.inFlightByGeneration && s.inFlightByGeneration[Holder(c)] != c.id {
      FailKeepsInv(s, t, NotCommitted(AlreadyCommitted));
    } else {
      RetakeKeepsInv(s, t);
      var claimed := s.(inFlightByGeneration := s.inFlightByGeneration[Holder(c) := c.id]);
      if IsExpired(s, c) {
        FailKeepsInv(claimed, t, ExpiredOutcome(c));
      } else {
        PublishKeepsInv(claimed, t);
      }
    }
  }
}
