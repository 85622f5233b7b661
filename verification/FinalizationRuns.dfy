/** Whole runs of the coordinator: the invariant holds in every reachable state. */
module FinalizationRuns {
  import opened Options
  import opened Visibility
  import opened Fence
  import opened Lifecycle
  import opened Finalization
  import opened FinalizationStores
  import opened FinalizationProofs
  import Journal
  import EventSink
  import EvidenceSink
  import Lease

  // ------------------------------------------------------------------ retiring

  lemma LinkedAfterRetire(inFlight: map<CommitId, InFlight>, tasks: seq<Task>, t: nat, task: Task)
    requires Linked(inFlight, tasks) && t < |tasks| && !tasks[t].pc.Done? && task.pc.Done?
    ensures Linked(inFlight - {tasks[t].commit.id}, tasks[t := task])
  {
    var id := tasks[t].commit.id;
    var inFlight', tasks' := inFlight - {id}, tasks[t := task];
    forall c | c in inFlight'
      ensures inFlight'[c].task < |tasks'| && LinkedTo(inFlight', c, tasks'[inFlight'[c].task])
    {
      assert LinkedTo(inFlight, c, tasks[inFlight[c].task]);
    }
  }

  lemma ClaimsAfterRetire(claims: map<RunFence, CommitId>, claims': map<RunFence, CommitId>, inFlight: map<CommitId, InFlight>,
                          tasks: seq<Task>, t: nat, task: Task)
    requires ClaimsOk(claims, inFlight, tasks) && Linked(inFlight, tasks)
    requires t < |tasks| && !tasks[t].pc.Done? && task.commit == tasks[t].commit
    requires forall h | h in claims' :: h in claims && claims'[h] == claims[h]
    requires var h := Holder(task.commit); h in claims' ==> claims'[h] != task.commit.id
    ensures ClaimsOk(claims', inFlight - {task.commit.id}, tasks[t := task])
  {
    forall h | h in claims'
      ensures claims[h] != task.commit.id
    {
    }
  }

  lemma OwnersAfterRetire(sealed: map<CommitId, Commit>, inFlight: map<CommitId, InFlight>, tasks: seq<Task>,
                          t: nat, task: Task, part: nat)
    requires Linked(inFlight, tasks) && t < |tasks| && tasks[t].pc.Retiring? && task.pc.Done? && tasks[t].staged == []
    ensures Linked(inFlight - {tasks[t].commit.id}, tasks[t := task])
    ensures Owners(sealed, inFlight - {tasks[t].commit.id}, tasks[t := task], part) == Owners(sealed, inFlight, tasks, part)
  {
    var id := tasks[t].commit.id;
    var inFlight', tasks' := inFlight - {id}, tasks[t := task];
    LinkedAfterRetire(inFlight, tasks, t, task);
    OtherTasksInFlight(inFlight, tasks, t);
    assert Writes(tasks[t]) == [];
    var owners := Owners(sealed, inFlight, tasks, part);
    var owners' := Owners(sealed, inFlight', tasks', part);
    assert forall c | c in inFlight' :: tasks'[inFlight[c].task] == tasks[inFlight[c].task];
    forall c
      ensures (c in owners' <==> c in owners) && (c in owners ==> owners'[c] == owners[c])
    {
    }
  }

  lemma RetireKeepsStores(s: System, t: nat)
    requires Inv(s) && t < |s.tasks| && s.tasks[t].pc.Retiring?
    requires Linked(Retire(s, t).inFlightByCommit, Retire(s, t).tasks)
    ensures StoresOk(Retire(s, t))
  {
    hide Recorded;
    var task' := s.tasks[t].(pc := Done(s.tasks[t].pc.outcome));
    assert Shaped(s.tasks[t]);
    OwnersAfterRetire(s.sealed, s.inFlightByCommit, s.tasks, t, task', 0);
    OwnersAfterRetire(s.sealed, s.inFlightByCommit, s.tasks, t, task', 1);
    OwnersAfterRetire(s.sealed, s.inFlightByCommit, s.tasks, t, task', 2);
  }

  lemma RetireKeepsInv(s: System, t: nat)
    requires Inv(s) && t < |s.tasks| && s.tasks[t].pc.Retiring?
    ensures Inv(Retire(s, t))
  {
    hide StoresOk, LedgerOk;
    var task := s.tasks[t];
    var task' := task.(pc := Done(task.pc.outcome));
    var s' := Retire(s, t);
    assert Shaped(task) && TaskBelief(s.intents, task);
    LinkedAfterRetire(s.inFlightByCommit, s.tasks, t, task');
    ClaimsAfterRetire(s.inFlightByGeneration, s'.inFlightByGeneration, s.inFlightByCommit, s.tasks, t, task');
    ShapesAfterUpdate(s.tasks, t, task');
    BeliefsAfterUpdate(s.intents, s.tasks, s.calls, t, task');
    FailedHandles(s.tasks, s.stores.events, s.stores.events, t, task');
    RetireKeepsStores(s, t);
    hide Linked, ClaimsOk, AllShaped, TasksBelieve, CallsBelieve, HandlesOk;
  }

  // ------------------------------------------------------------------- resuming

  lemma ResumeKeepsInv(s: System, t: nat, rejects: bool)
    requires Inv(s) && t < |s.tasks|
    ensures Inv(Resume(s, t, rejects))
  {
    hide StoresOk, LedgerOk, HandlesOk, CallsBelieve, TasksBelieve, Linked, ClaimsOk;
    var task := s.tasks[t];
    assert Shaped(task);
    match task.pc
    case Executing =>
    case Awaiting(Rejected) => FailKeepsInv(s, t, NotCommitted(Unspecified));
    case Awaiting(Declined(reason)) => FailKeepsInv(s, t, NotCommitted(reason));
    case Awaiting(Prepared(write)) =>
      AcceptKeepsInv(s, t);
      ProceedKeepsInv(SetTask(s, t, task.(staged := task.staged + [write], pc := Executing)), t, rejects);
    case Renewing(answer) =>
      assert Writes(task) == task.staged;
      if answer.None? {
        FailKeepsInv(s, t, NotCommitted(Unspecified));
      } else if !answer.value {
        FailKeepsInv(s, t, NotCommitted(Stale));
      } else if task.commit.signal in s.aborted {
        FailKeepsInv(s, t, NotCommitted(Unspecified));
      } else {
        GateKeepsInv(s, t);
      }
    case Retiring(_) => RetireKeepsInv(s, t);
    case Done(_) =>
  }

  // ------------------------------------------------------------------- entering

  lemma LinkedAfterOpen(inFlight: map<CommitId, InFlight>, tasks: seq<Task>, c: Commit)
    requires Linked(inFlight, tasks) && c.id !in inFlight
    ensures Linked(inFlight[c.id := InFlight(Canonical(c), |tasks|)], tasks + [Task(c, [], Executing)])
  {
    var inFlight' := inFlight[c.id := InFlight(Canonical(c), |tasks|)];
    var tasks' := tasks + [Task(c, [], Executing)];
    forall k | k in inFlight'
      ensures inFlight'[k].task < |tasks'| && LinkedTo(inFlight', k, tasks'[inFlight'[k].task])
    {
      if k != c.id {
        assert LinkedTo(inFlight, k, tasks[inFlight[k].task]);
      }
    }
  }

  lemma OwnerAfterOpen(sealed: map<CommitId, Commit>, inFlight: map<CommitId, InFlight>, tasks: seq<Task>, c: Commit, part: nat, k: CommitId)
    requires Linked(inFlight, tasks) && c.id !in inFlight
    requires Linked(inFlight[c.id := InFlight(Canonical(c), |tasks|)], tasks + [Task(c, [], Executing)])
    ensures var owners := Owners(sealed, inFlight, tasks, part);
      var owners' := Owners(sealed, inFlight[c.id := InFlight(Canonical(c), |tasks|)], tasks + [Task(c, [], Executing)], part);
      (k in owners' <==> k in owners) && (k in owners ==> owners'[k] == owners[k])
  {
    var tasks' := tasks + [Task(c, [], Executing)];
    assert Writes(tasks'[|tasks|]) == [];
    assert k in inFlight ==> tasks'[inFlight[k].task] == tasks[inFlight[k].task];
  }

  lemma OwnersAfterOpen(sealed: map<CommitId, Commit>, inFlight: map<CommitId, InFlight>, tasks: seq<Task>, c: Commit, part: nat)
    requires Linked(inFlight, tasks) && c.id !in inFlight
    ensures var inFlight', tasks' := inFlight[c.id := InFlight(Canonical(c), |tasks|)], tasks + [Task(c, [], Executing)];
      Linked(inFlight', tasks') && Owners(sealed, inFlight', tasks', part) == Owners(sealed, inFlight, tasks, part)
  {
    hide Linked, Owners, Canonical;
    LinkedAfterOpen(inFlight, tasks, c);
    var inFlight', tasks' := inFlight[c.id := InFlight(Canonical(c), |tasks|)], tasks + [Task(c, [], Executing)];
    var owners := Owners(sealed, inFlight, tasks, part);
    var owners' := Owners(sealed, inFlight', tasks', part);
    forall k
      ensures (k in owners' <==> k in owners) && (k in owners ==> owners'[k] == owners[k])
    {
      OwnerAfterOpen(sealed, inFlight, tasks, c, part, k);
    }
  }

  lemma NothingStoredYet(s: System, id: CommitId)
    requires Inv(s) && id !in s.published && id !in s.inFlightByCommit
    ensures forall run, row | EventSink.Stored(s.stores.events, run, row) :: row.commit != Some(id)
  {
  }

  lemma HandlesAfterOpen(tasks: seq<Task>, e: EventSink.Sink, task: Task)
    requires HandlesOk(tasks, e)
    requires forall run, row | EventSink.Stored(e, run, row) :: row.commit != Some(task.commit.id)
    ensures HandlesOk(tasks + [task], e)
  {
    var tasks' := tasks + [task];
    forall u, run, row | 0 <= u < |tasks'| && IsLive(tasks'[u]) && EventSink.Stored(e, run, row)
        && row.commit == Some(tasks'[u].commit.id)
      ensures CanRelease(tasks'[u], row)
    {
      assert CanRelease(tasks[u], row);
    }
  }

  lemma BeliefsAfterOpen(intents: map<CommitId, Intent>, tasks: seq<Task>, calls: seq<Call>, c: Commit)
    requires TasksBelieve(intents, tasks) && CallsBelieve(intents, tasks, calls) && c.id !in intents
    ensures var tasks' := tasks + [Task(c, [], Executing)];
      TasksBelieve(intents, tasks') && CallsBelieve(intents, tasks', calls + [Joined(c, |tasks|)])
  {
    var tasks' := tasks + [Task(c, [], Executing)];
    var calls' := calls + [Joined(c, |tasks|)];
    forall i | 0 <= i < |calls'|
      ensures CallBelief(intents, tasks', calls'[i])
    {
      assert i < |calls| ==> CallBelief(intents, tasks, calls[i]);
    }
  }

  lemma OpenKeepsStores(s: System, c: Commit)
    requires Inv(s) && c.id !in s.inFlightByCommit && Linked(Open(s, c).inFlightByCommit, Open(s, c).tasks)
    ensures StoresOk(Open(s, c))
  {
    hide Recorded;
    OwnersAfterOpen(s.sealed, s.inFlightByCommit, s.tasks, c, 0);
    OwnersAfterOpen(s.sealed, s.inFlightByCommit, s.tasks, c, 1);
    OwnersAfterOpen(s.sealed, s.inFlightByCommit, s.tasks, c, 2);
  }

  lemma ClaimsAfterOpen(claims: map<RunFence, CommitId>, inFlight: map<CommitId, InFlight>, tasks: seq<Task>, c: Commit)
    requires ClaimsOk(claims, inFlight, tasks) && c.id !in inFlight
    ensures var inFlight' := inFlight[c.id := InFlight(Canonical(c), |tasks|)];
      var tasks' := tasks + [Task(c, [], Executing)];
      ClaimsOk(claims, inFlight', tasks') && ClaimsOk(claims[Holder(c) := c.id], inFlight', tasks')
  {
  }

  lemma OpenKeepsInv(s: System, c: Commit)
    requires Inv(s) && c.id !in s.inFlightByCommit && c.id !in s.published
    ensures Inv(Open(s, c))
  {
    hide StoresOk;
    var task := Task(c, [], Executing);
    LinkedAfterOpen(s.inFlightByCommit, s.tasks, c);
    ClaimsAfterOpen(s.inFlightByGeneration, s.inFlightByCommit, s.tasks, c);
    assert Shaped(task);
    assert AllShaped(s.tasks + [task]);
    assert c.id !in s.intents;
    BeliefsAfterOpen(s.intents, s.tasks, s.calls, c);
    NothingStoredYet(s, c.id);
    HandlesAfterOpen(s.tasks, s.stores.events, task);
    hide Linked, ClaimsOk, AllShaped, LedgerOk, TasksBelieve, CallsBelieve, HandlesOk;
    OpenKeepsStores(s, c);
  }

  /** Recording one more call leaves everything but the call log alone. */
  lemma CallKeepsInv(s: System, call: Call)
    requires Inv(s) && CallBelief(s.intents, s.tasks, call)
    ensures Inv(s.(calls := s.calls + [call]))
  {
    hide StoresOk, LedgerOk, TasksBelieve, HandlesOk, Linked, ClaimsOk, AllShaped;
    var calls' := s.calls + [call];
    assert CallsBelieve(s.intents, s.tasks, calls');
    SameStores(s, s.(calls := calls'));
  }

  lemma SameStores(s: System, s': System)
    requires Linked(s.inFlightByCommit, s.tasks) && StoresOk(s)
    requires s'.stores == s.stores && s'.published == s.published && s'.sealed == s.sealed
    requires s'.inFlightByCommit == s.inFlightByCommit && s'.tasks == s.tasks
    ensures StoresOk(s')
  {
    hide Recorded, Owners;
  }

  lemma EnterKeepsInv(s: System, c: Commit, rejects: bool)
    requires Inv(s)
    ensures Inv(Enter(s, c, rejects))
  {
    hide StoresOk, HandlesOk, TasksBelieve, AllShaped;
    if c.id in s.published {
      CallKeepsInv(s, Answered(c, if s.intents[c.id] == Canonical(c) then Committed else NotCommitted(AlreadyCommitted)));
    } else if Holder(c) in s.finalized {
      CallKeepsInv(s, Answered(c, NotCommitted(AlreadyCommitted)));
    } else if c.id in s.inFlightByCommit {
      var f := s.inFlightByCommit[c.id];
      assert LinkedTo(s.inFlightByCommit, c.id, s.tasks[f.task]);
      if f.canonical == Canonical(c) {
        CallKeepsInv(s, Joined(c, f.task));
      } else {
        CallKeepsInv(s, Answered(c, NotCommitted(Conflicting)));
      }
    } else {
      OpenKeepsInv(s, c);
      ProceedKeepsInv(Open(s, c), |s.tasks|, rejects);
    }
  }

  // ---------------------------------------------------------- everyone else's steps

  lemma EmittedKeepsInv(s: System, fence: RunFence, event: EventSink.Event)
    requires Inv(s)
    ensures Inv(Step(s, Emitted(fence, event)))
  {
    hide LedgerOk, TasksBelieve, CallsBelieve, AllShaped, Linked, ClaimsOk;
    EventEmitted(s.stores.events, s.published, Owners(s.sealed, s.inFlightByCommit, s.tasks, 1), fence, event);
    hide JournalOk, EvidenceOk, EventsOk, Owners;
  }

  lemma AppendedKeepsInv(s: System, fence: RunFence, entry: Journal.EntryId, fact: Journal.Fact)
    requires Inv(s)
    ensures Inv(Step(s, Appended(fence, entry, fact)))
  {
    hide LedgerOk, TasksBelieve, CallsBelieve, AllShaped, Linked, ClaimsOk, HandlesOk;
    JournalAppended(s.stores.journal, Owners(s.sealed, s.inFlightByCommit, s.tasks, 0), fence, entry, fact);
    hide JournalOk, EvidenceOk, EventsOk, Owners;
  }

  lemma WroteKeepsInv(s: System, fence: RunFence, record: string, content: EvidenceSink.Record)
    requires Inv(s)
    ensures Inv(Step(s, Wrote(fence, record, content)))
  {
    hide LedgerOk, TasksBelieve, CallsBelieve, AllShaped, Linked, ClaimsOk, HandlesOk;
    EvidenceWritten(s.stores.evidence, Owners(s.sealed, s.inFlightByCommit, s.tasks, 2), fence, record, content);
    hide JournalOk, EvidenceOk, EventsOk, Owners;
  }

  lemma OutsideKeepsInv(s: System, action: Action)
    requires Inv(s) && (action.Leased? || action.Aborted? || action.ClockRead?)
    ensures Inv(Step(s, action))
  {
    hide LedgerOk, TasksBelieve, CallsBelieve, AllShaped, Linked, ClaimsOk, HandlesOk, StoresOk;
    SameStores(s, Step(s, action));
  }

  lemma StepKeepsInv(s: System, action: Action)
    requires Inv(s)
    ensures Inv(Step(s, action))
  {
    hide Inv;
    match action
    case CommitCalled(c, rejects) => EnterKeepsInv(s, c, rejects);
    case Resumed(t, rejects) => if t < |s.tasks| { ResumeKeepsInv(s, t, rejects); }
    case Emitted(fence, event) => EmittedKeepsInv(s, fence, event);
    case Appended(fence, entry, fact) => AppendedKeepsInv(s, fence, entry, fact);
    case Wrote(fence, record, content) => WroteKeepsInv(s, fence, record, content);
    case Leased(_) => OutsideKeepsInv(s, action);
    case Aborted(_) => OutsideKeepsInv(s, action);
    case ClockRead(_) => OutsideKeepsInv(s, action);
  }

  lemma InitiallyInv()
    ensures Inv(INITIAL)
  {
    assert forall run :: Journal.PageOf(Journal.EMPTY, run) == Journal.BLANK;
  }

  /** Every reachable state of the coordinator satisfies its invariant. */
  lemma {:induction false} Reachable(actions: seq<Action>)
    ensures Inv(Play(actions))
  {
    if actions == [] {
      InitiallyInv();
    } else {
      var last := |actions| - 1;
      Reachable(actions[..last]);
      StepKeepsInv(Play(actions[..last]), actions[last]);
    }
  }
}
