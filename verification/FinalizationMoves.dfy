/** What the coordinator's steps can do to the stores and ledgers that others look at. */
module FinalizationMoves {
  import opened Options
  import opened Visibility
  import opened Fence
  import opened Lifecycle
  import opened Finalization
  import opened FinalizationStores
  import opened FinalizationProofs
  import opened FinalizationTheorems
  import Journal
  import EventSink
  import EvidenceSink
  import Lease

  /** The journal is untouched, or one tail was staged, or one was abandoned. */
  ghost predicate JournalMove(j: Journal.JournalState, j': Journal.JournalState) {
    || j' == j
    || (exists fence, commit, entries :: j' == Journal.StageTransitions(j, fence, commit, entries).1)
    || (exists run, commit :: j' == Journal.AbandonTail(j, run, commit))
  }

  ghost predicate StoresMove(st: Stores, st': Stores) {
    JournalMove(st.journal, st'.journal) && st'.evidence.landed == st.evidence.landed
  }

  ghost predicate Shrinks(inFlight: map<CommitId, InFlight>, inFlight': map<CommitId, InFlight>) {
    forall c | c in inFlight' :: c in inFlight && inFlight'[c] == inFlight[c]
  }

  lemma AbandonMoves(st: Stores, published: set<CommitId>, c: Commit, staged: seq<StagedWrite>)
    requires StagedShape(c, staged)
    ensures StoresMove(st, AbandonAll(st, published, c, staged))
  {
    AbandonAllByStore(st, published, c, staged);
  }

  lemma StageMoves(st: Stores, published: set<CommitId>, c: Commit, index: nat)
    ensures StoresMove(st, Stage(st, published, c, index).1)
  {
    hide EventSink.StageEmit;
  }

  lemma FailMoves(s: System, t: nat, outcome: Outcome)
    requires t < |s.tasks| && StagedShape(s.tasks[t].commit, s.tasks[t].staged)
    ensures StoresMove(s.stores, Fail(s, t, outcome).stores)
    ensures Fail(s, t, outcome).inFlightByCommit == s.inFlightByCommit
  {
    AbandonMoves(s.stores, s.published, s.tasks[t].commit, s.tasks[t].staged);
    hide StoresMove, AbandonAll;
  }

  /** Stores moved at most by one tail or bundle, and the in-flight ledger not at all. */
  ghost predicate Contained(s: System, s': System) {
    StoresMove(s.stores, s'.stores) && s'.inFlightByCommit == s.inFlightByCommit
  }

  lemma FailContained(s: System, t: nat, outcome: Outcome)
    requires t < |s.tasks| && StagedShape(s.tasks[t].commit, s.tasks[t].staged)
    ensures Contained(s, Fail(s, t, outcome))
  {
    hide Fail, StoresMove;
    FailMoves(s, t, outcome);
  }

  lemma UpdateContained(s: System, t: nat, task: Task)
    requires t < |s.tasks|
    ensures Contained(s, SetTask(s, t, task))
  {
    assert JournalMove(s.stores.journal, s.stores.journal);
  }

  lemma StageContained(s: System, t: nat)
    requires t < |s.tasks|
    ensures var (reply, stores) := Stage(s.stores, s.published, s.tasks[t].commit, |s.tasks[t].staged|);
      Contained(s, SetTask(s, t, s.tasks[t].(pc := Awaiting(reply))).(stores := stores))
  {
    hide Stage, StoresMove;
    StageMoves(s.stores, s.published, s.tasks[t].commit, |s.tasks[t].staged|);
  }

  lemma ProceedContained(s: System, t: nat, rejects: bool)
    requires t < |s.tasks| && StagedShape(s.tasks[t].commit, s.tasks[t].staged)
    ensures Contained(s, Proceed(s, t, rejects))
  {
    hide Contained, Fail, Stage, StagedShape, SetTask;
    var task := s.tasks[t];
    var c := task.commit;
    if c.signal in s.aborted {
      FailContained(s, t, NotCommitted(Unspecified));
    } else if |task.staged| < 3 {
      FailContained(s, t, ExpiredOutcome(c));
      UpdateContained(s, t, task.(pc := Awaiting(Rejected)));
      StageContained(s, t);
    } else {
      UpdateContained(s, t, task.(pc := Renewing(if rejects then None else Some(Lease.Holds(s.lease, c.run, c.generation)))));
    }
  }

  lemma ProceedMoves(s: System, t: nat, rejects: bool)
    requires t < |s.tasks| && StagedShape(s.tasks[t].commit, s.tasks[t].staged)
    ensures StoresMove(s.stores, Proceed(s, t, rejects).stores)
    ensures Proceed(s, t, rejects).inFlightByCommit == s.inFlightByCommit
  {
    hide StoresMove, Proceed, StagedShape;
    ProceedContained(s, t, rejects);
  }

  lemma GateMoves(s: System, t: nat)
    requires t < |s.tasks| && StagedShape(s.tasks[t].commit, s.tasks[t].staged)
    ensures StoresMove(s.stores, Gate(s, t).stores)
    ensures Gate(s, t).inFlightByCommit == s.inFlightByCommit
  {
    var c := s.tasks[t].commit;
    var claimed := s.(inFlightByGeneration := s.inFlightByGeneration[Holder(c) := c.id]);
    assert StoresMove(s.stores, s.stores);
    FailMoves(s, t, NotCommitted(AlreadyCommitted));
    FailMoves(claimed, t, ExpiredOutcome(c));
    hide StoresMove, Fail, StagedShape;
  }

  lemma AcceptMoves(s: System, t: nat, rejects: bool)
    requires t < |s.tasks| && Shaped(s.tasks[t]) && s.tasks[t].pc.Awaiting? && s.tasks[t].pc.reply.Prepared?
    ensures var s' := Resume(s, t, rejects);
      StoresMove(s.stores, s'.stores) && s'.inFlightByCommit == s.inFlightByCommit
  {
    var task := s.tasks[t];
    ShapeGivesHandles(task);
    var s1 := SetTask(s, t, task.(staged := Writes(task), pc := Executing));
    assert s1.tasks[t].staged == task.staged + [task.pc.reply.write];
    FailMoves(s1, t, NotCommitted(Unspecified));
    ProceedMoves(s1, t, rejects);
    hide StoresMove, Fail, Proceed, StagedShape;
  }

  lemma ResumeMoves(s: System, t: nat, rejects: bool)
    requires t < |s.tasks| && Shaped(s.tasks[t])
    ensures var s' := Resume(s, t, rejects);
      StoresMove(s.stores, s'.stores) && Shrinks(s.inFlightByCommit, s'.inFlightByCommit)
  {
    var task := s.tasks[t];
    assert StoresMove(s.stores, s.stores);
    ShapeGivesHandles(task);
    assert (task.pc.Awaiting? && task.pc.reply.Prepared?) || Writes(task) == task.staged;
    hide StoresMove, Fail, Proceed, Gate, StagedShape, Writes;
    match task.pc
    case Executing =>
    case Awaiting(Rejected) => FailMoves(s, t, NotCommitted(Unspecified));
    case Awaiting(Declined(reason)) => FailMoves(s, t, NotCommitted(reason));
    case Awaiting(Prepared(_)) => AcceptMoves(s, t, rejects);
    case Renewing(_) =>
      FailMoves(s, t, NotCommitted(Unspecified));
      FailMoves(s, t, NotCommitted(Stale));
      GateMoves(s, t);
    case Retiring(_) =>
    case Done(_) =>
  }

  /** A call either leaves the in-flight ledger alone or takes one free identity. */
  ghost predicate EntryMove(s: System, s': System, c: Commit) {
    && StoresMove(s.stores, s'.stores)
    && (|| (s'.inFlightByCommit == s.inFlightByCommit && s'.tasks == s.tasks)
        || (c.id !in s.inFlightByCommit && c.id !in s.published
            && s'.inFlightByCommit == s.inFlightByCommit[c.id := InFlight(Canonical(c), |s.tasks|)]
            && |s'.tasks| == |s.tasks| + 1 && s'.tasks[..|s.tasks|] == s.tasks && s'.tasks[|s.tasks|].commit == c))
  }

  lemma OpenMoves(s: System, c: Commit, rejects: bool)
    requires c.id !in s.inFlightByCommit && c.id !in s.published
    ensures EntryMove(s, Proceed(Open(s, c), |s.tasks|, rejects), c)
  {
    var open := Open(s, c);
    assert open.tasks[|s.tasks|] == Task(c, [], Executing) && open.tasks[..|s.tasks|] == s.tasks;
    ProceedMoves(open, |s.tasks|, rejects);
    ProceedEffect(open, |s.tasks|, rejects);
    hide StoresMove, Proceed;
    assert Proceed(open, |s.tasks|, rejects).tasks[..|s.tasks|] == s.tasks;
  }

  lemma LogMoves(s: System, call: Call)
    ensures EntryMove(s, s.(calls := s.calls + [call]), call.commit)
  {
  }

  lemma EnterMoves(s: System, c: Commit, rejects: bool)
    ensures EntryMove(s, Enter(s, c, rejects), c)
  {
    if c.id !in s.inFlightByCommit && c.id !in s.published {
      OpenMoves(s, c, rejects);
    }
    forall call: Call | call.commit == c
      ensures EntryMove(s, s.(calls := s.calls + [call]), c)
    {
      LogMoves(s, call);
    }
    hide EntryMove, Proceed, Open;
  }

  /** The commit whose record is stored, or may come to be stored, under an identity. */
  function OwnerAmong(sealed: map<CommitId, Commit>, inFlight: map<CommitId, InFlight>, tasks: seq<Task>, id: CommitId): Option<Commit> {
    if id in sealed then Some(sealed[id])
    else if id in inFlight && inFlight[id].task < |tasks| then Some(tasks[inFlight[id].task].commit)
    else None
  }

  function OwnerOf(s: System, id: CommitId): Option<Commit> {
    OwnerAmong(s.sealed, s.inFlightByCommit, s.tasks, id)
  }

  /** Owners stay, go, or arrive with the call that brings them. */
  ghost predicate OwnersMove(s: System, s': System, action: Action) {
    forall id :: OwnerOf(s', id) == OwnerOf(s, id) || OwnerOf(s', id).None?
      || (action.CommitCalled? && id == action.commit.id && OwnerOf(s, id).None? && OwnerOf(s', id) == Some(action.commit))
  }

  lemma OwnersAfterResume(s: System, s': System, c: Commit, action: Action)
    requires Shrinks(s.inFlightByCommit, s'.inFlightByCommit) && |s'.tasks| == |s.tasks|
    requires forall t | 0 <= t < |s.tasks| :: s'.tasks[t].commit == s.tasks[t].commit
    requires s'.sealed == s.sealed
             || (c.id !in s.sealed && s'.sealed == s.sealed[c.id := c] && OwnerOf(s, c.id) == Some(c))
    ensures OwnersMove(s, s', action)
  {
    forall id
      ensures OwnerOf(s', id) == OwnerOf(s, id) || OwnerOf(s', id).None?
    {
    }
    hide OwnerOf;
  }

  lemma SealedAfterResume(s: System, t: nat, rejects: bool)
    requires Inv(s) && t < |s.tasks|
    ensures var c := s.tasks[t].commit;
      var s' := Resume(s, t, rejects);
      && |s'.tasks| == |s.tasks| && (forall u | 0 <= u < |s.tasks| :: s'.tasks[u].commit == s.tasks[u].commit)
      && (s'.sealed == s.sealed || (c.id !in s.sealed && s'.sealed == s.sealed[c.id := c] && OwnerOf(s, c.id) == Some(c)))
  {
    hide Inv, Resume, Shaped, TaskBelief, OwnerAmong;
    TaskFacts(s, t);
    ResumeEffect(s, t, rejects);
    SealedIsPublished(s);
    if !Quiet(s, Resume(s, t, rejects)) {
      PublishingTask(s, t);
    }
  }

  lemma ResumeOwners(s: System, t: nat, rejects: bool)
    requires Inv(s) && t < |s.tasks|
    ensures OwnersMove(s, Resume(s, t, rejects), Resumed(t, rejects))
  {
    hide *;
    TaskFacts(s, t);
    ResumeMoves(s, t, rejects);
    SealedAfterResume(s, t, rejects);
    OwnersAfterResume(s, Resume(s, t, rejects), s.tasks[t].commit, Resumed(t, rejects));
  }

  lemma PublishingTask(s: System, t: nat)
    requires Inv(s) && MayPublish(s, t)
    ensures OwnerOf(s, s.tasks[t].commit.id) == Some(s.tasks[t].commit)
  {
    hide StoresOk, HandlesOk, CallsBelieve, TasksBelieve, AllShaped, ClaimsOk;
    OtherTasksInFlight(s.inFlightByCommit, s.tasks, t);
  }

  lemma OwnersAfterEntry(sealed: map<CommitId, Commit>, inFlight: map<CommitId, InFlight>, tasks: seq<Task>, task: Task)
    requires task.commit.id !in inFlight && task.commit.id !in sealed
    requires forall id | id in inFlight :: inFlight[id].task < |tasks|
    ensures var c := task.commit;
      var inFlight', tasks' := inFlight[c.id := InFlight(Canonical(c), |tasks|)], tasks + [task];
      && OwnerAmong(sealed, inFlight, tasks, c.id).None? && OwnerAmong(sealed, inFlight', tasks', c.id) == Some(c)
      && (forall id | id != c.id :: OwnerAmong(sealed, inFlight', tasks', id) == OwnerAmong(sealed, inFlight, tasks, id))
  {
  }

  /** A call's effect on owners, from its effect on the ledgers. */
  lemma OwnersAcrossCall(s: System, s': System, c: Commit, rejects: bool)
    requires EntryMove(s, s', c) && s'.sealed == s.sealed && s.sealed.Keys == s.published
    requires forall id | id in s.inFlightByCommit :: s.inFlightByCommit[id].task < |s.tasks|
    ensures OwnersMove(s, s', CommitCalled(c, rejects))
  {
    hide StoresMove, OwnerAmong, Canonical;
    if s'.tasks != s.tasks {
      assert s'.tasks == s.tasks + [s'.tasks[|s.tasks|]];
      OwnersAfterEntry(s.sealed, s.inFlightByCommit, s.tasks, s'.tasks[|s.tasks|]);
    }
  }

  lemma EnterSeals(s: System, c: Commit, rejects: bool)
    ensures Enter(s, c, rejects).sealed == s.sealed
  {
    hide Enter;
    EnterEffect(s, c, rejects);
  }

  lemma EnterOwners(s: System, c: Commit, rejects: bool)
    requires Inv(s)
    ensures OwnersMove(s, Enter(s, c, rejects), CommitCalled(c, rejects))
  {
    hide Inv, Enter, EntryMove, OwnersMove;
    EnterSeals(s, c, rejects);
    EnterMoves(s, c, rejects);
    SealedIsPublished(s);
    InFlightTasksExist(s);
    OwnersAcrossCall(s, Enter(s, c, rejects), c, rejects);
  }

  lemma InFlightTasksExist(s: System)
    requires Inv(s)
    ensures forall id | id in s.inFlightByCommit :: s.inFlightByCommit[id].task < |s.tasks|
  {
    hide StoresOk, HandlesOk, CallsBelieve, TasksBelieve, AllShaped, ClaimsOk, LedgerOk;
  }

  /** Everything one step can do that other components notice. */
  lemma StepMoves(s: System, action: Action)
    requires Inv(s)
    ensures var s' := Step(s, action);
      && (if action.Appended?
          then s'.stores.journal == Journal.Append(s.stores.journal, action.fence, action.entry, action.fact).1
          else JournalMove(s.stores.journal, s'.stores.journal))
      && (forall id | id in s.stores.evidence.landed ::
            id in s'.stores.evidence.landed && s'.stores.evidence.landed[id] == s.stores.evidence.landed[id])
      && OwnersMove(s, s', action)
  {
    hide Inv, Enter, Resume;
    match action
    case CommitCalled(c, rejects) =>
      EnterOwners(s, c, rejects);
      EnterMoves(s, c, rejects);
    case Resumed(t, rejects) =>
      if t < |s.tasks| {
        ResumeOwners(s, t, rejects);
        TaskFacts(s, t);
        ResumeMoves(s, t, rejects);
      }
    case _ =>
  }
}
