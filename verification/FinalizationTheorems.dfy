/** What every interleaving of commits, emits, appends, writes and lease activity guarantees. */
module FinalizationTheorems {
  import opened Options
  import opened Visibility
  import opened Fence
  import opened Lifecycle
  import opened Finalization
  import opened FinalizationProofs
  import opened FinalizationRuns
  import Journal
  import EventSink
  import EvidenceSink
  import Lease

  // --------------------------------------------------------------------- atomicity

  function TailUnder(s: System, run: RunId, id: CommitId): seq<TransitionEntry> {
    Journal.Under(Journal.PageOf(s.stores.journal, run).transitions, id)
  }

  /** Every part of the commit sealed under `id` is durable, in exactly one copy. */
  ghost predicate WhollyVisible(s: System, id: CommitId)
    requires id in s.sealed
  {
    var k := s.sealed[id];
    && k.id == id && id in s.published
    && (forall run :: TailUnder(s, run, id) == if run == k.run then k.transitions else [])
    && EvidenceSink.Under(s.stores.evidence.writes, id) == [SealOf(k, id)]
    && EventSink.IsDurable(s.stores.events, s.published, k.run, k.event)
  }

  /** No reader of any store can tell that anything was staged under `id`. */
  ghost predicate WhollyInvisible(s: System, id: CommitId) {
    && (forall run, other :: Journal.Read(Journal.AbandonTail(s.stores.journal, run, id), s.published, other)
                             == Journal.Read(s.stores.journal, s.published, other))
    && (forall run, row | EventSink.Seen(s.stores.events, s.published, run, row) :: row.commit != Some(id))
    && (forall run :: EvidenceSink.Readable(EvidenceSink.AbandonWrite(s.stores.evidence, id).writes, s.published, run)
                      == EvidenceSink.Readable(s.stores.evidence.writes, s.published, run))
  }

  lemma OwnedBySealed(s: System, id: CommitId, part: nat)
    requires Linked(s.inFlightByCommit, s.tasks) && id in s.sealed
    ensures var owners := Owners(s.sealed, s.inFlightByCommit, s.tasks, part); id in owners && owners[id] == s.sealed[id]
  {
    hide Linked;
  }

  lemma SealedIsStored(st: Stores, published: set<CommitId>, k: Commit, o0: OwnerMap, o1: OwnerMap, o2: OwnerMap)
    requires Recorded(st, published, o0, o1, o2) && k.id in published
    requires k.id in o0 && o0[k.id] == k && k.id in o1 && o1[k.id] == k && k.id in o2 && o2[k.id] == k
    ensures forall run :: Journal.Under(Journal.PageOf(st.journal, run).transitions, k.id) == if run == k.run then k.transitions else []
    ensures EvidenceSink.Under(st.evidence.writes, k.id) == [SealOf(k, k.id)]
    ensures EventSink.IsDurable(st.events, published, k.run, k.event)
  {
    hide EventSink.Valid;
    assert Carried(st.events, published, k.id, k);
    assert forall row | EventSink.Stored(st.events, k.run, row) && row.commit == Some(k.id) ::
             EventSink.Seen(st.events, published, k.run, row);
  }

  lemma SealedIsVisible(s: System, id: CommitId)
    requires Inv(s) && id in s.published
    ensures id in s.sealed && WhollyVisible(s, id)
  {
    hide Recorded, Owners, HandlesOk, CallsBelieve, TasksBelieve, AllShaped, Linked, ClaimsOk;
    OwnedBySealed(s, id, 0);
    OwnedBySealed(s, id, 1);
    OwnedBySealed(s, id, 2);
    SealedIsStored(s.stores, s.published, s.sealed[id],
                   Owners(s.sealed, s.inFlightByCommit, s.tasks, 0),
                   Owners(s.sealed, s.inFlightByCommit, s.tasks, 1),
                   Owners(s.sealed, s.inFlightByCommit, s.tasks, 2));
  }

  lemma StagedIsInvisible(s: System, id: CommitId)
    requires id !in s.published
    ensures WhollyInvisible(s, id)
  {
    forall run, other
      ensures Journal.Read(Journal.AbandonTail(s.stores.journal, run, id), s.published, other)
           == Journal.Read(s.stores.journal, s.published, other)
    {
      Journal.AbandoningIsInvisible(s.stores.journal, s.published, run, id, other);
    }
    forall run {
      EvidenceSink.DroppingUnreadable(s.stores.evidence.writes, s.published, id, run);
    }
  }

  /**
   * Atomic finalization: in every reachable state the tail, the terminal event and the bundle of
   * a commit are all durable, exactly once, or nobody can see any of them. Nothing was ever
   * abandoned after its commit had published.
   */
  lemma AtomicFinalization(actions: seq<Action>, id: CommitId)
    ensures var s := Play(actions);
      && (id in s.published ==> id in s.sealed && WhollyVisible(s, id))
      && (id !in s.published ==> WhollyInvisible(s, id))
      && !s.lateAbandon
  {
    Reachable(actions);
    hide Inv;
    var s := Play(actions);
    assert !s.lateAbandon by { NeverLate(s); }
    if id in s.published {
      SealedIsVisible(s, id);
    } else {
      StagedIsInvisible(s, id);
    }
  }

  lemma NeverLate(s: System)
    requires Inv(s)
    ensures !s.lateAbandon
  {
  }

  lemma UnownedUnder(st: Stores, owners: OwnerMap, owners2: OwnerMap, run: RunId, id: CommitId)
    requires JournalOk(st.journal, owners) && EvidenceOk(st.evidence, owners2) && id !in owners && id !in owners2
    ensures Journal.Under(Journal.PageOf(st.journal, run).transitions, id) == []
    ensures EvidenceSink.Under(st.evidence.writes, id) == []
  {
  }

  lemma NothingUnder(s: System, id: CommitId)
    requires Inv(s) && id !in s.published && id !in s.inFlightByCommit
    ensures forall run :: TailUnder(s, run, id) == []
    ensures EvidenceSink.Under(s.stores.evidence.writes, id) == []
  {
    hide HandlesOk, CallsBelieve, TasksBelieve, AllShaped, ClaimsOk, EventsOk, JournalOk, EvidenceOk;
    var o0 := Owners(s.sealed, s.inFlightByCommit, s.tasks, 0);
    var o2 := Owners(s.sealed, s.inFlightByCommit, s.tasks, 2);
    assert id !in o0 && id !in o2;
    hide Owners, Linked, LedgerOk;
    UnownedUnder(s.stores, o0, o2, "", id);
    forall run
      ensures TailUnder(s, run, id) == []
    {
      UnownedUnder(s.stores, o0, o2, run, id);
    }
  }

  /** A commit that neither published nor is in flight has left nothing behind in any store. */
  lemma NoResidue(actions: seq<Action>, id: CommitId)
    requires var s := Play(actions); id !in s.published && id !in s.inFlightByCommit
    ensures var s := Play(actions);
      && (forall run :: TailUnder(s, run, id) == [])
      && (forall run, row | EventSink.Stored(s.stores.events, run, row) :: row.commit != Some(id))
      && EvidenceSink.Under(s.stores.evidence.writes, id) == []
  {
    Reachable(actions);
    NothingStoredYet(Play(actions), id);
    NothingUnder(Play(actions), id);
  }

  /** Once every operation has delivered its outcome the in-flight ledgers are empty. */
  lemma LedgersDrain(actions: seq<Action>)
    requires forall t | 0 <= t < |Play(actions).tasks| :: Play(actions).tasks[t].pc.Done?
    ensures Play(actions).inFlightByCommit == map[] && Play(actions).inFlightByGeneration == map[]
  {
    var s := Play(actions);
    Reachable(actions);
    hide StoresOk, HandlesOk, LedgerOk, TasksBelieve, CallsBelieve, AllShaped;
    assert forall c :: c !in s.inFlightByCommit;
  }

  // ----------------------------------------------------------------- what publishes

  /** Nothing became visible to anyone. */
  predicate Quiet(s: System, s': System) {
    s'.published == s.published && s'.sealed == s.sealed && s'.finalized == s.finalized
  }

  /** Only task `t` moved, and it still works on its commit. */
  predicate OnlyTask(s: System, s': System, t: nat) {
    && t < |s.tasks| == |s'.tasks| && s'.calls == s.calls
    && s'.tasks == s.tasks[t := s'.tasks[t]] && s'.tasks[t].commit == s.tasks[t].commit
  }

  lemma FailEffect(s: System, t: nat, outcome: Outcome)
    requires t < |s.tasks|
    ensures Quiet(s, Fail(s, t, outcome)) && OnlyTask(s, Fail(s, t, outcome), t)
    ensures Fail(s, t, outcome).tasks[t].pc == Retiring(outcome)
  {
    hide AbandonAll;
  }

  lemma UpdateEffect(s: System, t: nat, task: Task, stores: Stores)
    requires t < |s.tasks| && task.commit == s.tasks[t].commit
    ensures var s' := SetTask(s, t, task).(stores := stores);
      Quiet(s, s') && OnlyTask(s, s', t) && s'.tasks[t] == task && SetTask(s, t, task) == SetTask(s, t, task).(stores := s.stores)
  {
  }

  /** From a segment's start to its await: nothing visible, and a renewal only with three writes staged. */
  predicate AwaitsNext(s: System, s': System, t: nat, rejects: bool) {
    && Quiet(s, s') && OnlyTask(s, s', t)
    && (s'.tasks[t].pc == Renewing(Some(true)) ==>
          && !rejects && s'.tasks[t].staged == s.tasks[t].staged && |s'.tasks[t].staged| == 3
          && Lease.Holds(s.lease, s.tasks[t].commit.run, s.tasks[t].commit.generation))
  }

  lemma FailAwaits(s: System, t: nat, outcome: Outcome, rejects: bool)
    requires t < |s.tasks|
    ensures AwaitsNext(s, Fail(s, t, outcome), t, rejects)
  {
    hide Fail;
    FailEffect(s, t, outcome);
  }

  lemma StageAwaits(s: System, t: nat, reply: Reply, stores: Stores, rejects: bool)
    requires t < |s.tasks|
    ensures AwaitsNext(s, SetTask(s, t, s.tasks[t].(pc := Awaiting(reply))).(stores := stores), t, rejects)
    ensures AwaitsNext(s, SetTask(s, t, s.tasks[t].(pc := Awaiting(reply))), t, rejects)
  {
    UpdateEffect(s, t, s.tasks[t].(pc := Awaiting(reply)), stores);
  }

  lemma RenewAwaits(s: System, t: nat, rejects: bool)
    requires t < |s.tasks| && |s.tasks[t].staged| == 3
    ensures var c := s.tasks[t].commit;
      var answer := if rejects then None else Some(Lease.Holds(s.lease, c.run, c.generation));
      AwaitsNext(s, SetTask(s, t, s.tasks[t].(pc := Renewing(answer))), t, rejects)
  {
    var c := s.tasks[t].commit;
    var answer := if rejects then None else Some(Lease.Holds(s.lease, c.run, c.generation));
    UpdateEffect(s, t, s.tasks[t].(pc := Renewing(answer)), s.stores);
  }

  lemma ProceedEffect(s: System, t: nat, rejects: bool)
    requires t < |s.tasks| && |s.tasks[t].staged| <= 3
    ensures AwaitsNext(s, Proceed(s, t, rejects), t, rejects)
  {
    hide Fail, Stage, SetTask, AwaitsNext;
    var task := s.tasks[t];
    if task.commit.signal in s.aborted {
      FailAwaits(s, t, NotCommitted(Unspecified), rejects);
    } else if |task.staged| < 3 {
      FailAwaits(s, t, ExpiredOutcome(task.commit), rejects);
      var (reply, stores) := Stage(s.stores, s.published, task.commit, |task.staged|);
      StageAwaits(s, t, reply, stores, rejects);
      StageAwaits(s, t, Rejected, s.stores, rejects);
    } else {
      RenewAwaits(s, t, rejects);
    }
  }

  /** The guards that hold, all at once, in the state in which a marker is set for task `t`. */
  predicate MayPublish(s: System, t: nat) {
    && t < |s.tasks|
    && var c := s.tasks[t].commit;
    && s.tasks[t].pc == Renewing(Some(true)) && |s.tasks[t].staged| == 3
    && c.signal !in s.aborted && !IsExpired(s, c)
    && Holder(c) !in s.finalized && c.id !in s.published
    && (Holder(c) in s.inFlightByGeneration ==> s.inFlightByGeneration[Holder(c)] == c.id)
  }

  predicate Publishes(s: System, s': System, t: nat) {
    && MayPublish(s, t)
    && var c := s.tasks[t].commit;
    && s'.published == s.published + {c.id} && s'.sealed == s.sealed[c.id := c] && s'.finalized == s.finalized[Holder(c) := c.id]
  }

  lemma GateEffect(s: System, t: nat)
    requires t < |s.tasks| && s.tasks[t].pc == Renewing(Some(true)) && |s.tasks[t].staged| == 3
    requires s.tasks[t].commit.signal !in s.aborted && s.tasks[t].commit.id !in s.published
    ensures var s' := Gate(s, t);
      && (Quiet(s, s') || Publishes(s, s', t))
      && OnlyTask(s, s', t) && s'.tasks[t].pc.Retiring?
  {
    hide Fail;
    var c := s.tasks[t].commit;
    FailEffect(s, t, NotCommitted(AlreadyCommitted));
    FailEffect(s.(inFlightByGeneration := s.inFlightByGeneration[Holder(c) := c.id]), t, ExpiredOutcome(c));
  }

  /** What a step of task `t` may have done: nothing visible, one guarded publication, or a renewal. */
  predicate TaskStep(s: System, s': System, t: nat, rejects: bool) {
    && (Quiet(s, s') || Publishes(s, s', t))
    && OnlyTask(s, s', t)
    && (s'.tasks[t].pc == Renewing(Some(true)) ==>
          && !s.tasks[t].pc.Renewing? && !rejects && |s'.tasks[t].staged| == 3
          && Lease.Holds(s.lease, s.tasks[t].commit.run, s.tasks[t].commit.generation))
  }

  lemma AcceptEffect(s: System, t: nat, rejects: bool)
    requires t < |s.tasks| && s.tasks[t].pc.Awaiting? && s.tasks[t].pc.reply.Prepared? && |s.tasks[t].staged| < 3
    ensures TaskStep(s, Resume(s, t, rejects), t, rejects)
  {
    hide Fail, Proceed, Gate, Publishes;
    var task := s.tasks[t];
    var s1 := SetTask(s, t, task.(staged := task.staged + [task.pc.reply.write], pc := Executing));
    assert Quiet(s, s1) && OnlyTask(s, s1, t);
    FailEffect(s1, t, NotCommitted(Unspecified));
    ProceedEffect(s1, t, rejects);
  }

  lemma RenewedEffect(s: System, t: nat, rejects: bool)
    requires t < |s.tasks| && s.tasks[t].pc.Renewing? && |s.tasks[t].staged| == 3 && s.tasks[t].commit.id !in s.published
    ensures TaskStep(s, Resume(s, t, rejects), t, rejects)
  {
    hide Fail, Proceed, Gate, Publishes;
    FailEffect(s, t, NotCommitted(Unspecified));
    FailEffect(s, t, NotCommitted(Stale));
    if s.tasks[t].pc.answer == Some(true) && s.tasks[t].commit.signal !in s.aborted {
      GateEffect(s, t);
    }
  }

  lemma ResumeEffect(s: System, t: nat, rejects: bool)
    requires t < |s.tasks| && Shaped(s.tasks[t]) && TaskBelief(s.intents, s.tasks[t]) && s.published == s.intents.Keys
    ensures TaskStep(s, Resume(s, t, rejects), t, rejects)
  {
    hide Fail, Proceed, Gate, Publishes;
    var task := s.tasks[t];
    match task.pc
    case Executing =>
    case Awaiting(Rejected) => FailEffect(s, t, NotCommitted(Unspecified));
    case Awaiting(Declined(reason)) => FailEffect(s, t, NotCommitted(reason));
    case Awaiting(Prepared(_)) => AcceptEffect(s, t, rejects);
    case Renewing(_) => RenewedEffect(s, t, rejects);
    case Retiring(_) =>
    case Done(_) =>
  }

  /** A call is logged; at most one task is added, and it works on this commit. */
  predicate CallStep(s: System, s': System, c: Commit) {
    && Quiet(s, s')
    && |s'.calls| == |s.calls| + 1 && s'.calls[..|s.calls|] == s.calls && s'.calls[|s.calls|].commit == c
    && |s.tasks| <= |s'.tasks| && s'.tasks[..|s.tasks|] == s.tasks
    && (forall t | |s.tasks| <= t < |s'.tasks| :: s'.tasks[t].commit == c && s'.tasks[t].pc != Renewing(Some(true)))
  }

  lemma OpenEffect(s: System, c: Commit, rejects: bool)
    ensures CallStep(s, Proceed(Open(s, c), |s.tasks|, rejects), c)
  {
    hide Proceed;
    var n := |s.tasks|;
    var open := Open(s, c);
    ProceedEffect(open, n, rejects);
    assert open.tasks[..n] == s.tasks && Proceed(open, n, rejects).tasks[..n] == s.tasks;
    assert open.calls[..|s.calls|] == s.calls;
  }

  lemma LogEffect(s: System, call: Call)
    ensures CallStep(s, s.(calls := s.calls + [call]), call.commit)
  {
  }

  lemma EnterEffect(s: System, c: Commit, rejects: bool)
    ensures CallStep(s, Enter(s, c, rejects), c)
  {
    OpenEffect(s, c, rejects);
    forall call: Call | call.commit == c
      ensures CallStep(s, s.(calls := s.calls + [call]), c)
    {
      LogEffect(s, call);
    }
    hide Proceed, Open, CallStep;
  }

  lemma TaskFacts(s: System, t: nat)
    requires Inv(s) && t < |s.tasks|
    ensures Shaped(s.tasks[t]) && TaskBelief(s.intents, s.tasks[t]) && s.published == s.intents.Keys
  {
    hide StoresOk, HandlesOk, CallsBelieve, Linked, ClaimsOk, TaskBelief, Shaped;
  }

  /**
   * One step publishes at most one commit, and only a commit whose three parts are staged, whose
   * caller has not aborted, whose budget has not elapsed, whose generation has no terminal yet and
   * whose ownership the lease had confirmed.
   */
  lemma PublicationIsGuarded(s: System, action: Action)
    requires Inv(s)
    ensures Quiet(s, Step(s, action)) || (action.Resumed? && Publishes(s, Step(s, action), action.task))
  {
    hide Inv, Enter, Resume, Publishes;
    if action.Resumed? && action.task < |s.tasks| {
      TaskFacts(s, action.task);
      ResumeEffect(s, action.task, action.rejects);
    } else if action.CommitCalled? {
      EnterEffect(s, action.commit, action.rejects);
    }
  }

  /** The same for the last step of a run. */
  lemma EveryPublicationIsGuarded(actions: seq<Action>, id: CommitId)
    requires actions != []
    requires id in Play(actions).published && id !in Play(actions[..|actions| - 1]).published
    ensures var before, last := Play(actions[..|actions| - 1]), actions[|actions| - 1];
      last.Resumed? && MayPublish(before, last.task) && before.tasks[last.task].commit.id == id
  {
    hide Inv, Step;
    Reachable(actions[..|actions| - 1]);
    PublicationIsGuarded(Play(actions[..|actions| - 1]), actions[|actions| - 1]);
  }

  lemma {:induction false} SealedForever(actions: seq<Action>, more: seq<Action>, id: CommitId)
    requires id in Play(actions).sealed
    ensures id in Play(actions + more).sealed && Play(actions + more).sealed[id] == Play(actions).sealed[id]
    decreases more
  {
    hide Inv, Step, LedgerOk;
    if more == [] {
      assert actions + more == actions;
    } else {
      var n := |more| - 1;
      SealedForever(actions, more[..n], id);
      var all := actions + more;
      assert all[..|all| - 1] == actions + more[..n] && all[|all| - 1] == more[n];
      Reachable(actions + more[..n]);
      PublicationIsGuarded(Play(actions + more[..n]), more[n]);
      SealedIsPublished(Play(actions + more[..n]));
    }
  }

  lemma SealedIsPublished(s: System)
    requires Inv(s)
    ensures s.sealed.Keys == s.published
  {
  }

  /** What was published stays published, with the same content, whatever happens next. */
  lemma PublishedForever(actions: seq<Action>, more: seq<Action>, id: CommitId)
    requires id in Play(actions).published
    ensures var s, s' := Play(actions), Play(actions + more);
      && id in s.sealed && id in s'.sealed && s'.sealed[id] == s.sealed[id]
      && WhollyVisible(s', id)
  {
    hide Inv, Step, WhollyVisible;
    Reachable(actions);
    SealedIsPublished(Play(actions));
    SealedForever(actions, more, id);
    Reachable(actions + more);
    SealedIsPublished(Play(actions + more));
    SealedIsVisible(Play(actions + more), id);
  }

  // ---------------------------------------------------------- one terminal per ownership

  predicate WasCalled(actions: seq<Action>, c: Commit) {
    exists i :: 0 <= i < |actions| && actions[i].CommitCalled? && actions[i].commit == c
  }

  /** A caller derives a commit's identity from the run and generation it finalizes. */
  ghost predicate IdentityNamesHolder(actions: seq<Action>) {
    forall c1, c2 | WasCalled(actions, c1) && WasCalled(actions, c2) && c1.id == c2.id :: Holder(c1) == Holder(c2)
  }

  lemma TasksChange(s: System, action: Action)
    requires Inv(s)
    ensures var s' := Step(s, action);
      && |s.tasks| <= |s'.tasks|
      && (forall t | 0 <= t < |s.tasks| :: s'.tasks[t].commit == s.tasks[t].commit)
      && (forall t | |s.tasks| <= t < |s'.tasks| :: action.CommitCalled? && s'.tasks[t].commit == action.commit)
      && |s.calls| <= |s'.calls|
      && (forall i | 0 <= i < |s.calls| :: s'.calls[i] == s.calls[i])
      && (forall i | |s.calls| <= i < |s'.calls| :: action.CommitCalled? && s'.calls[i].commit == action.commit)
  {
    hide Inv, Enter, Resume, Publishes;
    if action.Resumed? && action.task < |s.tasks| {
      TaskFacts(s, action.task);
      ResumeEffect(s, action.task, action.rejects);
    } else if action.CommitCalled? {
      EnterEffect(s, action.commit, action.rejects);
      var s' := Step(s, action);
      forall t | 0 <= t < |s.tasks|
        ensures s'.tasks[t] == s.tasks[t]
      {
        assert s'.tasks[..|s.tasks|][t] == s'.tasks[t];
      }
      forall i | 0 <= i < |s.calls|
        ensures s'.calls[i] == s.calls[i]
      {
        assert s'.calls[..|s.calls|][i] == s'.calls[i];
      }
    }
  }

  ghost predicate AllCalled(actions: seq<Action>, s: System) {
    && (forall t | 0 <= t < |s.tasks| :: WasCalled(actions, s.tasks[t].commit))
    && (forall i | 0 <= i < |s.calls| :: WasCalled(actions, s.calls[i].commit))
    && (forall id | id in s.sealed :: WasCalled(actions, s.sealed[id]))
  }

  lemma CalledBefore(actions: seq<Action>, c: Commit)
    requires actions != [] && WasCalled(actions[..|actions| - 1], c)
    ensures WasCalled(actions, c)
  {
    var before := actions[..|actions| - 1];
    var i :| 0 <= i < |before| && before[i].CommitCalled? && before[i].commit == c;
    assert actions[i].commit == c;
  }

  /** Nothing is published, in flight or answered that no caller asked for. */
  lemma {:induction false} OnlyWhatWasCalled(actions: seq<Action>)
    ensures AllCalled(actions, Play(actions))
  {
    if actions != [] {
      var last := |actions| - 1;
      OnlyWhatWasCalled(actions[..last]);
      Reachable(actions[..last]);
      OneMoreCalled(actions, Play(actions[..last]));
      hide AllCalled;
      hide Step;
    }
  }

  lemma OneMoreCalled(actions: seq<Action>, before: System)
    requires actions != [] && Inv(before) && AllCalled(actions[..|actions| - 1], before)
    ensures AllCalled(actions, Step(before, actions[|actions| - 1]))
  {
    hide Inv, Step;
    var last := |actions| - 1;
    PublicationIsGuarded(before, actions[last]);
    TasksChange(before, actions[last]);
    forall c | WasCalled(actions[..last], c) { CalledBefore(actions, c); }
    assert actions[last].CommitCalled? ==> WasCalled(actions, actions[last].commit);
    hide WasCalled;
  }

  /** What a caller has been told, once it has been told anything. */
  function ToldTo(s: System, i: nat): Option<Outcome>
    requires i < |s.calls| && (s.calls[i].Joined? ==> s.calls[i].task < |s.tasks|)
  {
    match s.calls[i]
    case Answered(_, outcome) => Some(outcome)
    case Joined(_, t) => if s.tasks[t].pc.Done? then Some(s.tasks[t].pc.outcome) else None
  }

  /**
   * One terminal per ownership: publication, finalized generations and recorded intents stay in
   * bijection, so two published commits of one (run, generation) are the same commit.
   */
  lemma OneTerminalPerOwnership(actions: seq<Action>)
    ensures var s := Play(actions);
      && s.sealed.Keys == s.published == s.intents.Keys == s.finalized.Values
      && (forall id | id in s.sealed :: s.sealed[id].id == id && s.intents[id] == Canonical(s.sealed[id]))
      && (forall id1, id2 | id1 in s.sealed && id2 in s.sealed && Holder(s.sealed[id1]) == Holder(s.sealed[id2]) :: id1 == id2)
      && (forall h | h in s.finalized :: s.finalized[h] in s.sealed && Holder(s.sealed[s.finalized[h]]) == h)
  {
    Reachable(actions);
    hide StoresOk, HandlesOk, CallsBelieve, TasksBelieve, AllShaped, Linked, ClaimsOk;
  }

  lemma CallFacts(s: System, i: nat)
    requires Inv(s) && i < |s.calls|
    ensures s.calls[i].Joined? ==> s.calls[i].task < |s.tasks|
    ensures ToldTo(s, i) == Some(Committed) ==>
      && s.calls[i].commit.id in s.published && s.calls[i].commit.id in s.sealed
      && Canonical(s.sealed[s.calls[i].commit.id]) == Canonical(s.calls[i].commit)
  {
    hide StoresOk, HandlesOk, AllShaped, Linked, ClaimsOk;
    assert CallBelief(s.intents, s.tasks, s.calls[i]);
    if s.calls[i].Joined? {
      assert TaskBelief(s.intents, s.tasks[s.calls[i].task]);
    }
  }

  lemma SealedHolder(s: System, id: CommitId)
    requires Inv(s) && id in s.sealed
    ensures s.sealed[id].id == id && Holder(s.sealed[id]) in s.finalized && s.finalized[Holder(s.sealed[id])] == id
  {
  }

  /**
   * A caller is told its commit succeeded only when that identity is published, wholly visible,
   * with exactly the caller's intent, for the caller's own run and generation.
   */
  lemma SuccessMeansPublished(actions: seq<Action>, i: nat)
    requires i < |Play(actions).calls|
    ensures var s := Play(actions);
      var c := s.calls[i].commit;
      && (s.calls[i].Joined? ==> s.calls[i].task < |s.tasks|)
      && (ToldTo(s, i) == Some(Committed) ==>
            && c.id in s.sealed && WhollyVisible(s, c.id) && Canonical(s.sealed[c.id]) == Canonical(c)
            && (IdentityNamesHolder(actions) ==>
                  Holder(s.sealed[c.id]) == Holder(c) && Holder(c) in s.finalized && s.finalized[Holder(c)] == c.id))
  {
    var s := Play(actions);
    Reachable(actions);
    hide Inv, Step, Play, WhollyVisible;
    CallFacts(s, i);
    OnlyWhatWasCalled(actions);
    if ToldTo(s, i) == Some(Committed) {
      var id := s.calls[i].commit.id;
      SealedIsVisible(s, id);
      SealedHolder(s, id);
      assert WasCalled(actions, s.calls[i].commit) && WasCalled(actions, s.sealed[id]);
    }
  }

  /** After publication an exact replay reconciles and nothing else does; nobody publishes again. */
  lemma ReplayReconciles(actions: seq<Action>, c: Commit, rejects: bool)
    requires c.id in Play(actions).published || Holder(c) in Play(actions).finalized
    ensures var s, s' := Play(actions), Play(actions + [CommitCalled(c, rejects)]);
      && s' == s.(calls := s'.calls) && |s'.calls| == |s.calls| + 1
      && (ToldTo(s', |s.calls|) == Some(Committed) <==>
            c.id in s.sealed && Canonical(s.sealed[c.id]) == Canonical(c))
      && (ToldTo(s', |s.calls|) == Some(Committed) || ToldTo(s', |s.calls|) == Some(NotCommitted(AlreadyCommitted)))
  {
    var all := actions + [CommitCalled(c, rejects)];
    assert all[..|all| - 1] == actions && all[|all| - 1] == CommitCalled(c, rejects);
    Reachable(actions);
    hide StoresOk, HandlesOk, CallsBelieve, TasksBelieve, AllShaped, Linked, ClaimsOk;
  }

  // --------------------------------------------------------------- ownership at renewal

  /** The state a run is in after its first `p` steps. */
  function At(actions: seq<Action>, p: nat): System
    requires p <= |actions|
  {
    Play(actions[..p])
  }

  lemma AtLast(actions: seq<Action>)
    requires actions != []
    ensures var n := |actions| - 1;
      At(actions, |actions|) == Play(actions) == Step(At(actions, n), actions[n])
  {
    hide Step;
    assert actions[..|actions|] == actions;
  }

  lemma AtPrefix(actions: seq<Action>, n: nat, p: nat)
    requires p <= n <= |actions|
    ensures At(actions[..n], p) == At(actions, p)
  {
    hide Play;
    assert actions[..n][..p] == actions[..p];
  }

  /** Step `p` of the run asked the lease on behalf of task `t`, and the lease then held. */
  ghost predicate RenewedAt(actions: seq<Action>, t: nat, p: nat) {
    p < |actions| && actions[p] == Resumed(t, false) && AskedBetween(At(actions, p), At(actions, p + 1), t)
  }

  ghost predicate AskedBetween(s: System, s': System, t: nat) {
    && t < |s.tasks| && t < |s'.tasks| && !s.tasks[t].pc.Renewing?
    && s'.tasks[t].pc == Renewing(Some(true)) && |s'.tasks[t].staged| == 3
    && Lease.Holds(s.lease, s.tasks[t].commit.run, s.tasks[t].commit.generation)
  }

  ghost predicate TaskIs(s: System, t: nat, task: Task) {
    t < |s.tasks| && s.tasks[t] == task
  }

  /** Task `t` has not moved since step `p`. */
  ghost predicate StillSince(actions: seq<Action>, t: nat, p: nat, task: Task) {
    forall q | p < q <= |actions| :: TaskIs(At(actions, q), t, task)
  }

  lemma RenewingStep(s: System, action: Action, t: nat)
    requires Inv(s)
    requires t < |Step(s, action).tasks| && Step(s, action).tasks[t].pc == Renewing(Some(true))
    ensures t < |s.tasks|
    ensures (s.tasks[t].pc == Renewing(Some(true)) && Step(s, action).tasks[t] == s.tasks[t])
            || (!s.tasks[t].pc.Renewing? && action == Resumed(t, false) && |Step(s, action).tasks[t].staged| == 3
                && Lease.Holds(s.lease, s.tasks[t].commit.run, s.tasks[t].commit.generation))
  {
    hide Inv, Enter, Resume, Publishes;
    if action.Resumed? && action.task < |s.tasks| {
      TaskFacts(s, action.task);
      ResumeEffect(s, action.task, action.rejects);
    } else if action.CommitCalled? {
      EnterEffect(s, action.commit, action.rejects);
      assert t < |s.tasks|;
      assert Step(s, action).tasks[..|s.tasks|][t] == Step(s, action).tasks[t];
    }
  }

  lemma StillAt(actions: seq<Action>, n: nat, t: nat, p: nat, task: Task, q: nat)
    requires |actions| == n + 1 && p <= n && StillSince(actions[..n], t, p, task) && TaskIs(Play(actions), t, task)
    requires p < q <= |actions|
    ensures TaskIs(At(actions, q), t, task)
  {
    hide Play, At, TaskIs;
    if q <= n {
      AtPrefix(actions, n, q);
    } else {
      AtLast(actions);
    }
  }

  lemma StillOneMore(actions: seq<Action>, n: nat, t: nat, p: nat, task: Task)
    requires |actions| == n + 1 && p <= n && StillSince(actions[..n], t, p, task) && TaskIs(Play(actions), t, task)
    ensures StillSince(actions, t, p, task)
  {
    forall q | p < q <= |actions|
      ensures TaskIs(At(actions, q), t, task)
    {
      hide *;
      StillAt(actions, n, t, p, task, q);
    }
    hide Play, At, TaskIs;
  }

  lemma {:induction false} HeldWhenRenewed(actions: seq<Action>, t: nat, task: Task) returns (p: nat)
    requires TaskIs(Play(actions), t, task) && task.pc == Renewing(Some(true))
    ensures RenewedAt(actions, t, p) && StillSince(actions, t, p, task)
  {
    assert actions != [];
    var n := |actions| - 1;
    AtLast(actions);
    Reachable(actions[..n]);
    hide Inv, Step, Play, At;
    AtIsPlay(actions, n);
    RenewingStep(At(actions, n), actions[n], t);
    if At(actions, n).tasks[t].pc.Renewing? {
      p := HeldWhenRenewed(actions[..n], t, task);
      AtPrefix(actions, n, p);
      AtPrefix(actions, n, p + 1);
    } else {
      p := n;
    }
    StillOneMore(actions, n, t, p, task);
  }

  lemma AtIsPlay(actions: seq<Action>, p: nat)
    requires p <= |actions|
    ensures At(actions, p) == Play(actions[..p])
  {
    hide Play;
  }

  /**
   * Whatever is published was owned: the publishing commit's generation was the current one at
   * the step that asked the lease, and nothing of that commit happened between that answer and
   * the marker. (The lease may have moved in between: see `LeaseMayMoveBeforeMarker`.)
   */
  lemma OwnedWhenRenewed(actions: seq<Action>, id: CommitId) returns (t: nat, p: nat, task: Task)
    requires actions != []
    requires id in Play(actions).published && id !in Play(actions[..|actions| - 1]).published
    ensures p < |actions| - 1 && task.commit.id == id
    ensures RenewedAt(actions, t, p) && StillSince(actions[..|actions| - 1], t, p, task)
  {
    hide Step, Play, Inv, At;
    var n := |actions| - 1;
    EveryPublicationIsGuarded(actions, id);
    t := actions[n].task;
    task := Play(actions[..n]).tasks[t];
    p := HeldWhenRenewed(actions[..n], t, task);
    AtPrefix(actions, n, p);
    AtPrefix(actions, n, p + 1);
  }
}
