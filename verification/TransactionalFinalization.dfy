/**
 * The coordinator itself: an object over its participants, whose ledgers change in place. Each
 * method is one uninterrupted segment and is proved equal to the step it stands for.
 */
module TransactionalFinalizations {
  import opened Options
  import opened Visibility
  import opened Fence
  import opened Lifecycle
  import opened Finalization
  import opened FinalizationStores
  import opened FinalizationProofs
  import opened FinalizationRuns
  import opened FinalizationTheorems
  import Journal
  import EventSink
  import EvidenceSink
  import RecordingSinks
  import Lease

  lemma NothingElseStaged(task: Task)
    requires StagedShape(task.commit, Writes(task))
    ensures StagedShape(task.commit, task.staged)
  {
    assert forall i | 0 <= i < |task.staged| :: Writes(task)[i] == task.staged[i];
    hide HandleFits;
  }

  /** What the invariant says about a task and the stores, as the segments need it. */
  lemma ReadyTask(s: System, t: nat)
    requires Inv(s) && t < |s.tasks|
    ensures StagedShape(s.tasks[t].commit, s.tasks[t].staged) && EventSink.Valid(s.stores.events)
    ensures s.tasks[t].pc.Awaiting? && s.tasks[t].pc.reply.Prepared? ==>
              StagedShape(s.tasks[t].commit, s.tasks[t].staged + [s.tasks[t].pc.reply.write])
  {
    hide Inv, EventSink.Valid, HandleFits, Shaped, TaskBelief;
    EventsAreValid(s);
    TaskFacts(s, t);
    ShapeGivesHandles(s.tasks[t]);
    NothingElseStaged(s.tasks[t]);
  }

  class TransactionalFinalization {
    const journal: Journal.InMemoryRunJournal
    const events: RecordingSinks.RecordingEventSink
    const evidence: EvidenceSink.RecordingEvidenceSink
    const visibility: CommitLedger
    const lease: Lease.InMemoryRunLease
    var finalized: map<RunFence, CommitId>
    var intents: map<CommitId, Intent>
    var inFlightByCommit: map<CommitId, InFlight>
    var inFlightByGeneration: map<RunFence, CommitId>
    /** The suspended continuations, each with the writes it has staged so far. */
    var tasks: seq<Task>
    ghost var calls: seq<Call>
    ghost var sealed: map<CommitId, Commit>
    ghost var lateAbandon: bool

    ghost function Footprint(): set<object> {
      {this, journal, journal.fence, events, events.fence, evidence, evidence.fence, visibility}
    }

    /** All participants consult one visibility authority, and no two share a fence. */
    ghost predicate Wired() {
      && journal.visibility == events.visibility == evidence.visibility == visibility
      && journal.fence != events.fence && events.fence != evidence.fence && evidence.fence != journal.fence
    }

    ghost function Stored(): Stores
      reads Footprint()
    {
      Stores(journal.State(), events.State(), evidence.State())
    }

    ghost function State(aborted: set<nat>, now: nat): System
      reads Footprint(), lease
    {
      System(Stored(), visibility.published, lease.State(), finalized, intents, inFlightByCommit,
             inFlightByGeneration, tasks, aborted, now, calls, sealed, lateAbandon)
    }

    constructor (journal: Journal.InMemoryRunJournal, events: RecordingSinks.RecordingEventSink,
                 evidence: EvidenceSink.RecordingEvidenceSink, visibility: CommitLedger, lease: Lease.InMemoryRunLease)
      ensures this.journal == journal && this.events == events && this.evidence == evidence
      ensures this.visibility == visibility && this.lease == lease
      ensures finalized == map[] && intents == map[] && inFlightByCommit == map[] && inFlightByGeneration == map[]
      ensures tasks == [] && calls == [] && sealed == map[] && !lateAbandon
    {
      this.journal, this.events, this.evidence := journal, events, evidence;
      this.visibility, this.lease := visibility, lease;
      finalized, intents, inFlightByCommit, inFlightByGeneration := map[], map[], map[], map[];
      tasks, calls, sealed, lateAbandon := [], [], map[], false;
    }

    method AbandonStaged(c: Commit, staged: seq<StagedWrite>)
      requires Wired() && StagedShape(c, staged) && EventSink.RowsAreObjects(events.State())
      modifies journal, events, evidence
      ensures Stored() == AbandonAll(old(Stored()), visibility.published, c, staged)
    {
      ghost var before := Stored();
      var i := |staged|;
      assert staged[..i] == staged;
      while i > 0
        invariant 0 <= i <= |staged|
        invariant i >= 2 ==> EventSink.RowsAreObjects(events.State())
        invariant AbandonAll(Stored(), visibility.published, c, staged[..i]) == AbandonAll(before, visibility.published, c, staged)
      {
        i := i - 1;
        ghost var now := Stored();
        assert HandleFits(c, i, staged[i]);
        assert staged[..i + 1][..i] == staged[..i];
        match staged[i].handle {
          case JournalTail => journal.AbandonStage(c.run, staged[i].commit);
          case TerminalEvent(Nothing) =>
          case TerminalEvent(Stage(identity, commit, row)) => events.ReleaseStage(identity, commit, row);
          case SealedBundle => evidence.AbandonStage(staged[i].commit);
        }
        assert Stored() == AbandonOne(now, visibility.published, c, staged[i]);
      }
    }

    /** Ask one participant to prepare its part. */
    method Prepare(c: Commit, index: nat) returns (reply: Reply)
      requires Wired() && EventSink.Valid(events.State())
      modifies journal, journal.fence, events, events.fence, evidence, evidence.fence
      ensures (reply, Stored()) == Stage(old(Stored()), visibility.published, c, index)
    {
      if index == 0 {
        var staged := journal.Stage(Holder(c), c.id, c.transitions);
        reply := if staged then Prepared(StagedWrite(c.id, JournalTail)) else Declined(Stale);
      } else if index == 1 {
        var staging := events.StageEmit(Holder(c), c.id, c.event);
        match staging {
          case Staged(cleanup) => reply := Prepared(StagedWrite(c.id, TerminalEvent(cleanup)));
          case NotStaged(reason) => reply := Declined(ReasonOf(reason));
        }
      } else {
        var staged := evidence.Stage(Holder(c), c.id, c.bundle);
        reply := if staged then Prepared(StagedWrite(c.id, SealedBundle)) else Declined(Stale);
      }
    }

    /** What the invariant says about a live task and the stores, as the segments need it. */
    ghost predicate Ready(t: nat)
      reads this, events, events.fence
    {
      t < |tasks| && StagedShape(tasks[t].commit, tasks[t].staged) && EventSink.Valid(events.State())
    }

    method FailTask(t: nat, outcome: Outcome, ghost aborted: set<nat>, ghost now: nat)
      requires Wired() && Ready(t)
      modifies this, journal, events, evidence
      ensures State(aborted, now) == Fail(old(State(aborted, now)), t, outcome)
    {
      var task := tasks[t];
      lateAbandon := lateAbandon || (task.staged != [] && task.commit.id in visibility.published);
      AbandonStaged(task.commit, task.staged);
      tasks := tasks[t := task.(staged := [], pc := Retiring(outcome))];
    }

    method ProceedTask(t: nat, aborted: set<nat>, now: nat, rejects: bool)
      requires Wired() && Ready(t)
      modifies Footprint()
      ensures State(aborted, now) == Proceed(old(State(aborted, now)), t, rejects)
    {
      hide AbandonAll, Stage, StagedShape, EventSink.Valid;
      var task := tasks[t];
      var c := task.commit;
      if c.signal in aborted {
        FailTask(t, NotCommitted(Unspecified), aborted, now);
      } else if |task.staged| < 3 {
        if c.expiry.Some? && c.expiry.value <= now {
          FailTask(t, ExpiredOutcome(c), aborted, now);
        } else if rejects {
          tasks := tasks[t := task.(pc := Awaiting(Rejected))];
        } else {
          var reply := Prepare(c, |task.staged|);
          tasks := tasks[t := task.(pc := Awaiting(reply))];
        }
      } else if rejects {
        tasks := tasks[t := task.(pc := Renewing(None))];
      } else {
        var owned := lease.Renew(c.run, c.generation);
        tasks := tasks[t := task.(pc := Renewing(Some(owned)))];
      }
    }

    /** The marker and the persistent authority, with nothing in between. */
    method PublishTask(t: nat, ghost aborted: set<nat>, ghost now: nat)
      requires t < |tasks|
      modifies this, visibility
      ensures State(aborted, now) == Publish(old(State(aborted, now)), t)
    {
      var task := tasks[t];
      var c := task.commit;
      visibility.Publish(c.id);
      finalized := finalized[Holder(c) := c.id];
      intents := intents[c.id := Canonical(c)];
      sealed := sealed[c.id := c];
      tasks := tasks[t := task.(staged := [], pc := Retiring(Committed))];
    }

    /** The synchronous section between the lease's answer and the outcome. */
    method PassGate(t: nat, aborted: set<nat>, now: nat)
      requires Wired() && Ready(t)
      modifies Footprint()
      ensures State(aborted, now) == Gate(old(State(aborted, now)), t)
    {
      hide AbandonAll, Stage, StagedShape, EventSink.Valid, Fail, Publish;
      var c := tasks[t].commit;
      if Holder(c) in finalized {
        FailTask(t, NotCommitted(AlreadyCommitted), aborted, now);
        return;
      }
      if Holder(c) in inFlightByGeneration && inFlightByGeneration[Holder(c)] != c.id {
        FailTask(t, NotCommitted(AlreadyCommitted), aborted, now);
        return;
      }
      inFlightByGeneration := inFlightByGeneration[Holder(c) := c.id];
      if c.expiry.Some? && c.expiry.value <= now {
        FailTask(t, ExpiredOutcome(c), aborted, now);
        return;
      }
      PublishTask(t, aborted, now);
    }

    method RetireTask(t: nat, ghost aborted: set<nat>, ghost now: nat)
      requires t < |tasks| && tasks[t].pc.Retiring?
      modifies this
      ensures State(aborted, now) == Retire(old(State(aborted, now)), t)
    {
      var c := tasks[t].commit;
      if Holder(c) in inFlightByGeneration && inFlightByGeneration[Holder(c)] == c.id {
        inFlightByGeneration := inFlightByGeneration - {Holder(c)};
      }
      inFlightByCommit := inFlightByCommit - {c.id};
      tasks := tasks[t := tasks[t].(pc := Done(tasks[t].pc.outcome))];
    }

    /** An acknowledgement is taken: the write counts, and the next participant is asked. */
    method AcceptTask(t: nat, aborted: set<nat>, now: nat, rejects: bool)
      requires Wired() && Ready(t) && tasks[t].pc.Awaiting? && tasks[t].pc.reply.Prepared?
      requires StagedShape(tasks[t].commit, tasks[t].staged + [tasks[t].pc.reply.write])
      modifies Footprint()
      ensures State(aborted, now) == Resume(old(State(aborted, now)), t, rejects)
    {
      hide AbandonAll, Stage, StagedShape, EventSink.Valid, Fail, Proceed;
      var task := tasks[t];
      var write := task.pc.reply.write;
      tasks := tasks[t := task.(staged := task.staged + [write], pc := Executing)];
      if write.commit != task.commit.id {
        FailTask(t, NotCommitted(Unspecified), aborted, now);
      } else {
        ProceedTask(t, aborted, now, rejects);
      }
    }

    /** The lease has answered. */
    method ConfirmTask(t: nat, aborted: set<nat>, now: nat)
      requires Wired() && Ready(t) && tasks[t].pc.Renewing?
      modifies Footprint()
      ensures State(aborted, now) == Resume(old(State(aborted, now)), t, false) == Resume(old(State(aborted, now)), t, true)
    {
      hide AbandonAll, Stage, StagedShape, EventSink.Valid, Fail, Proceed, Gate;
      var task := tasks[t];
      var answer := task.pc.answer;
      if answer.None? {
        FailTask(t, NotCommitted(Unspecified), aborted, now);
      } else if !answer.value {
        FailTask(t, NotCommitted(Stale), aborted, now);
      } else if task.commit.signal in aborted {
        FailTask(t, NotCommitted(Unspecified), aborted, now);
      } else {
        PassGate(t, aborted, now);
      }
    }

    /** One continuation runs to its next await. */
    method ResumeTask(t: nat, aborted: set<nat>, now: nat, rejects: bool)
      requires Wired() && Inv(State(aborted, now)) && t < |tasks|
      modifies Footprint()
      ensures State(aborted, now) == Resume(old(State(aborted, now)), t, rejects) && Inv(State(aborted, now))
    {
      hide Inv, AbandonAll, Stage, StagedShape, EventSink.Valid, Fail, Proceed, Gate, Retire;
      ResumeKeepsInv(State(aborted, now), t, rejects);
      ReadyTask(State(aborted, now), t);
      match tasks[t].pc {
        case Executing =>
        case Awaiting(Rejected) => FailTask(t, NotCommitted(Unspecified), aborted, now);
        case Awaiting(Declined(reason)) => FailTask(t, NotCommitted(reason), aborted, now);
        case Awaiting(Prepared(_)) => AcceptTask(t, aborted, now, rejects);
        case Renewing(_) => ConfirmTask(t, aborted, now);
        case Retiring(_) => RetireTask(t, aborted, now);
        case Done(_) =>
      }
    }

    /** The claims a fresh commit takes at entry, before its first await. */
    method OpenTask(c: Commit, ghost aborted: set<nat>, ghost now: nat)
      modifies this
      ensures State(aborted, now) == Open(old(State(aborted, now)), c)
    {
      if Holder(c) !in inFlightByGeneration {
        inFlightByGeneration := inFlightByGeneration[Holder(c) := c.id];
      }
      inFlightByCommit := inFlightByCommit[c.id := InFlight(Canonical(c), |tasks|)];
      calls := calls + [Joined(c, |tasks|)];
      tasks := tasks + [Task(c, [], Executing)];
    }

    method StartTask(c: Commit, aborted: set<nat>, now: nat, rejects: bool)
      requires Wired() && EventSink.Valid(events.State())
      modifies Footprint()
      ensures State(aborted, now) == Proceed(Open(old(State(aborted, now)), c), |old(tasks)|, rejects)
      ensures calls == old(calls) + [Joined(c, |old(tasks)|)]
    {
      hide AbandonAll, Stage, EventSink.Valid, Proceed;
      OpenTask(c, aborted, now);
      ghost var open := State(aborted, now);
      assert open.tasks[|tasks| - 1] == Task(c, [], Executing);
      ProceedEffect(open, |tasks| - 1, rejects);
      ProceedTask(|tasks| - 1, aborted, now, rejects);
    }

    ghost method Log(call: Call, aborted: set<nat>, now: nat)
      modifies this
      ensures var s := old(State(aborted, now)); State(aborted, now) == s.(calls := s.calls + [call])
    {
      calls := calls + [call];
    }

    /**
     * A call: answered from the ledgers, joined to the operation already in flight, or started.
     * The result is the outcome, or the task whose outcome it will be.
     */
    method Commit(c: Commit, aborted: set<nat>, now: nat, rejects: bool) returns (call: Call)
      requires Wired() && Inv(State(aborted, now))
      modifies Footprint()
      ensures State(aborted, now) == Enter(old(State(aborted, now)), c, rejects) && Inv(State(aborted, now))
      ensures calls == old(calls) + [call]
    {
      EnterKeepsInv(State(aborted, now), c, rejects);
      EventsAreValid(State(aborted, now));
      hide Inv, AbandonAll, Stage, EventSink.Valid, Proceed, Open;
      if c.id in visibility.published {
        var same := c.id in intents && intents[c.id] == Canonical(c);
        call := Answered(c, if same then Committed else NotCommitted(AlreadyCommitted));
        Log(call, aborted, now);
      } else if Holder(c) in finalized {
        call := Answered(c, NotCommitted(AlreadyCommitted));
        Log(call, aborted, now);
      } else if c.id in inFlightByCommit {
        if inFlightByCommit[c.id].canonical == Canonical(c) {
          call := Joined(c, inFlightByCommit[c.id].task);
        } else {
          call := Answered(c, NotCommitted(Conflicting));
        }
        Log(call, aborted, now);
      } else {
        call := Joined(c, |tasks|);
        StartTask(c, aborted, now, rejects);
      }
    }
  }
}
