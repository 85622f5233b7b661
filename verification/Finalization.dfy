/**
 * The finalization coordinator over its three participants, as a transition
 * system whose step boundaries are the awaits of a commit: whatever happens
 * between two awaits is one step, and any other activity may come in between.
 */
module Finalization {
  import opened Options
  import opened Visibility
  import opened Fence
  import opened Lifecycle
  import Journal
  import EventSink
  import EvidenceSink
  import Lease

  datatype Bound = Governed | Attempt

  datatype Commit = Commit(
    run: RunId, generation: Generation, id: CommitId, terminal: LifecycleState,
    transitions: seq<TransitionEntry>, event: EventSink.Event, bundle: string,
    signal: nat, expiry: Option<nat>, bound: Bound)

  /** Everything a commit would make durable: what makes two commits the same intent. */
  datatype Intent = Intent(terminal: LifecycleState, transitions: seq<TransitionEntry>, event: EventSink.Event, bundle: string)

  datatype Reason = Unspecified | Stale | Expired | AttemptExpired | AlreadyCommitted | Conflicting

  datatype Outcome = Committed | NotCommitted(reason: Reason)

  /** What a staged write would undo, and the commit it was staged under. */
  datatype Handle = JournalTail | TerminalEvent(cleanup: EventSink.Cleanup) | SealedBundle
  datatype StagedWrite = StagedWrite(commit: CommitId, handle: Handle)

  /** What an awaited participant answered; a rejected call staged nothing. */
  datatype Reply = Prepared(write: StagedWrite) | Declined(reason: Reason) | Rejected

  datatype Pc =
    | Executing
    | Awaiting(reply: Reply)
    /** The lease has answered `answer` (or rejected); the continuation has not resumed. */
    | Renewing(answer: Option<bool>)
    | Retiring(outcome: Outcome)
    | Done(outcome: Outcome)

  datatype Task = Task(commit: Commit, staged: seq<StagedWrite>, pc: Pc)

  datatype Stores = Stores(
    journal: Journal.JournalState, events: EventSink.Sink, evidence: EvidenceSink.EvidenceState)

  datatype InFlight = InFlight(canonical: Intent, task: nat)

  /** A caller is answered at once, or shares the outcome of a task. */
  datatype Call = Answered(commit: Commit, outcome: Outcome) | Joined(commit: Commit, task: nat)

  datatype System = System(
    stores: Stores,
    published: set<CommitId>,
    lease: Lease.LeaseState,
    finalized: map<RunFence, CommitId>,
    intents: map<CommitId, Intent>,
    inFlightByCommit: map<CommitId, InFlight>,
    inFlightByGeneration: map<RunFence, CommitId>,
    tasks: seq<Task>,
    aborted: set<nat>,
    now: nat,
    // history: the calls made, what each publication published, and whether a handle was
    // ever abandoned after its commit had published
    calls: seq<Call>,
    sealed: map<CommitId, Commit>,
    lateAbandon: bool)

  const INITIAL: System :=
    System(Stores(Journal.EMPTY, EventSink.EMPTY, EvidenceSink.EMPTY), {}, Lease.EMPTY,
           map[], map[], map[], map[], [], {}, 0, [], map[], false)

  function Canonical(c: Commit): Intent {
    Intent(c.terminal, c.transitions, c.event, c.bundle)
  }

  /** (run, generation): the unit of terminal ownership, and the fence it writes under. */
  function Holder(c: Commit): RunFence {
    RunFence(c.run, c.generation)
  }

  predicate IsExpired(s: System, c: Commit) {
    c.expiry.Some? && c.expiry.value <= s.now
  }

  function ExpiredOutcome(c: Commit): Outcome {
    NotCommitted(if c.bound.Attempt? then AttemptExpired else Expired)
  }

  function ReasonOf(answer: Answer): Reason {
    match answer
    case Accepted => Unspecified
    case StaleFence => Stale
    case ConflictingReplay => Conflicting
  }

  /** Ask participant number `index` to stage its part of the commit. */
  function Stage(st: Stores, published: set<CommitId>, c: Commit, index: nat): (r: (Reply, Stores)) {
    if index == 0 then
      var (staged, journal) := Journal.StageTransitions(st.journal, Holder(c), c.id, c.transitions);
      (if staged then Prepared(StagedWrite(c.id, JournalTail)) else Declined(Stale), st.(journal := journal))
    else if index == 1 then
      var (staging, events) := EventSink.StageEmit(st.events, published, Holder(c), c.id, c.event);
      (match staging
       case Staged(cleanup) => Prepared(StagedWrite(c.id, TerminalEvent(cleanup)))
       case NotStaged(reason) => Declined(ReasonOf(reason)),
       st.(events := events))
    else
      var (staged, evidence) := EvidenceSink.StageWrite(st.evidence, Holder(c), c.id, c.bundle);
      (if staged then Prepared(StagedWrite(c.id, SealedBundle)) else Declined(Stale), st.(evidence := evidence))
  }

  function AbandonOne(st: Stores, published: set<CommitId>, c: Commit, write: StagedWrite): Stores {
    match write.handle
    case JournalTail => st.(journal := Journal.AbandonTail(st.journal, c.run, write.commit))
    case TerminalEvent(cleanup) => st.(events := EventSink.Release(st.events, published, cleanup))
    case SealedBundle => st.(evidence := EvidenceSink.AbandonWrite(st.evidence, write.commit))
  }

  /** Abandon in the reverse of the order in which the writes were staged. */
  function AbandonAll(st: Stores, published: set<CommitId>, c: Commit, staged: seq<StagedWrite>): Stores
    decreases staged
  {
    if staged == [] then st
    else
      var last := |staged| - 1;
      AbandonAll(AbandonOne(st, published, c, staged[last]), published, c, staged[..last])
  }

  function SetTask(s: System, t: nat, task: Task): System
    requires t < |s.tasks|
  {
    s.(tasks := s.tasks[t := task])
  }

  /** The attempt gives up before publishing: abandon what it staged. */
  function Fail(s: System, t: nat, outcome: Outcome): System
    requires t < |s.tasks|
  {
    var task := s.tasks[t];
    SetTask(s, t, task.(staged := [], pc := Retiring(outcome)))
      .(stores := AbandonAll(s.stores, s.published, task.commit, task.staged),
        lateAbandon := s.lateAbandon || (task.staged != [] && task.commit.id in s.published))
  }

  /** From one await to the next: prepare the next participant, or ask the lease. */
  function Proceed(s: System, t: nat, rejects: bool): System
    requires t < |s.tasks|
  {
    var task := s.tasks[t];
    var c := task.commit;
    if c.signal in s.aborted then Fail(s, t, NotCommitted(Unspecified))
    else if |task.staged| < 3 then
      if IsExpired(s, c) then Fail(s, t, ExpiredOutcome(c))
      else if rejects then SetTask(s, t, task.(pc := Awaiting(Rejected)))
      else
        var (reply, stores) := Stage(s.stores, s.published, c, |task.staged|);
        SetTask(s, t, task.(pc := Awaiting(reply))).(stores := stores)
    else
      SetTask(s, t, task.(pc := Renewing(if rejects then None else Some(Lease.Holds(s.lease, c.run, c.generation)))))
  }

  /** The marker is set together with everything that outlives the operation. */
  function Publish(s: System, t: nat): System
    requires t < |s.tasks|
  {
    var task := s.tasks[t];
    var c := task.commit;
    SetTask(s, t, task.(staged := [], pc := Retiring(Committed)))
      .(published := s.published + {c.id},
        finalized := s.finalized[Holder(c) := c.id],
        intents := s.intents[c.id := Canonical(c)],
        sealed := s.sealed[c.id := c])
  }

  /** The generation gate and the last expiry check, synchronous with publication. */
  function Gate(s: System, t: nat): System
    requires t < |s.tasks|
  {
    var c := s.tasks[t].commit;
    if Holder(c) in s.finalized then Fail(s, t, NotCommitted(AlreadyCommitted))
    else if Holder(c) in s.inFlightByGeneration && s.inFlightByGeneration[Holder(c)] != c.id then
      Fail(s, t, NotCommitted(AlreadyCommitted))
    else
      var claimed := s.(inFlightByGeneration := s.inFlightByGeneration[Holder(c) := c.id]);
      if IsExpired(s, c) then Fail(claimed, t, ExpiredOutcome(c)) else Publish(claimed, t)
  }

  /** Retire what this operation still owns, and deliver its outcome. */
  function Retire(s: System, t: nat): System
    requires t < |s.tasks| && s.tasks[t].pc.Retiring?
  {
    var task := s.tasks[t];
    var c := task.commit;
    SetTask(s, t, task.(pc := Done(task.pc.outcome)))
      .(inFlightByGeneration :=
          if Holder(c) in s.inFlightByGeneration && s.inFlightByGeneration[Holder(c)] == c.id
          then s.inFlightByGeneration - {Holder(c)} else s.inFlightByGeneration,
        inFlightByCommit := s.inFlightByCommit - {c.id})
  }

  /** A continuation runs from its await to the next one. */
  function Resume(s: System, t: nat, rejects: bool): System
    requires t < |s.tasks|
  {
    var task := s.tasks[t];
    match task.pc
    case Executing => s
    case Awaiting(Rejected) => Fail(s, t, NotCommitted(Unspecified))
    case Awaiting(Declined(reason)) => Fail(s, t, NotCommitted(reason))
    case Awaiting(Prepared(write)) =>
      var s1 := SetTask(s, t, task.(staged := task.staged + [write], pc := Executing));
      if write.commit != task.commit.id then Fail(s1, t, NotCommitted(Unspecified)) else Proceed(s1, t, rejects)
    case Renewing(answer) =>
      if answer.None? then Fail(s, t, NotCommitted(Unspecified))
      else if !answer.value then Fail(s, t, NotCommitted(Stale))
      else if task.commit.signal in s.aborted then Fail(s, t, NotCommitted(Unspecified))
      else Gate(s, t)
    case Retiring(_) => Retire(s, t)
    case Done(_) => s
  }

  /** The task a fresh commit starts, and the claims it takes at entry. */
  function Open(s: System, c: Commit): System {
    s.(tasks := s.tasks + [Task(c, [], Executing)],
       inFlightByCommit := s.inFlightByCommit[c.id := InFlight(Canonical(c), |s.tasks|)],
       inFlightByGeneration := if Holder(c) in s.inFlightByGeneration then s.inFlightByGeneration
                               else s.inFlightByGeneration[Holder(c) := c.id],
       calls := s.calls + [Joined(c, |s.tasks|)])
  }

  function Answer(s: System, c: Commit, outcome: Outcome): System {
    s.(calls := s.calls + [Answered(c, outcome)])
  }

  /** A call of `commit`: the entry ledger, then the first segment of a fresh attempt. */
  function Enter(s: System, c: Commit, rejects: bool): System {
    if c.id in s.published then
      Answer(s, c, if c.id in s.intents && s.intents[c.id] == Canonical(c) then Committed else NotCommitted(AlreadyCommitted))
    else if Holder(c) in s.finalized then Answer(s, c, NotCommitted(AlreadyCommitted))
    else if c.id in s.inFlightByCommit then
      if s.inFlightByCommit[c.id].canonical == Canonical(c)
      then s.(calls := s.calls + [Joined(c, s.inFlightByCommit[c.id].task)])
      else Answer(s, c, NotCommitted(Conflicting))
    else Proceed(Open(s, c), |s.tasks|, rejects)
  }

  datatype Action =
    | CommitCalled(commit: Commit, rejects: bool)
    | Resumed(task: nat, rejects: bool)
    | Emitted(fence: RunFence, event: EventSink.Event)
    | Appended(fence: RunFence, entry: Journal.EntryId, fact: Journal.Fact)
    | Wrote(fence: RunFence, record: string, content: EvidenceSink.Record)
    | Leased(action: Lease.Action)
    | Aborted(signal: nat)
    | ClockRead(now: nat)

  function Step(s: System, action: Action): System {
    match action
    case CommitCalled(c, rejects) => Enter(s, c, rejects)
    case Resumed(t, rejects) => if t < |s.tasks| then Resume(s, t, rejects) else s
    case Emitted(fence, event) =>
      s.(stores := s.stores.(events := EventSink.Emit(s.stores.events, s.published, fence, event.sequence, event).1))
    case Appended(fence, entry, fact) =>
      s.(stores := s.stores.(journal := Journal.Append(s.stores.journal, fence, entry, fact).1))
    case Wrote(fence, record, content) =>
      s.(stores := s.stores.(evidence := EvidenceSink.WriteRecord(s.stores.evidence, fence, record, content).1))
    case Leased(act) => s.(lease := Lease.Step(s.lease, act))
    case Aborted(signal) => s.(aborted := s.aborted + {signal})
    case ClockRead(now) => s.(now := now)
  }

  /** The state after a whole run of the system. */
  function Play(actions: seq<Action>): System {
    if actions == [] then INITIAL
    else Step(Play(actions[..|actions| - 1]), actions[|actions| - 1])
  }

  // ---------------------------------------------------------------- invariants

  predicate IsLive(task: Task) {
    task.pc.Executing? || task.pc.Awaiting? || task.pc.Renewing?
  }

  /** The writes a task has staged, counting one whose acknowledgement it has not yet taken. */
  function Writes(task: Task): seq<StagedWrite> {
    task.staged + if task.pc.Awaiting? && task.pc.reply.Prepared? then [task.pc.reply.write] else []
  }

  ghost predicate EventHandleOk(c: Commit, handle: Handle) {
    && handle.TerminalEvent?
    && (handle.cleanup.Stage? ==>
          && handle.cleanup.identity == EventSink.Identity(c.run, c.event.sequence)
          && handle.cleanup.commit == c.id && handle.cleanup.row.commit == Some(c.id)
          && handle.cleanup.row.event == c.event)
  }

  ghost predicate Shaped(task: Task) {
    var writes := Writes(task);
    && |writes| <= 3
    && (forall i | 0 <= i < |writes| :: writes[i].commit == task.commit.id)
    && (0 < |writes| ==> writes[0].handle == JournalTail)
    && (1 < |writes| ==> EventHandleOk(task.commit, writes[1].handle))
    && (2 < |writes| ==> writes[2].handle == SealedBundle)
    && (task.pc.Awaiting? ==> |task.staged| < 3)
    && (task.pc.Renewing? ==> |task.staged| == 3)
    && (!IsLive(task) ==> task.staged == [])
  }

  /** The in-flight ledger and the tasks name each other. */
  ghost predicate Linked(inFlight: map<CommitId, InFlight>, tasks: seq<Task>) {
    && (forall c | c in inFlight :: inFlight[c].task < |tasks| && LinkedTo(inFlight, c, tasks[inFlight[c].task]))
    && (forall t | 0 <= t < |tasks| && !tasks[t].pc.Done? ::
          tasks[t].commit.id in inFlight && inFlight[tasks[t].commit.id].task == t)
  }

  ghost predicate LinkedTo(inFlight: map<CommitId, InFlight>, c: CommitId, task: Task)
    requires c in inFlight
  {
    task.commit.id == c && !task.pc.Done? && inFlight[c].canonical == Canonical(task.commit)
  }

  /** A generation is claimed only by a commit in flight for that generation. */
  ghost predicate ClaimsOk(claims: map<RunFence, CommitId>, inFlight: map<CommitId, InFlight>, tasks: seq<Task>) {
    forall h | h in claims ::
      claims[h] in inFlight && inFlight[claims[h]].task < |tasks| && Holder(tasks[inFlight[claims[h]].task].commit) == h
  }

  ghost predicate AllShaped(tasks: seq<Task>) {
    forall t | 0 <= t < |tasks| :: Shaped(tasks[t])
  }

  /** Published identities, their intents and their holders correspond one to one. */
  ghost predicate LedgerOk(published: set<CommitId>, finalized: map<RunFence, CommitId>, intents: map<CommitId, Intent>,
                           sealed: map<CommitId, Commit>)
  {
    && sealed.Keys == published == intents.Keys
    && (forall c | c in sealed ::
          && sealed[c].id == c && intents[c] == Canonical(sealed[c])
          && Holder(sealed[c]) in finalized && finalized[Holder(sealed[c])] == c)
    && (forall h | h in finalized :: finalized[h] in sealed && Holder(sealed[finalized[h]]) == h)
  }

  predicate IsPublishedAs(intents: map<CommitId, Intent>, c: Commit) {
    c.id in intents && intents[c.id] == Canonical(c)
  }

  /** What a task believes about publication: a live or refused one has not published. */
  predicate TaskBelief(intents: map<CommitId, Intent>, task: Task) {
    match task.pc
    case Retiring(outcome) => if outcome.Committed? then IsPublishedAs(intents, task.commit) else task.commit.id !in intents
    case Done(outcome) => outcome.Committed? ==> IsPublishedAs(intents, task.commit)
    case _ => task.commit.id !in intents
  }

  predicate CallBelief(intents: map<CommitId, Intent>, tasks: seq<Task>, call: Call) {
    match call
    case Answered(c, outcome) => outcome.Committed? ==> IsPublishedAs(intents, c)
    case Joined(c, t) => t < |tasks| && tasks[t].commit.id == c.id && Canonical(tasks[t].commit) == Canonical(c)
  }

  ghost predicate TasksBelieve(intents: map<CommitId, Intent>, tasks: seq<Task>) {
    forall t | 0 <= t < |tasks| :: TaskBelief(intents, tasks[t])
  }

  ghost predicate CallsBelieve(intents: map<CommitId, Intent>, tasks: seq<Task>, calls: seq<Call>) {
    forall i | 0 <= i < |calls| :: CallBelief(intents, tasks, calls[i])
  }

  type OwnerMap = map<CommitId, Commit>

  /** The commits whose record participant `part` currently stores. */
  ghost function Owners(sealed: map<CommitId, Commit>, inFlight: map<CommitId, InFlight>, tasks: seq<Task>, part: nat): OwnerMap
    requires Linked(inFlight, tasks)
  {
    map c | c in sealed.Keys + inFlight.Keys && (c in sealed || part < |Writes(tasks[inFlight[c].task])|)
      :: if c in sealed then sealed[c] else tasks[inFlight[c].task].commit
  }

  ghost predicate JournalOk(j: Journal.JournalState, owners: OwnerMap) {
    forall run, c :: Journal.Under(Journal.PageOf(j, run).transitions, c)
                     == if c in owners && owners[c].run == run then owners[c].transitions else []
  }

  ghost predicate EvidenceOk(e: EvidenceSink.EvidenceState, owners: OwnerMap) {
    forall c :: EvidenceSink.Under(e.writes, c) == if c in owners then [SealOf(owners[c], c)] else []
  }

  function SealOf(k: Commit, c: CommitId): EvidenceSink.StoredWrite {
    EvidenceSink.StoredWrite(k.run, EvidenceSink.Record(EvidenceSink.EvidenceBundle, k.bundle), Some(c))
  }

  /** The terminal event of `k` is stored under `c`, or an equal event is durable already. */
  ghost predicate Carried(e: EventSink.Sink, published: set<CommitId>, c: CommitId, k: Commit) {
    || EventSink.IsDurable(e, published, k.run, k.event)
    || exists row :: EventSink.Stored(e, k.run, row) && row.commit == Some(c) && row.event == k.event
  }

  ghost predicate EventsOk(e: EventSink.Sink, published: set<CommitId>, owners: OwnerMap) {
    && EventSink.Valid(e)
    && (forall run, row | EventSink.Stored(e, run, row) && row.commit.Some? ::
          row.commit.value in owners && owners[row.commit.value].run == run && owners[row.commit.value].event == row.event)
    && (forall c | c in owners :: Carried(e, published, c, owners[c]))
  }

  /** Each store holds exactly the records of its owners. */
  ghost predicate Recorded(st: Stores, published: set<CommitId>, journal: OwnerMap, events: OwnerMap, evidence: OwnerMap) {
    JournalOk(st.journal, journal) && EventsOk(st.events, published, events) && EvidenceOk(st.evidence, evidence)
  }

  /** A row stored for a live task is the one its handle can release. */
  ghost predicate HandlesOk(tasks: seq<Task>, e: EventSink.Sink) {
    forall t, run, row | 0 <= t < |tasks| && IsLive(tasks[t]) && EventSink.Stored(e, run, row)
        && row.commit == Some(tasks[t].commit.id) :: CanRelease(tasks[t], row)
  }

  predicate CanRelease(task: Task, row: EventSink.Row) {
    var writes := Writes(task);
    1 < |writes| && writes[1].handle.TerminalEvent? && writes[1].handle.cleanup.Stage? && writes[1].handle.cleanup.row == row
  }

  ghost predicate StoresOk(s: System)
    requires Linked(s.inFlightByCommit, s.tasks)
  {
    Recorded(s.stores, s.published,
             Owners(s.sealed, s.inFlightByCommit, s.tasks, 0),
             Owners(s.sealed, s.inFlightByCommit, s.tasks, 1),
             Owners(s.sealed, s.inFlightByCommit, s.tasks, 2))
  }

  ghost predicate Inv(s: System) {
    && Linked(s.inFlightByCommit, s.tasks)
    && ClaimsOk(s.inFlightByGeneration, s.inFlightByCommit, s.tasks)
    && AllShaped(s.tasks)
    && LedgerOk(s.published, s.finalized, s.intents, s.sealed)
    && TasksBelieve(s.intents, s.tasks)
    && CallsBelieve(s.intents, s.tasks, s.calls)
    && !s.lateAbandon
    && StoresOk(s)
    && HandlesOk(s.tasks, s.stores.events)
  }
}
