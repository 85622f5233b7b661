/**
 * The whole run: the finalization coordinator, the outboxes and their journal, and for every
 * ownership the machine and the ending of its attempt. Any of them may move between two steps of
 * any other.
 */
module DurableWalk {
  import opened Options
  import opened Visibility
  import opened Fence
  import opened Lifecycle
  import opened Journal
  import opened Machines
  import opened Outboxes
  import opened ExactlyOnce
  import opened Scopes
  import opened PageOrder
  import opened CommitNames
  import opened Decimal
  import F = Finalization
  import FM = FinalizationMoves
  import FT = FinalizationTheorems
  import EventSink
  import EvidenceSink

  datatype Whole = Whole(fin: F.System, bus: Bus, attempts: map<Generation, Attempt>)

  function StateName(state: LifecycleState): string {
    match state
    case Requested => "REQUESTED"
    case ProfileResolved => "PROFILE_RESOLVED"
    case Eligible => "ELIGIBLE"
    case SandboxStarted => "SANDBOX_STARTED"
    case Running => "RUNNING"
    case Verifying => "VERIFYING"
    case EvidenceSealed => "EVIDENCE_SEALED"
    case Completed => "COMPLETED"
    case Refused => "REFUSED"
    case OperationalFailure => "OPERATIONAL_FAILURE"
    case Cancelled => "CANCELLED"
    case TimedOut => "TIMED_OUT"
    case Indeterminate => "INDETERMINATE"
  }

  /** The caller derived the commit's identity from what it finalizes. */
  predicate WellNamed(c: F.Commit) {
    '#' !in c.run && c.id == CommitIdOf(c.run, c.generation, StateName(c.terminal))
  }

  function EarlyId(run: RunId, g: Generation): string {
    run + "#g" + Digits(g) + "#early_termination_record"
  }

  function Wire(w: Whole): World {
    World(w.bus, w.fin.stores.journal)
  }

  function Put(w: Whole, g: Generation, pair: (Courier, Attempt)): Whole {
    w.(bus := WithCourier(w.bus, g, pair.0), attempts := w.attempts[g := pair.1])
  }

  /** What a commit carries besides the entries the machine projected. */
  datatype Sealed = Sealed(terminal: LifecycleState, event: EventSink.Event, bundle: string, signal: nat, expiry: Option<nat>, bound: F.Bound)

  function CommitFor(run: RunId, g: Generation, entries: seq<TransitionEntry>, what: Sealed): F.Commit {
    F.Commit(run, g, CommitIdOf(run, g, StateName(what.terminal)), what.terminal, entries, what.event, what.bundle,
             what.signal, what.expiry, what.bound)
  }

  datatype Action =
    | Began(generation: Generation, table: TransitionTable)
    | MachineMoved(generation: Generation, move: Machines.Action)
    | Noted(generation: Generation, facts: seq<Fact>, held: bool)
    | Ticked(generation: Generation)
    | Sending(generation: Generation)
    | Arriving(message: Message)
    | HeadAcked(generation: Generation)
    | HeadStale(generation: Generation)
    | Lost(generation: Generation)
    | FinishCalled(generation: Generation, kind: TransitionKind, detail: string, assembly: Assembly, at: string)
    | TickReturned(generation: Generation, eligible: bool, what: Sealed, rejects: bool, at: string)
    | CommitReturned(generation: Generation, at: string)
    | CommitInterrupted(generation: Generation)
    | EarlyWrite(generation: Generation, built: string, replyLost: bool)
    | GaveUp(generation: Generation)
    | Reported(generation: Generation)
    | Elsewhere(action: F.Action)

  /** An attempt that has not begun to conclude still moves its machine. */
  predicate IsOpen(w: Whole, g: Generation) {
    g in w.attempts && g in w.bus.couriers && !w.attempts[g].pc.Concluding? && !w.attempts[g].pc.Concluded?
  }

  predicate IsMoving(w: Whole, g: Generation) {
    g in w.attempts && g in w.bus.couriers && !w.attempts[g].pc.Concluded?
  }

  /** Finalization activity other than this run's own appends and commits. */
  predicate IsElsewhere(run: RunId, action: F.Action) {
    && (action.Appended? ==> action.fence.run != run)
    && (action.CommitCalled? ==> WellNamed(action.commit) && action.commit.run != run)
  }

  function Arrive(w: Whole, m: Message): Whole {
    if m !in w.bus.sent then w
    else w.(bus := Deliver(Wire(w), m).bus, fin := F.Step(w.fin, F.Appended(m.fence, m.entry.id, m.entry.fact)))
  }

  function PassGate(w: Whole, g: Generation, eligible: bool, what: Sealed, rejects: bool, at: string): Whole
    requires g in w.attempts && g in w.bus.couriers && w.attempts[g].pc.Sealing? && CursorsOk(w.attempts[g].machine)
  {
    var a := w.attempts[g];
    var w' := Put(w, g, SealGate(w.bus.couriers[g], a, eligible, |w.fin.calls|, at));
    if w'.attempts[g].pc.Committing?
    then w'.(fin := F.Enter(w.fin, CommitFor(w.bus.run, g, a.pc.capability.entries, what), rejects))
    else w'
  }

  function Return(w: Whole, g: Generation, at: string): Whole
    requires g in w.attempts && g in w.bus.couriers && w.attempts[g].pc.Committing? && CursorsOk(w.attempts[g].machine)
  {
    var call := w.attempts[g].pc.call;
    if call < |w.fin.calls| && (w.fin.calls[call].Joined? ==> w.fin.calls[call].task < |w.fin.tasks|) then
      match FT.ToldTo(w.fin, call)
      case None => w
      case Some(outcome) => Put(w, g, CommitAnswered(w.bus.couriers[g], w.attempts[g], outcome, at))
    else w
  }

  /** A write whose reply is lost leaves the attempt holding its record, so that a later write repeats it. */
  function WriteEarly(w: Whole, g: Generation, built: string, replyLost: bool): Whole
    requires g in w.attempts && g in w.bus.couriers && CursorsOk(w.attempts[g].machine)
  {
    var (c, a) := (w.bus.couriers[g], w.attempts[g]);
    var fence := RunFence(w.bus.run, g);
    var record := EvidenceSink.Record(EvidenceSink.EarlyTerminationRecord, EarlyRecordOf(a, built));
    var (answer, _) := EvidenceSink.WriteRecord(w.fin.stores.evidence, fence, EarlyId(w.bus.run, g), record);
    var pair := if replyLost then (c, a.(earlyRecord := Some(EarlyRecordOf(a, built)))) else EarlyWritten(c, a, built, answer);
    Put(w, g, pair)
      .(fin := F.Step(w.fin, F.Wrote(fence, EarlyId(w.bus.run, g), record)))
  }

  function MoveMachine(w: Whole, g: Generation, move: Machines.Action): Whole
    requires g in w.attempts
  {
    if move.Adopting? || move.Confirming? then w
    else w.(attempts := w.attempts[g := w.attempts[g].(machine := Next(w.attempts[g].machine, move))])
  }

  predicate CanTick(w: Whole, g: Generation) {
    g in w.attempts && CursorsOk(w.attempts[g].machine)
  }

  function Step(w: Whole, action: Action): Whole {
    match action
    case Began(g, table) =>
      if g in w.attempts || g in w.bus.couriers || !IsNarrowing(table) then w
      else w.(bus := OwnerStarted(w.bus, g),
              attempts := w.attempts[g := Attempt(Fresh(g, w.bus.run, table), false, NothingProduced, None, [], Walking)])
    case MachineMoved(g, move) => if IsOpen(w, g) then MoveMachine(w, g, move) else w
    case Noted(g, facts, held) =>
      if IsMoving(w, g) && FactTransitions(facts) == []
      then w.(bus := FactsRecorded(w.bus, g, facts), attempts := w.attempts[g := w.attempts[g].(held := held)])
      else w
    case Ticked(g) =>
      if IsMoving(w, g) && CanTick(w, g) then Put(w, g, Tick(w.bus.couriers[g], w.attempts[g])) else w
    case Sending(g) => w.(bus := HeadSent(w.bus, g))
    case Arriving(m) => Arrive(w, m)
    case HeadAcked(g) => w.(bus := HeadAcknowledged(w.bus, g))
    case HeadStale(g) => w.(bus := HeadRefused(w.bus, g))
    case Lost(g) => if IsMoving(w, g) then w.(bus := FenceLost(w.bus, g)) else w
    case FinishCalled(g, kind, detail, assembly, at) =>
      if IsOpen(w, g) && w.attempts[g].pc.Walking? && CanTick(w, g)
      then Put(w, g, StartFinish(w.bus.couriers[g], w.attempts[g], kind, detail, assembly, at))
      else w
    case TickReturned(g, eligible, what, rejects, at) =>
      if IsOpen(w, g) && w.attempts[g].pc.Sealing? && CanTick(w, g) then PassGate(w, g, eligible, what, rejects, at) else w
    case CommitReturned(g, at) =>
      if IsOpen(w, g) && w.attempts[g].pc.Committing? && CanTick(w, g) then Return(w, g, at) else w
    case CommitInterrupted(g) =>
      if IsOpen(w, g) && w.attempts[g].pc.Committing?
      then w.(attempts := w.attempts[g := w.attempts[g].(pc := Walking)])
      else w
    case EarlyWrite(g, built, replyLost) =>
      if IsOpen(w, g) && w.attempts[g].pc.Walking? && !w.bus.couriers[g].lost && CanTick(w, g)
      then WriteEarly(w, g, built, replyLost)
      else w
    case GaveUp(g) =>
      if IsOpen(w, g) && w.attempts[g].pc.Walking? && CanTick(w, g)
      then Put(w, g, BeginConclude(w.bus.couriers[g], w.attempts[g], NothingProduced))
      else w
    case Reported(g) =>
      if IsMoving(w, g) && w.attempts[g].pc.Concluding?
      then w.(attempts := w.attempts[g := w.attempts[g].(pc := Concluded(Decide(w.bus.couriers[g], w.attempts[g])))])
      else w
    case Elsewhere(act) => if IsElsewhere(w.bus.run, act) then w.(fin := F.Step(w.fin, act)) else w
  }

  predicate IsNarrowing(table: TransitionTable) {
    forall state | state in table :: forall kind | kind in table[state] ::
      DeclaredNext(TRANSITIONS, state, kind) == Some(table[state][kind])
  }

  lemma NarrowingIsSubTable(table: TransitionTable)
    ensures IsNarrowing(table) <==> IsSubTable(table, TRANSITIONS)
  {
    if IsSubTable(table, TRANSITIONS) {
      forall state, kind | state in table && kind in table[state]
        ensures DeclaredNext(TRANSITIONS, state, kind) == Some(table[state][kind])
      {
        assert DeclaredNext(table, state, kind).Some?;
      }
    }
  }

  function Initial(run: RunId): Whole {
    Whole(F.INITIAL, Bus(run, map[], {}, {}, []), map[])
  }

  function Play(w: Whole, actions: seq<Action>): Whole
    decreases actions
  {
    if actions == [] then w else Play(Step(w, actions[0]), actions[1..])
  }
}
