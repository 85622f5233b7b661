/**
 * One ownership's scope and how it ends: the owner of terminal transitions, the segments of
 * `finish` between its awaits, and what a conclusion may claim.
 */
module Scopes {
  import opened Options
  import opened Visibility
  import opened Fence
  import opened Lifecycle
  import opened Machines
  import opened Outboxes
  import opened ExactlyOnce
  import Journal
  import Finalization

  datatype Produced = NothingProduced | EarlyTerminationRecord | EvidenceBundle

  datatype Conclusion =
    | OwnershipLost(state: LifecycleState)
    | SettlementFailed(intended: LifecycleState)
    | Unterminated(state: LifecycleState)
    | Terminal(state: LifecycleState, produced: Produced)
    | StillHeld(state: LifecycleState)

  /** Where an attempt is in ending: `call` is the commit call whose outcome it awaits. */
  datatype Pc =
    | Walking
    | Sealing(kind: TransitionKind, capability: Capability)
    | Committing(kind: TransitionKind, capability: Capability, call: nat)
    | Concluding(produced: Produced)
    | Concluded(conclusion: Conclusion)

  /** `tail` is history: the committed entries the machine adopted. */
  datatype Attempt = Attempt(
    machine: Machine, held: bool, recorded: Produced, earlyRecord: Option<string>, tail: seq<TransitionEntry>, pc: Pc)

  datatype Assembly = Assembled | NotAssembled(refusal: bool)

  predicate CursorsOk(m: Machine) {
    m.journaledTransitions <= |m.transitions| && m.journaledRejections <= |m.rejections|
  }

  /** The declared terminal, or INDETERMINATE, or nothing at all. */
  function ReachTerminal(m: Machine, kind: TransitionKind, why: string, at: string): (r: (Option<TransitionKind>, Machine)) {
    var (first, m1) := Advance(m, Step(kind, why, at), "");
    if first.Advanced? then (Some(kind), m1)
    else if kind == BecomeIndeterminate then (None, m1)
    else
      var (second, m2) := Advance(m1, Step(BecomeIndeterminate, why, at), "");
      (if second.Advanced? then Some(BecomeIndeterminate) else None, m2)
  }

  /** A journal tick's synchronous half: a dispossessed run hands over nothing. */
  function Tick(c: Courier, a: Attempt): (r: (Courier, Attempt))
    requires CursorsOk(a.machine)
  {
    if c.lost then (c, a)
    else
      var facts := Undrained(a.machine);
      (c.(recorded := c.recorded + facts, outbox := RecordAll(c.outbox, facts)), a.(machine := Drained(a.machine)))
  }

  function BeginConclude(c: Courier, a: Attempt, produced: Produced): (r: (Courier, Attempt))
    requires CursorsOk(a.machine)
  {
    var (c', a') := Tick(c, a);
    (c', a'.(pc := Concluding(produced)))
  }

  function FailClosed(c: Courier, a: Attempt, kind: TransitionKind, why: string, at: string): (r: (Courier, Attempt))
    requires CursorsOk(a.machine)
  {
    BeginConclude(c, a.(machine := ReachTerminal(a.machine, kind, why, at).1), NothingProduced)
  }

  /** A completing run takes two transitions; every other terminal takes one. */
  function FinishSteps(kind: TransitionKind, detail: string, at: string): seq<Step> {
    if kind == Complete then [Step(SealEvidence, "evidence sealed", at), Step(Complete, detail, at)]
    else [Step(kind, detail, at)]
  }

  /** `finish` up to the journal tick it awaits. */
  function StartFinish(c: Courier, a: Attempt, kind: TransitionKind, detail: string, assembly: Assembly, at: string)
    : (r: (Courier, Attempt))
    requires CursorsOk(a.machine)
  {
    if c.lost then BeginConclude(c, a, NothingProduced)
    else if assembly.NotAssembled? then FailClosed(c, a, if assembly.refusal then Refuse else OperationalFault, detail, at)
    else
      var (projection, m) := Project(a.machine, FinishSteps(kind, detail, at));
      match projection
      case NotDeclared(_, _) => FailClosed(c, a, OperationalFault, detail, at)
      case Projected(capability) =>
        var (c', a') := Tick(c, a.(machine := m));
        (c', a'.(pc := Sealing(kind, capability)))
  }

  /** The tick has returned: nothing is committed over a record with a hole in it. */
  function SealGate(c: Courier, a: Attempt, eligible: bool, call: nat, at: string): (r: (Courier, Attempt))
    requires CursorsOk(a.machine) && a.pc.Sealing?
  {
    if c.outbox.pending != [] || !eligible then FailClosed(c, a, OperationalFault, "not sealed", at)
    else (c, a.(pc := Committing(a.pc.kind, a.pc.capability, call)))
  }

  /** A capability the machine no longer honours raises, and the run is left to recovery. */
  function CommitAnswered(c: Courier, a: Attempt, outcome: Finalization.Outcome, at: string): (r: (Courier, Attempt))
    requires CursorsOk(a.machine) && a.pc.Committing?
  {
    match outcome
    case Committed =>
      var (adoption, m) := CommitProjected(a.machine, a.pc.capability);
      if adoption != Adopted then (c, a.(machine := m, pc := Walking))
      else BeginConclude(c, a.(machine := m, tail := a.pc.capability.entries, recorded := EvidenceBundle), EvidenceBundle)
    case NotCommitted(reason) =>
      match reason
      case Stale => BeginConclude(c.(lost := true), a, NothingProduced)
      case AttemptExpired => FailClosed(c, a, a.pc.kind, "settlement failed", at)
      case AlreadyCommitted => FailClosed(c, a, a.pc.kind, "settlement failed", at)
      case Expired => FailClosed(c, a, Timeout, "expired", at)
      case _ => FailClosed(c, a, OperationalFault, "not committed", at)
  }

  /** The first record built for an attempt is the one every later write carries. */
  function EarlyRecordOf(a: Attempt, built: string): string {
    if a.earlyRecord.Some? then a.earlyRecord.value else built
  }

  function EarlyWritten(c: Courier, a: Attempt, built: string, answer: Answer): (r: (Courier, Attempt))
    requires CursorsOk(a.machine)
  {
    var a' := a.(earlyRecord := Some(EarlyRecordOf(a, built)));
    match answer
    case Accepted => BeginConclude(c, a'.(recorded := EarlyTerminationRecord), EarlyTerminationRecord)
    case StaleFence => BeginConclude(c.(lost := true), a', NothingProduced)
    case ConflictingReplay => BeginConclude(c, a', NothingProduced)
  }

  /** What the attempt reports once its cleanup is over. */
  function Decide(c: Courier, a: Attempt): (r: Conclusion)
    requires a.pc.Concluding?
  {
    var state := a.machine.state;
    if c.lost then OwnershipLost(state)
    else if c.outbox.pending != [] then
      if IsTerminal(state) then SettlementFailed(state) else Unterminated(state)
    else if IsTerminal(state) then
      if a.pc.produced == NothingProduced then SettlementFailed(state) else Terminal(state, a.pc.produced)
    else if a.held then StillHeld(state)
    else Unterminated(state)
  }

  /** The last-resort report of settlement. */
  function Incomplete(c: Courier, a: Attempt, intended: LifecycleState): Conclusion {
    if c.lost then OwnershipLost(a.machine.state)
    else if a.recorded != NothingProduced && IsTerminal(a.machine.state) then Terminal(a.machine.state, a.recorded)
    else SettlementFailed(intended)
  }

  // --------------------------------------------------------------- reaching a terminal

  lemma OneAdvance(m: Machine, step: Step)
    requires Machines.Valid(m)
    ensures var (result, m') := Advance(m, step, "");
      && Machines.Valid(m') && m'.table == m.table && m'.run == m.run && m'.identity == m.identity
      && m.transitions <= m'.transitions && m'.projections == m.projections
      && m'.journaledTransitions == m.journaledTransitions && m'.journaledRejections == m.journaledRejections
      && (result.Advanced? ==> m'.transitions == m.transitions + [result.entry] && m'.state == result.entry.to
                               && m'.rejections == m.rejections)
      && (result.Rejected? ==> m'.transitions == m.transitions && m'.state == m.state
                               && m'.rejections == m.rejections + [result.rejection])
  {
    NextKeepsValid(m, Applying(WriteClaim(m.run, m.version), step, ""));
  }

  lemma BranchesEndTerminal(table: TransitionTable, state: LifecycleState, kind: TransitionKind)
    requires IsSubTable(table, TRANSITIONS) && kind in TERMINAL_BRANCHES && !IsTerminal(state)
    ensures DeclaredNext(table, state, kind).Some? ==> DeclaredNext(table, state, kind).value == TERMINAL_BRANCHES[kind]
    ensures IsTerminal(TERMINAL_BRANCHES[kind])
  {
    if DeclaredNext(table, state, kind).Some? {
      assert DeclaredNext(TRANSITIONS, state, kind) == DeclaredNext(table, state, kind);
      CanonicalBranches(state, kind);
    }
  }

  lemma CanonicalBranches(state: LifecycleState, kind: TransitionKind)
    requires kind in TERMINAL_BRANCHES && DeclaredNext(TRANSITIONS, state, kind).Some?
    ensures DeclaredNext(TRANSITIONS, state, kind).value == TERMINAL_BRANCHES[kind]
  {
  }

  /** One terminal branch: taken when the table grants it, recorded as refused when not. */
  lemma BranchAdvance(m: Machine, kind: TransitionKind, why: string, at: string)
    requires Machines.Valid(m) && IsSubTable(m.table, TRANSITIONS) && kind in TERMINAL_BRANCHES
    ensures var (result, m') := Advance(m, Step(kind, why, at), "");
      && (result.Advanced? <==> Permits(m, kind))
      && Machines.Valid(m') && m'.table == m.table
      && (result.Advanced? ==> IsTerminal(m'.state) && m'.state == TERMINAL_BRANCHES[kind] && |m'.transitions| == |m.transitions| + 1
                               && m'.rejections == m.rejections)
      && (result.Rejected? ==> m'.state == m.state && m'.transitions == m.transitions
                               && m'.rejections == m.rejections + [result.rejection] && result.rejection.attempted == kind)
  {
    OneAdvance(m, Step(kind, why, at));
    if Permits(m, kind) {
      BranchesEndTerminal(m.table, m.state, kind);
    }
  }

  /**
   * Asking for a terminal ends in a terminal, by that transition or as INDETERMINATE, or leaves
   * the state where it was with the refusals on record; it never leaves a progress state behind.
   */
  lemma ReachTerminalEndsTerminal(m: Machine, kind: TransitionKind, why: string, at: string)
    requires Machines.Valid(m) && IsSubTable(m.table, TRANSITIONS) && kind in TERMINAL_BRANCHES
    ensures var (reached, m') := ReachTerminal(m, kind, why, at);
      && (reached.Some? ==>
            && reached.value in TERMINAL_BRANCHES
            && IsTerminal(m'.state) && m'.state == TERMINAL_BRANCHES[reached.value] && |m'.transitions| == |m.transitions| + 1
            && (reached.value == kind || (reached.value == BecomeIndeterminate && |m'.rejections| == |m.rejections| + 1)))
      && (reached.None? ==>
            && m'.state == m.state && m'.transitions == m.transitions
            && |m'.rejections| == |m.rejections| + (if kind == BecomeIndeterminate then 1 else 2)
            && m'.rejections[|m.rejections|].attempted == kind)
      && (reached == Some(kind) <==> Permits(m, kind))
  {
    BranchAdvance(m, kind, why, at);
    BranchAdvance(Advance(m, Step(kind, why, at), "").1, BecomeIndeterminate, why, at);
    assert BecomeIndeterminate in TERMINAL_BRANCHES;
    hide Advance, Machines.Valid, IsSubTable, IsTerminal, Permits;
  }

  // ------------------------------------------------------------------ the object

  class RunScope {
    const fence: RunFence
    const machine: RunMachine
    const outbox: JournalOutbox
    var fenceLost: bool
    var held: bool
    var recorded: Produced
    var earlyRecord: Option<string>
    ghost var given: seq<Journal.Fact>
    ghost var tail: seq<TransitionEntry>

    ghost function Posted(): Courier
      reads this, outbox
    {
      Courier(given, outbox.State(), fenceLost)
    }

    ghost function SuspendedAt(pc: Pc): Attempt
      reads this, machine
    {
      Attempt(machine.State(), held, recorded, earlyRecord, tail, pc)
    }

    constructor (fence: RunFence, machine: RunMachine)
      ensures this.fence == fence && this.machine == machine && fresh(outbox)
      ensures Posted() == Courier([], Empty(fence), false)
      ensures SuspendedAt(Walking) == Attempt(machine.State(), false, NothingProduced, None, [], Walking)
    {
      this.fence, this.machine := fence, machine;
      outbox := new JournalOutbox(fence);
      fenceLost, held, recorded, earlyRecord, given, tail := false, false, NothingProduced, None, [], [];
    }

    method LoseFence()
      modifies this
      ensures Posted() == old(Posted()).(lost := true)
      ensures forall pc :: SuspendedAt(pc) == old(SuspendedAt(pc))
    {
      fenceLost := true;
    }

    method Reach(kind: TransitionKind, why: string, at: string) returns (reached: Option<TransitionKind>)
      modifies machine
      ensures (reached, machine.State()) == ReachTerminal(old(machine.State()), kind, why, at)
    {
      var first := machine.AdvanceStep(Step(kind, why, at), "");
      if first.Advanced? {
        return Some(kind);
      }
      if kind != BecomeIndeterminate {
        var second := machine.AdvanceStep(Step(BecomeIndeterminate, why, at), "");
        if second.Advanced? {
          return Some(BecomeIndeterminate);
        }
      }
      reached := None;
    }

    method JournalTick(ghost pc: Pc)
      requires CursorsOk(machine.State())
      modifies this, outbox, machine
      ensures (Posted(), SuspendedAt(pc)) == Tick(old(Posted()), old(SuspendedAt(pc)))
    {
      if fenceLost {
        return;
      }
      given := given + Undrained(machine.State());
      outbox.DrainMachine(machine);
    }

    /** `finish` up to its first await; the result is where it suspends. */
    method Finish(kind: TransitionKind, detail: string, assembly: Assembly, at: string) returns (pc: Pc)
      requires CursorsOk(machine.State())
      modifies this, outbox, machine
      ensures (Posted(), SuspendedAt(pc)) == StartFinish(old(Posted()), old(SuspendedAt(Walking)), kind, detail, assembly, at)
    {
      hide Project, ReachTerminal, Undrained, Drained, RecordAll, FailClosed, FinishSteps;
      if fenceLost {
        return Concluding(NothingProduced);
      }
      if assembly.NotAssembled? {
        pc := FailAndConclude(if assembly.refusal then Refuse else OperationalFault, detail, at, Walking);
        return;
      }
      ProjectKeepsCursors(machine.State(), FinishSteps(kind, detail, at));
      var projection := machine.ProjectSteps(FinishSteps(kind, detail, at));
      match projection {
        case NotDeclared(_, _) =>
          pc := FailAndConclude(OperationalFault, detail, at, Walking);
        case Projected(capability) =>
          pc := Sealing(kind, capability);
          JournalTick(pc);
      }
    }

    /** The awaited tick has returned. */
    method PassSealGate(suspended: Pc, eligible: bool, call: nat, at: string) returns (pc: Pc)
      requires CursorsOk(machine.State()) && suspended.Sealing?
      modifies this, outbox, machine
      ensures (Posted(), SuspendedAt(pc)) == SealGate(old(Posted()), old(SuspendedAt(suspended)), eligible, call, at)
    {
      hide FailClosed;
      var empty := outbox.IsEmpty();
      if !empty || !eligible {
        pc := FailAndConclude(OperationalFault, "not sealed", at, suspended);
        return;
      }
      pc := Committing(suspended.kind, suspended.capability, call);
    }

    /** Reach a terminal and begin to conclude with nothing produced. */
    method FailAndConclude(kind: TransitionKind, why: string, at: string, ghost suspended: Pc) returns (pc: Pc)
      requires CursorsOk(machine.State())
      modifies this, outbox, machine
      ensures (Posted(), SuspendedAt(pc)) == FailClosed(old(Posted()), old(SuspendedAt(suspended)), kind, why, at)
    {
      hide Advance, Undrained, Drained, RecordAll;
      ReachKeepsCursors(machine.State(), kind, why, at);
      var _ := Reach(kind, why, at);
      pc := Concluding(NothingProduced);
      JournalTick(pc);
    }

    method AdoptCommitted(capability: Capability) returns (adoption: Adoption)
      modifies machine
      ensures (adoption, machine.State()) == CommitProjected(old(machine.State()), capability)
    {
      adoption := machine.AdoptProjection(capability);
    }

    /** The commit has been answered. */
    method Answered(suspended: Pc, outcome: Finalization.Outcome, at: string) returns (pc: Pc)
      requires CursorsOk(machine.State()) && suspended.Committing?
      modifies this, outbox, machine
      ensures (Posted(), SuspendedAt(pc)) == CommitAnswered(old(Posted()), old(SuspendedAt(suspended)), outcome, at)
    {
      hide Advance, ReachTerminal, Undrained, Drained, RecordAll, FailClosed, CommitProjected;
      match outcome {
        case Committed =>
          AdoptKeepsCursors(machine.State(), suspended.capability);
          var adoption := AdoptCommitted(suspended.capability);
          if adoption != Adopted {
            return Walking;
          }
          tail := suspended.capability.entries;
          recorded := EvidenceBundle;
          pc := Concluding(EvidenceBundle);
          JournalTick(pc);
        case NotCommitted(Stale) =>
          LoseFence();
          pc := Concluding(NothingProduced);
        case NotCommitted(AttemptExpired) => pc := FailAndConclude(suspended.kind, "settlement failed", at, suspended);
        case NotCommitted(AlreadyCommitted) => pc := FailAndConclude(suspended.kind, "settlement failed", at, suspended);
        case NotCommitted(Expired) => pc := FailAndConclude(Timeout, "expired", at, suspended);
        case NotCommitted(_) => pc := FailAndConclude(OperationalFault, "not committed", at, suspended);
      }
    }

    method Report(suspended: Pc) returns (conclusion: Conclusion)
      requires suspended.Concluding?
      ensures conclusion == Decide(Posted(), SuspendedAt(suspended))
    {
      if fenceLost {
        return OwnershipLost(machine.state);
      }
      var empty := outbox.IsEmpty();
      if !empty {
        return if IsTerminal(machine.state) then SettlementFailed(machine.state) else Unterminated(machine.state);
      }
      if IsTerminal(machine.state) {
        return if suspended.produced == NothingProduced then SettlementFailed(machine.state)
               else Terminal(machine.state, suspended.produced);
      }
      conclusion := if held then StillHeld(machine.state) else Unterminated(machine.state);
    }
  }

  lemma ReachKeepsCursors(m: Machine, kind: TransitionKind, why: string, at: string)
    requires CursorsOk(m)
    ensures CursorsOk(ReachTerminal(m, kind, why, at).1)
  {
  }

  lemma ProjectKeepsCursors(m: Machine, steps: seq<Step>)
    requires CursorsOk(m)
    ensures var (projection, m') := Project(m, steps);
      CursorsOk(m') && (projection.NotDeclared? ==> m' == m)
  {
  }

  lemma AdoptKeepsCursors(m: Machine, capability: Capability)
    requires CursorsOk(m)
    ensures CursorsOk(CommitProjected(m, capability).1)
  {
  }
}
