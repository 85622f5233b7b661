/**
 * The closed lifecycle vocabulary and the declared transition table, as data.
 */
module Lifecycle {
  import opened Options
  import opened Visibility

  datatype LifecycleState =
    | Requested | ProfileResolved | Eligible | SandboxStarted
    | Running | Verifying | EvidenceSealed | Completed
    | Refused | OperationalFailure | Cancelled | TimedOut | Indeterminate

  datatype TransitionKind =
    | ResolveProfile | DecideEligibility | CommitSpend | BeginExecution
    | BeginVerification | SealEvidence | Complete
    | Refuse | OperationalFault | Cancel | Timeout | BecomeIndeterminate

  datatype TransitionEntry = TransitionEntry(
    run: RunId, from: LifecycleState, to: LifecycleState,
    kind: TransitionKind, cause: string, at: string)

  datatype RejectionReason = UndeclaredTransition | TerminalState | StaleWriter | PreconditionUnmet | ForeignClaim

  datatype RejectionEntry = RejectionEntry(
    run: RunId, state: LifecycleState, attempted: TransitionKind,
    reason: RejectionReason, detail: string, at: string)

  predicate IsTerminal(state: LifecycleState) {
    state in {Completed, Refused, OperationalFailure, Cancelled, TimedOut, Indeterminate}
  }

  type Row = map<TransitionKind, LifecycleState>
  type TransitionTable = map<LifecycleState, Row>

  const TERMINAL_BRANCHES: Row :=
    map[Refuse := Refused, OperationalFault := OperationalFailure, Cancel := Cancelled,
        Timeout := TimedOut, BecomeIndeterminate := Indeterminate]

  const TRANSITIONS: TransitionTable :=
    map[Requested := TERMINAL_BRANCHES[ResolveProfile := ProfileResolved],
        ProfileResolved := TERMINAL_BRANCHES[DecideEligibility := Eligible],
        Eligible := TERMINAL_BRANCHES[CommitSpend := SandboxStarted],
        SandboxStarted := TERMINAL_BRANCHES[BeginExecution := Running],
        Running := TERMINAL_BRANCHES[BeginVerification := Verifying],
        Verifying := TERMINAL_BRANCHES[SealEvidence := EvidenceSealed],
        EvidenceSealed := TERMINAL_BRANCHES[Complete := Completed],
        Completed := map[]]

  function DeclaredNext(table: TransitionTable, state: LifecycleState, kind: TransitionKind): Option<LifecycleState> {
    if state in table && kind in table[state] then Some(table[state][kind]) else None
  }

  /** Every pair of `table` is a pair of `canonical`, leading to the same state. */
  ghost predicate IsSubTable(table: TransitionTable, canonical: TransitionTable) {
    forall state, kind :: DeclaredNext(table, state, kind).Some? ==>
      DeclaredNext(canonical, state, kind) == DeclaredNext(table, state, kind)
  }
}
