/**
 * The run machine: a declared table, a versioned write claim, projection capabilities, and the
 * cursors that say how much of the record has been handed over for journaling.
 */
module Machines {
  import opened Options
  import opened Visibility
  import opened Lifecycle

  /** One step to take or to project, with the clock reading taken for it. */
  datatype Step = Step(kind: TransitionKind, cause: string, at: string)

  datatype WriteClaim = WriteClaim(run: RunId, version: nat)

  /** `machine` and `mint` are the capability's object identity. */
  datatype Capability = Capability(machine: nat, mint: nat, entries: seq<TransitionEntry>, fromVersion: nat)

  datatype Machine = Machine(
    identity: nat,
    run: RunId,
    table: TransitionTable,
    transitions: seq<TransitionEntry>,
    rejections: seq<RejectionEntry>,
    state: LifecycleState,
    version: nat,
    journaledTransitions: nat,
    journaledRejections: nat,
    projections: set<Capability>,
    minted: nat)

  datatype TransitionResult = Advanced(entry: TransitionEntry) | Rejected(rejection: RejectionEntry)

  datatype Projection = Projected(capability: Capability) | NotDeclared(kind: TransitionKind, from: LifecycleState)

  datatype Adoption = Adopted | Unprojected | StaleProjection

  function Fresh(identity: nat, run: RunId, table: TransitionTable): Machine {
    Machine(identity, run, table, [], [], Requested, 0, 0, 0, {}, 0)
  }

  predicate Permits(m: Machine, kind: TransitionKind) {
    !IsTerminal(m.state) && DeclaredNext(m.table, m.state, kind).Some?
  }

  function Reject(m: Machine, kind: TransitionKind, reason: RejectionReason, detail: string, at: string)
    : (TransitionResult, Machine)
  {
    var entry := RejectionEntry(m.run, m.state, kind, reason, detail, at);
    (Rejected(entry), m.(rejections := m.rejections + [entry]))
  }

  function Apply(m: Machine, claim: WriteClaim, step: Step, detail: string): (r: (TransitionResult, Machine)) {
    if claim.run != m.run then Reject(m, step.kind, ForeignClaim, detail, step.at)
    else if claim.version != m.version then Reject(m, step.kind, StaleWriter, detail, step.at)
    else if IsTerminal(m.state) then Reject(m, step.kind, TerminalState, detail, step.at)
    else match DeclaredNext(m.table, m.state, step.kind)
      case None => Reject(m, step.kind, UndeclaredTransition, detail, step.at)
      case Some(next) =>
        var entry := TransitionEntry(m.run, m.state, next, step.kind, step.cause, step.at);
        (Advanced(entry), m.(state := next, version := m.version + 1, transitions := m.transitions + [entry]))
  }

  function Advance(m: Machine, step: Step, detail: string): (TransitionResult, Machine) {
    Apply(m, WriteClaim(m.run, m.version), step, detail)
  }

  function Hold(m: Machine, step: Step, detail: string): (TransitionResult, Machine) {
    Reject(m, step.kind, PreconditionUnmet, detail, step.at)
  }

  datatype Path = Declared(entries: seq<TransitionEntry>) | Undeclared(kind: TransitionKind, from: LifecycleState)

  /** The entries `steps` would take from `state`, or the first step that could not be taken. */
  function PathFrom(table: TransitionTable, run: RunId, state: LifecycleState, steps: seq<Step>): Path
    decreases steps
  {
    if steps == [] then Declared([])
    else
      var next := DeclaredNext(table, state, steps[0].kind);
      if IsTerminal(state) || next.None? then Undeclared(steps[0].kind, state)
      else match PathFrom(table, run, next.value, steps[1..])
        case Declared(rest) =>
          Declared([TransitionEntry(run, state, next.value, steps[0].kind, steps[0].cause, steps[0].at)] + rest)
        case Undeclared(kind, from) => Undeclared(kind, from)
  }

  function Project(m: Machine, steps: seq<Step>): (r: (Projection, Machine)) {
    match PathFrom(m.table, m.run, m.state, steps)
    case Undeclared(kind, from) => (NotDeclared(kind, from), m)
    case Declared(entries) =>
      var capability := Capability(m.identity, m.minted, entries, m.version);
      (Projected(capability), m.(projections := m.projections + {capability}, minted := m.minted + 1))
  }

  function StateAfter(state: LifecycleState, entries: seq<TransitionEntry>): LifecycleState {
    if entries == [] then state else entries[|entries| - 1].to
  }

  /** A refused adoption raises; only a recognised capability is consumed by the attempt. */
  function CommitProjected(m: Machine, capability: Capability): (r: (Adoption, Machine)) {
    if capability !in m.projections then (Unprojected, m)
    else
      var used := m.(projections := m.projections - {capability});
      if capability.fromVersion != m.version then (StaleProjection, used)
      else
        (Adopted, used.(transitions := m.transitions + capability.entries,
                        state := StateAfter(m.state, capability.entries),
                        version := m.version + |capability.entries|,
                        journaledTransitions := m.journaledTransitions + |capability.entries|))
  }

  function PendingTransitions(m: Machine): seq<TransitionEntry>
    requires m.journaledTransitions <= |m.transitions|
  {
    m.transitions[m.journaledTransitions..]
  }

  function PendingRejections(m: Machine): seq<RejectionEntry>
    requires m.journaledRejections <= |m.rejections|
  {
    m.rejections[m.journaledRejections..]
  }

  function ConfirmJournaled(m: Machine, transitions: nat, rejections: nat): Machine {
    m.(journaledTransitions := m.journaledTransitions + transitions,
       journaledRejections := m.journaledRejections + rejections)
  }

  // ------------------------------------------------------------------ the object

  class RunMachine {
    const identity: nat
    const run: RunId
    const table: TransitionTable
    var transitions: seq<TransitionEntry>
    var rejections: seq<RejectionEntry>
    var state: LifecycleState
    var version: nat
    var journaledTransitions: nat
    var journaledRejections: nat
    var projections: set<Capability>
    var minted: nat

    function State(): Machine
      reads this
    {
      Machine(identity, run, table, transitions, rejections, state, version, journaledTransitions,
              journaledRejections, projections, minted)
    }

    constructor (identity: nat, run: RunId, table: TransitionTable)
      ensures State() == Fresh(identity, run, table)
    {
      this.identity, this.run, this.table := identity, run, table;
      transitions, rejections, state, version := [], [], Requested, 0;
      journaledTransitions, journaledRejections, projections, minted := 0, 0, {}, 0;
    }

    method RejectStep(step: Step, reason: RejectionReason, detail: string) returns (result: TransitionResult)
      modifies this
      ensures (result, State()) == Reject(old(State()), step.kind, reason, detail, step.at)
    {
      var entry := RejectionEntry(run, state, step.kind, reason, detail, step.at);
      rejections := rejections + [entry];
      result := Rejected(entry);
    }

    method ApplyStep(claim: WriteClaim, step: Step, detail: string) returns (result: TransitionResult)
      modifies this
      ensures (result, State()) == Apply(old(State()), claim, step, detail)
    {
      if claim.run != run {
        result := RejectStep(step, ForeignClaim, detail);
        return;
      }
      if claim.version != version {
        result := RejectStep(step, StaleWriter, detail);
        return;
      }
      if IsTerminal(state) {
        result := RejectStep(step, TerminalState, detail);
        return;
      }
      var next := DeclaredNext(table, state, step.kind);
      if next.None? {
        result := RejectStep(step, UndeclaredTransition, detail);
        return;
      }
      var entry := TransitionEntry(run, state, next.value, step.kind, step.cause, step.at);
      state := next.value;
      version := version + 1;
      transitions := transitions + [entry];
      result := Advanced(entry);
    }

    method AdvanceStep(step: Step, detail: string) returns (result: TransitionResult)
      modifies this
      ensures (result, State()) == Advance(old(State()), step, detail)
    {
      result := ApplyStep(WriteClaim(run, version), step, detail);
    }

    method HoldStep(step: Step, detail: string) returns (result: TransitionResult)
      modifies this
      ensures (result, State()) == Hold(old(State()), step, detail)
    {
      result := RejectStep(step, PreconditionUnmet, detail);
    }

    method ProjectSteps(steps: seq<Step>) returns (projection: Projection)
      modifies this
      ensures (projection, State()) == Project(old(State()), steps)
    {
      var entries := [];
      var at := state;
      for i := 0 to |steps|
        invariant State() == old(State())
        invariant PathFrom(table, run, state, steps) ==
          match PathFrom(table, run, at, steps[i..])
          case Declared(rest) => Declared(entries + rest)
          case Undeclared(kind, from) => Undeclared(kind, from)
      {
        if IsTerminal(at) {
          return NotDeclared(steps[i].kind, at);
        }
        var next := DeclaredNext(table, at, steps[i].kind);
        if next.None? {
          return NotDeclared(steps[i].kind, at);
        }
        entries := entries + [TransitionEntry(run, at, next.value, steps[i].kind, steps[i].cause, steps[i].at)];
        at := next.value;
      }
      assert PathFrom(table, run, state, steps) == Declared(entries);
      var capability := Capability(identity, minted, entries, version);
      projections := projections + {capability};
      minted := minted + 1;
      projection := Projected(capability);
    }

    method AdoptProjection(capability: Capability) returns (adoption: Adoption)
      modifies this
      ensures (adoption, State()) == CommitProjected(old(State()), capability)
    {
      if capability !in projections {
        return Unprojected;
      }
      projections := projections - {capability};
      if capability.fromVersion != version {
        return StaleProjection;
      }
      var entries := capability.entries;
      for i := 0 to |entries|
        invariant transitions == old(transitions) + entries[..i]
        invariant state == StateAfter(old(state), entries[..i])
        invariant version == old(version) + i && projections == old(projections) - {capability}
        invariant State() == old(State()).(projections := projections, transitions := transitions, state := state, version := version)
      {
        transitions := transitions + [entries[i]];
        state := entries[i].to;
        version := version + 1;
      }
      assert entries[..|entries|] == entries;
      journaledTransitions := journaledTransitions + |entries|;
      adoption := Adopted;
    }

    method Confirm(transitionCount: nat, rejectionCount: nat)
      modifies this
      ensures State() == ConfirmJournaled(old(State()), transitionCount, rejectionCount)
    {
      journaledTransitions := journaledTransitions + transitionCount;
      journaledRejections := journaledRejections + rejectionCount;
    }
  }

  // ---------------------------------------------------- projection refines stepping

  /** Taking the steps one at a time: whether every one advanced, and the machine left behind. */
  function StepAll(m: Machine, steps: seq<Step>): (bool, Machine)
    decreases steps
  {
    if steps == [] then (true, m)
    else
      var (result, m1) := Advance(m, steps[0], "");
      if result.Rejected? then (false, m1) else StepAll(m1, steps[1..])
  }

  lemma {:induction false} PathIsStepping(m: Machine, steps: seq<Step>)
    ensures var path := PathFrom(m.table, m.run, m.state, steps);
      var (advanced, m') := StepAll(m, steps);
      && (path.Declared? <==> advanced)
      && (path.Declared? ==>
            && |path.entries| == |steps|
            && m' == m.(transitions := m.transitions + path.entries, state := StateAfter(m.state, path.entries),
                        version := m.version + |steps|))
    decreases steps
  {
    if steps != [] {
      var (result, m1) := Advance(m, steps[0], "");
      if result.Advanced? {
        PathIsStepping(m1, steps[1..]);
        var rest := PathFrom(m1.table, m1.run, m1.state, steps[1..]);
        if rest.Declared? {
          assert m.transitions + ([result.entry] + rest.entries) == (m.transitions + [result.entry]) + rest.entries;
        }
      }
    }
  }

  /**
   * A projection succeeds exactly when taking the same steps one by one would advance every time,
   * and adopting it — however many rejections and other projections happened in between — reaches
   * the state, version and record that stepping would have reached.
   */
  lemma ProjectionRefinesStepping(m: Machine, steps: seq<Step>, later: Machine)
    requires var (projection, _) := Project(m, steps);
      projection.Projected? ==>
        && later.version == m.version && later.state == m.state && later.transitions == m.transitions
        && projection.capability in later.projections
    ensures var (projection, m1) := Project(m, steps);
      var (advanced, stepped) := StepAll(m, steps);
      && (projection.Projected? <==> advanced)
      && m1.transitions == m.transitions && m1.state == m.state && m1.version == m.version
      && (projection.Projected? ==>
            var (adoption, m2) := CommitProjected(later, projection.capability);
            && adoption == Adopted && m2.state == stepped.state && m2.version == stepped.version
            && m2.transitions == stepped.transitions
            && CommitProjected(m2, projection.capability).0 == Unprojected)
  {
    PathIsStepping(m, steps);
  }

  /** The pure query answers exactly whether an advance would be granted. */
  lemma PermitsIsAdvancing(m: Machine, step: Step, detail: string)
    ensures Permits(m, step.kind) <==> Advance(m, step, detail).0.Advanced?
  {
  }

  // ------------------------------------------------------------- whole histories

  datatype Action =
    | Applying(claim: WriteClaim, step: Step, detail: string)
    | Holding(step: Step, detail: string)
    | Projecting(steps: seq<Step>)
    | Adopting(capability: Capability)
    | Confirming(transitions: nat, rejections: nat)

  function Next(m: Machine, action: Action): Machine {
    match action
    case Applying(claim, step, detail) => Apply(m, claim, step, detail).1
    case Holding(step, detail) => Hold(m, step, detail).1
    case Projecting(steps) => Project(m, steps).1
    case Adopting(capability) => CommitProjected(m, capability).1
    case Confirming(transitions, rejections) => ConfirmJournaled(m, transitions, rejections)
  }

  function Play(m: Machine, actions: seq<Action>): Machine
    decreases actions
  {
    if actions == [] then m else Play(Next(m, actions[0]), actions[1..])
  }

  /** `entries` is a walk over the table that starts in `from` and never leaves a terminal. */
  ghost predicate IsChain(table: TransitionTable, run: RunId, from: LifecycleState, entries: seq<TransitionEntry>) {
    forall i | 0 <= i < |entries| :: IsLink(table, run, from, entries, i)
  }

  ghost predicate IsLink(table: TransitionTable, run: RunId, from: LifecycleState, entries: seq<TransitionEntry>, i: nat)
    requires i < |entries|
  {
    && entries[i].run == run
    && entries[i].from == (if i == 0 then from else entries[i - 1].to)
    && !IsTerminal(entries[i].from)
    && DeclaredNext(table, entries[i].from, entries[i].kind) == Some(entries[i].to)
  }

  ghost predicate Valid(m: Machine) {
    && IsChain(m.table, m.run, Requested, m.transitions)
    && m.state == StateAfter(Requested, m.transitions)
    && m.version == |m.transitions|
    && (forall c | c in m.projections ::
          && c.machine == m.identity && c.mint < m.minted && c.fromVersion <= m.version
          && (c.fromVersion == m.version ==> IsChain(m.table, m.run, m.state, c.entries)))
  }

  lemma {:induction false} PathIsChain(table: TransitionTable, run: RunId, state: LifecycleState, steps: seq<Step>)
    ensures var path := PathFrom(table, run, state, steps); path.Declared? ==> IsChain(table, run, state, path.entries)
    decreases steps
  {
    if steps != [] && !IsTerminal(state) {
      var next := DeclaredNext(table, state, steps[0].kind);
      if next.Some? {
        PathIsChain(table, run, next.value, steps[1..]);
        var rest := PathFrom(table, run, next.value, steps[1..]);
        if rest.Declared? {
          var first := TransitionEntry(run, state, next.value, steps[0].kind, steps[0].cause, steps[0].at);
          ChainsJoin(table, run, state, [first], rest.entries);
        }
      }
    }
  }

  lemma ChainsJoin(table: TransitionTable, run: RunId, from: LifecycleState, a: seq<TransitionEntry>, b: seq<TransitionEntry>)
    requires IsChain(table, run, from, a) && IsChain(table, run, StateAfter(from, a), b)
    ensures IsChain(table, run, from, a + b) && StateAfter(from, a + b) == StateAfter(StateAfter(from, a), b)
  {
    var all := a + b;
    forall i | 0 <= i < |all|
      ensures IsLink(table, run, from, all, i)
    {
      if i < |a| {
        assert IsLink(table, run, from, a, i);
      } else {
        var j := i - |a|;
        assert IsLink(table, run, StateAfter(from, a), b, j);
      }
    }
  }

  lemma NextKeepsValid(m: Machine, action: Action)
    requires Valid(m)
    ensures Valid(Next(m, action))
    ensures var m' := Next(m, action);
      m'.table == m.table && m'.run == m.run && m'.identity == m.identity && m.transitions <= m'.transitions
  {
    match action
    case Applying(claim, step, detail) =>
      var (result, m') := Apply(m, claim, step, detail);
      if result.Advanced? {
        ChainsJoin(m.table, m.run, Requested, m.transitions, [result.entry]);
      }
    case Holding(step, detail) =>
    case Projecting(steps) => PathIsChain(m.table, m.run, m.state, steps);
    case Adopting(capability) =>
      if capability in m.projections && capability.fromVersion == m.version {
        ChainsJoin(m.table, m.run, Requested, m.transitions, capability.entries);
        if capability.entries == [] {
          assert m.transitions + capability.entries == m.transitions;
        }
      }
    case Confirming(_, _) =>
  }

  function Rank(state: LifecycleState): nat {
    match state
    case Requested => 0
    case ProfileResolved => 1
    case Eligible => 2
    case SandboxStarted => 3
    case Running => 4
    case Verifying => 5
    case EvidenceSealed => 6
    case _ => 7
  }

  lemma DeclaredStepsClimb(state: LifecycleState, kind: TransitionKind)
    requires !IsTerminal(state) && DeclaredNext(TRANSITIONS, state, kind).Some?
    ensures Rank(state) < Rank(DeclaredNext(TRANSITIONS, state, kind).value)
  {
  }

  lemma {:induction false} ChainsAreShort(table: TransitionTable, run: RunId, entries: seq<TransitionEntry>)
    requires IsSubTable(table, TRANSITIONS) && IsChain(table, run, Requested, entries)
    ensures |entries| <= Rank(StateAfter(Requested, entries)) <= 7
  {
    if entries != [] {
      var last := |entries| - 1;
      forall i | 0 <= i < last
        ensures IsLink(table, run, Requested, entries[..last], i)
      {
        assert IsLink(table, run, Requested, entries, i);
      }
      ChainsAreShort(table, run, entries[..last]);
      assert IsLink(table, run, Requested, entries, last);
      DeclaredStepsClimb(entries[last].from, entries[last].kind);
    }
  }

  /**
   * Over every history of claims, holds, projections and adoptions: the record is a walk of the
   * declared table from REQUESTED, the version is its length, the state is where it ends, it only
   * ever grows, and under any narrowing of the canonical table it has at most seven entries.
   */
  lemma {:induction false} RecordIsAWalk(m: Machine, actions: seq<Action>)
    requires Valid(m)
    ensures var m' := Play(m, actions);
      && Valid(m') && m'.table == m.table && m'.run == m.run && m'.identity == m.identity && m.transitions <= m'.transitions
      && (IsTerminal(m.state) ==> m'.transitions == m.transitions && m'.state == m.state)
      && (IsSubTable(m.table, TRANSITIONS) ==> |m'.transitions| <= 7)
    decreases actions
  {
    if actions == [] {
      if IsSubTable(m.table, TRANSITIONS) {
        ChainsAreShort(m.table, m.run, m.transitions);
      }
    } else {
      NextKeepsValid(m, actions[0]);
      RecordIsAWalk(Next(m, actions[0]), actions[1..]);
      if IsTerminal(m.state) {
        TerminalIsFinal(m, actions[0]);
      }
    }
  }

  lemma TerminalIsFinal(m: Machine, action: Action)
    requires Valid(m) && IsTerminal(m.state)
    ensures Next(m, action).transitions == m.transitions && Next(m, action).state == m.state
  {
    if action.Adopting? && action.capability in m.projections && action.capability.fromVersion == m.version {
      var entries := action.capability.entries;
      assert IsChain(m.table, m.run, m.state, entries);
      assert 0 < |entries| ==> IsLink(m.table, m.run, m.state, entries, 0);
    }
  }

  lemma FreshIsValid(identity: nat, run: RunId, table: TransitionTable)
    ensures Valid(Fresh(identity, run, table))
  {
  }

  /**
   * No forged, foreign, reused or stale capability moves a machine: adoption happens only for a
   * capability this machine minted and has not consumed, at the version it was projected from.
   */
  lemma OnlyMintedCapabilitiesMove(m: Machine, capability: Capability)
    requires Valid(m)
    ensures var (adoption, m') := CommitProjected(m, capability);
      && (adoption == Adopted <==> capability in m.projections && capability.fromVersion == m.version)
      && (adoption != Adopted ==> m'.transitions == m.transitions && m'.state == m.state && m'.version == m.version
                                   && m'.journaledTransitions == m.journaledTransitions)
      && (capability.machine != m.identity || capability.mint >= m.minted ==> adoption == Unprojected)
      && CommitProjected(m', capability).0 == Unprojected
      && (adoption == Adopted && capability.entries != [] ==>
            forall other :: CommitProjected(m', other).0 == Adopted ==> other.fromVersion > capability.fromVersion)
  {
  }

  /** Two projections from one version: adopting the first makes the second unusable for good. */
  lemma {:induction false} VersionsOnlyRise(m: Machine, actions: seq<Action>, stale: Capability)
    requires Valid(m) && stale.fromVersion < m.version
    ensures CommitProjected(Play(m, actions), stale).0 != Adopted
    decreases actions
  {
    if actions != [] {
      NextKeepsValid(m, actions[0]);
      VersionsOnlyRise(Next(m, actions[0]), actions[1..], stale);
    }
  }
}
