/** The walk engine: which phases get to act, given what the machine accepted before them. */
module Walk {
  import opened Options
  import opened Visibility
  import opened Lifecycle
  import opened Machines

  datatype PhaseCommand<T> = Earned(cause: string) | Terminate(value: T) | Hold(detail: string)

  datatype Phase = Phase(name: string, earns: TransitionKind)

  /** What would happen at one phase: whether the run is lost before it, and what its effects conclude. */
  datatype PhaseRun<T> = PhaseRun(lost: Option<string>, command: PhaseCommand<T>, at: string)

  datatype WalkOutcome<T> =
    | Walked
    | Terminated(value: T)
    | HeldBack(detail: string)
    | Halted(phase: string, rejection: RejectionEntry)
    | LostBefore(phase: string, reason: string)

  /** The outcome, the machine, and how many phases' effects ran. */
  datatype WalkEnd<T> = WalkEnd(outcome: WalkOutcome<T>, machine: Machine, ran: nat)

  function WalkFrom<T>(m: Machine, phases: seq<Phase>, runs: seq<PhaseRun<T>>): (r: WalkEnd<T>)
    requires |runs| == |phases|
    decreases phases
  {
    if phases == [] then WalkEnd(Walked, m, 0)
    else if runs[0].lost.Some? then WalkEnd(LostBefore(phases[0].name, runs[0].lost.value), m, 0)
    else match runs[0].command
      case Terminate(value) => WalkEnd(Terminated(value), m, 1)
      case Hold(detail) =>
        WalkEnd(HeldBack(detail), Machines.Hold(m, Step(phases[0].earns, "", runs[0].at), detail).1, 1)
      case Earned(cause) =>
        var (applied, m') := Advance(m, Step(phases[0].earns, cause, runs[0].at), "");
        if applied.Rejected? then WalkEnd(Halted(phases[0].name, applied.rejection), m', 1)
        else
          var rest := WalkFrom(m', phases[1..], runs[1..]);
          rest.(ran := rest.ran + 1)
  }

  method WalkPhases<T(0)>(machine: RunMachine, phases: seq<Phase>, runs: seq<PhaseRun<T>>)
    returns (outcome: WalkOutcome<T>, ghost ran: nat)
    requires |runs| == |phases|
    modifies machine
    ensures WalkEnd(outcome, machine.State(), ran) == WalkFrom(old(machine.State()), phases, runs)
  {
    ran := 0;
    for i := 0 to |phases|
      invariant ran == i
      invariant var whole := WalkFrom(old(machine.State()), phases, runs);
        var rest := WalkFrom(machine.State(), phases[i..], runs[i..]);
        whole == rest.(ran := rest.ran + i)
    {
      if runs[i].lost.Some? {
        return LostBefore(phases[i].name, runs[i].lost.value), ran;
      }
      ran := ran + 1;
      match runs[i].command {
        case Terminate(value) => return Terminated(value), ran;
        case Hold(detail) =>
          var _ := machine.HoldStep(Step(phases[i].earns, "", runs[i].at), detail);
          return HeldBack(detail), ran;
        case Earned(cause) =>
          var applied := machine.AdvanceStep(Step(phases[i].earns, cause, runs[i].at), "");
          if applied.Rejected? {
            return Halted(phases[i].name, applied.rejection), ran;
          }
      }
    }
    outcome := Walked;
  }

  function KindsOf(entries: seq<TransitionEntry>): seq<TransitionKind> {
    seq(|entries|, i requires 0 <= i < |entries| => entries[i].kind)
  }

  function EarnedKinds(phases: seq<Phase>): seq<TransitionKind> {
    seq(|phases|, i requires 0 <= i < |phases| => phases[i].earns)
  }

  /** `taken` are the transitions of the first phases, and all but at most one phase that ran has its own. */
  predicate Follows<T>(end: WalkEnd<T>, before: seq<TransitionEntry>, phases: seq<Phase>)
    requires before <= end.machine.transitions
  {
    var taken := KindsOf(end.machine.transitions[|before|..]);
    && end.ran <= |phases|
    && (|taken| == end.ran || |taken| + 1 == end.ran)
    && taken == EarnedKinds(phases[..|taken|])
    && (end.outcome.Walked? <==> |taken| == |phases|)
    && (end.outcome.LostBefore? ==> |taken| == end.ran)
    && (end.outcome.Halted? || end.outcome.HeldBack? || end.outcome.Terminated? ==> |taken| + 1 == end.ran)
  }

  lemma FollowsOneMore<T>(rest: WalkEnd<T>, before: seq<TransitionEntry>, entry: TransitionEntry, phases: seq<Phase>)
    requires phases != [] && entry.kind == phases[0].earns && before + [entry] <= rest.machine.transitions
    requires Follows(rest, before + [entry], phases[1..])
    ensures Follows(rest.(ran := rest.ran + 1), before, phases)
  {
    var all := rest.machine.transitions;
    var more := all[|before| + 1..];
    assert all[|before|..] == [entry] + more;
    assert KindsOf([entry] + more) == [entry.kind] + KindsOf(more);
    assert EarnedKinds(phases[..|more| + 1]) == [phases[0].earns] + EarnedKinds(phases[1..][..|more|]);
  }

  /**
   * Effects follow the machine: when the effects of `ran` phases ran, the transitions of all but
   * possibly the last of them were applied, in order, before it; a walk that reached its end
   * applied every one.
   */
  lemma {:induction false} EffectsFollowTransitions<T>(m: Machine, phases: seq<Phase>, runs: seq<PhaseRun<T>>)
    requires |runs| == |phases|
    ensures var end := WalkFrom(m, phases, runs);
      m.transitions <= end.machine.transitions && Follows(end, m.transitions, phases)
    decreases phases
  {
    if phases != [] && runs[0].lost.None? && runs[0].command.Earned? {
      var (applied, m') := Advance(m, Step(phases[0].earns, runs[0].command.cause, runs[0].at), "");
      if applied.Advanced? {
        EffectsFollowTransitions(m', phases[1..], runs[1..]);
        hide Follows;
        FollowsOneMore(WalkFrom(m', phases[1..], runs[1..]), m.transitions, applied.entry, phases);
      }
    }
  }

  /** Same run so far, under a narrower table. */
  predicate Alike(narrow: Machine, wide: Machine) {
    wide == narrow.(table := wide.table)
  }

  /**
   * Narrowing the table narrows the effects: for any phase outcomes, the phases whose effects run
   * under a sub-table are a prefix of those that run under the full table, the transitions taken
   * are a prefix too, and the two walks differ only where the narrower table refused.
   */
  lemma {:induction false} NarrowingNarrowsEffects<T>(narrow: Machine, wide: Machine, phases: seq<Phase>, runs: seq<PhaseRun<T>>)
    requires |runs| == |phases| && Alike(narrow, wide) && IsSubTable(narrow.table, wide.table)
    ensures var (n, w) := (WalkFrom(narrow, phases, runs), WalkFrom(wide, phases, runs));
      && n.ran <= w.ran
      && n.machine.transitions <= w.machine.transitions
      && (n.outcome.Halted? || (n.outcome == w.outcome && n.ran == w.ran && Alike(n.machine, w.machine)))
    decreases phases
  {
    if phases != [] && runs[0].lost.None? && runs[0].command.Earned? {
      var step := Step(phases[0].earns, runs[0].command.cause, runs[0].at);
      var (applied, narrow') := Advance(narrow, step, "");
      var (granted, wide') := Advance(wide, step, "");
      if applied.Advanced? {
        assert DeclaredNext(wide.table, wide.state, step.kind) == DeclaredNext(narrow.table, narrow.state, step.kind);
        NarrowingNarrowsEffects(narrow', wide', phases[1..], runs[1..]);
      } else {
        EffectsFollowTransitions(wide, phases, runs);
      }
    }
  }
}
