/** What one ownership's segments keep: its record, its outbox, and where it is in ending. */
module DurableWalkOwners {
  import opened Options
  import opened Visibility
  import opened Fence
  import opened Lifecycle
  import opened Journal
  import opened Machines
  import opened Outboxes
  import opened ExactlyOnce
  import opened Scopes
  import opened PageOrder
  import opened DurableWalk
  import F = Finalization

  ghost predicate MachineOk(run: RunId, m: Machine) {
    Machines.Valid(m) && m.run == run && IsSubTable(m.table, TRANSITIONS) && CursorsOk(m)
  }

  /** What was handed to the outbox, and then the committed tail, is the journaled part of the record. */
  ghost predicate HandedOver(recorded: seq<Fact>, a: Attempt) {
    && CursorsOk(a.machine)
    && FactTransitions(recorded) + a.tail == a.machine.transitions[..a.machine.journaledTransitions]
    && (a.tail != [] ==> a.machine.journaledTransitions == |a.machine.transitions|)
  }

  ghost predicate OwnerSound(run: RunId, g: Generation, c: Courier, a: Attempt, landed: seq<Fact>) {
    CourierOk(run, g, c) && PrefixOk(c, landed) && MachineOk(run, a.machine) && HandedOver(c.recorded, a)
  }

  /** An ownership only ever records more. */
  ghost predicate Grows(c: Courier, a: Attempt, c': Courier, a': Attempt) {
    && c.recorded <= c'.recorded && Acked(c) <= Acked(c')
    && a'.machine.table == a.machine.table && a.machine.transitions <= a'.machine.transitions
    && (c.lost ==> c'.lost)
  }

  /** No transition from `landed` on starts before `first` does. */
  ghost predicate Bounded(m: Machine, landed: nat, first: TransitionEntry) {
    && Rank(first.from) <= Rank(m.state)
    && (forall i | landed <= i < |m.transitions| :: Rank(first.from) <= Rank(m.transitions[i].from))
  }

  predicate IsDrained(m: Machine) {
    m.journaledTransitions == |m.transitions| && m.journaledRejections == |m.rejections|
  }

  // ------------------------------------------------------------------- climbing

  lemma {:induction false} RanksClimb(table: TransitionTable, run: RunId, entries: seq<TransitionEntry>, i: nat, j: nat)
    requires IsSubTable(table, TRANSITIONS) && IsChain(table, run, Requested, entries) && i < j <= |entries|
    ensures Rank(entries[i].from) < Rank(if j == |entries| then StateAfter(Requested, entries) else entries[j].from)
    decreases j
  {
    var k := j - 1;
    assert IsLink(table, run, Requested, entries, k);
    assert DeclaredNext(table, entries[k].from, entries[k].kind).Some?;
    DeclaredStepsClimb(entries[k].from, entries[k].kind);
    if j < |entries| {
      assert IsLink(table, run, Requested, entries, j);
    }
    if i < k {
      RanksClimb(table, run, entries, i, k);
    }
  }

  lemma EarlierStartsLower(run: RunId, m: Machine)
    requires MachineOk(run, m)
    ensures forall i | 0 <= i < |m.transitions| :: Rank(m.transitions[i].from) < Rank(m.state)
    ensures forall i, j | 0 <= i < j < |m.transitions| :: Rank(m.transitions[i].from) < Rank(m.transitions[j].from)
  {
    forall i | 0 <= i < |m.transitions|
      ensures Rank(m.transitions[i].from) < Rank(m.state)
    {
      RanksClimb(m.table, m.run, m.transitions, i, |m.transitions|);
    }
    forall i, j | 0 <= i < j < |m.transitions|
      ensures Rank(m.transitions[i].from) < Rank(m.transitions[j].from)
    {
      RanksClimb(m.table, m.run, m.transitions, i, j);
    }
  }

  /** A machine that moves on only adds transitions that start no earlier than where it was. */
  lemma BoundGrows(run: RunId, m: Machine, m': Machine, landed: nat, landed': nat, first: TransitionEntry)
    requires MachineOk(run, m) && MachineOk(run, m') && m'.table == m.table && m.transitions <= m'.transitions
    requires Bounded(m, landed, first) && landed <= landed'
    ensures Bounded(m', landed', first)
  {
    EarlierStartsLower(run, m');
    var n := |m.transitions|;
    if n < |m'.transitions| {
      assert IsLink(m'.table, m'.run, Requested, m'.transitions, n);
      assert n > 0 ==> m'.transitions[n - 1] == m.transitions[n - 1];
      assert m'.transitions[n].from == m.state;
    } else {
      assert m'.transitions == m.transitions;
    }
  }

  // ------------------------------------------------------------------ handing over

  lemma {:induction false} HandedFacts(transitions: seq<TransitionEntry>, rejections: seq<RejectionEntry>)
    ensures FactTransitions(TransitionFacts(transitions) + RejectionFacts(rejections)) == transitions
    decreases |transitions| + |rejections|
  {
    var facts := TransitionFacts(transitions) + RejectionFacts(rejections);
    if rejections != [] {
      var n := |rejections| - 1;
      HandedFacts(transitions, rejections[..n]);
      assert facts[..|facts| - 1] == TransitionFacts(transitions) + RejectionFacts(rejections[..n]);
    } else if transitions != [] {
      var n := |transitions| - 1;
      HandedFacts(transitions[..n], []);
      assert facts[..|facts| - 1] == TransitionFacts(transitions[..n]) + RejectionFacts([]);
    }
  }

  lemma RecordedCourier(run: RunId, g: Generation, c: Courier, facts: seq<Fact>, landed: seq<Fact>)
    requires CourierOk(run, g, c) && PrefixOk(c, landed)
    ensures var c' := c.(recorded := c.recorded + facts, outbox := RecordAll(c.outbox, facts));
      CourierOk(run, g, c') && PrefixOk(c', landed) && Acked(c') == Acked(c)
  {
    assert (c.recorded + facts)[Acked(c)..] == c.recorded[Acked(c)..] + facts;
    RecordingIsQueueing(c.outbox.(pending := [], minted := Acked(c)), c.recorded[Acked(c)..], facts);
  }

  /** Handing the rest of the record over leaves nothing behind. */
  lemma DrainHandsOver(recorded: seq<Fact>, a: Attempt)
    requires HandedOver(recorded, a)
    ensures HandedOver(recorded + Undrained(a.machine), a.(machine := Drained(a.machine)))
  {
    var m := a.machine;
    var pending := PendingTransitions(m);
    HandedFacts(pending, PendingRejections(m));
    FactTransitionsSplit(recorded, Undrained(m));
    assert m.transitions == m.transitions[..m.journaledTransitions] + pending;
    assert m.transitions[..|m.transitions|] == m.transitions;
    hide FactTransitions, TransitionFacts, RejectionFacts;
    if a.tail == [] {
      assert FactTransitions(recorded) + [] == m.transitions[..m.journaledTransitions];
      assert FactTransitions(recorded) + pending + [] == m.transitions;
    } else {
      assert pending == [];
      assert FactTransitions(recorded) + pending == FactTransitions(recorded);
    }
  }

  lemma TickKeeps(run: RunId, g: Generation, c: Courier, a: Attempt, landed: seq<Fact>)
    requires OwnerSound(run, g, c, a, landed)
    ensures var (c', a') := Tick(c, a);
      && OwnerSound(run, g, c', a', landed) && Grows(c, a, c', a') && c'.lost == c.lost
      && a' == a.(machine := a'.machine) && a'.machine.transitions == a.machine.transitions && a'.machine.state == a.machine.state
      && a'.machine.projections == a.machine.projections && a'.machine.version == a.machine.version
      && (!c'.lost ==> IsDrained(a'.machine))
      && (c.lost ==> c' == c && a' == a)
  {
    hide HandedOver, CourierOk, PrefixOk, Undrained, IsSubTable;
    if !c.lost {
      RecordedCourier(run, g, c, Undrained(a.machine), landed);
      DrainHandsOver(c.recorded, a);
    }
  }

  lemma ReachKeeps(run: RunId, m: Machine, kind: TransitionKind, why: string, at: string)
    requires MachineOk(run, m)
    ensures var m' := ReachTerminal(m, kind, why, at).1;
      && MachineOk(run, m') && m'.table == m.table && m.transitions <= m'.transitions
      && m'.journaledTransitions == m.journaledTransitions
  {
    OneAdvance(m, Machines.Step(kind, why, at));
    OneAdvance(Advance(m, Machines.Step(kind, why, at), "").1, Machines.Step(BecomeIndeterminate, why, at));
    hide Advance, Machines.Valid, IsSubTable;
  }

  /** A machine that only recorded more still agrees with what was handed over. */
  lemma MachineGrowsUnder(recorded: seq<Fact>, a: Attempt, m: Machine)
    requires HandedOver(recorded, a) && a.tail == [] && CursorsOk(m)
    requires a.machine.transitions <= m.transitions && m.journaledTransitions == a.machine.journaledTransitions
    ensures HandedOver(recorded, a.(machine := m))
  {
    assert m.transitions[..m.journaledTransitions] == a.machine.transitions[..m.journaledTransitions];
  }

  lemma ConcludeKeeps(run: RunId, g: Generation, c: Courier, a: Attempt, landed: seq<Fact>, produced: Produced)
    requires OwnerSound(run, g, c, a, landed)
    ensures var (c', a') := BeginConclude(c, a, produced);
      && OwnerSound(run, g, c', a', landed) && Grows(c, a, c', a') && c'.lost == c.lost && a'.pc == Concluding(produced)
      && a'.tail == a.tail && a'.machine.transitions == a.machine.transitions && a'.earlyRecord == a.earlyRecord
      && (!c'.lost ==> IsDrained(a'.machine))
  {
    TickKeeps(run, g, c, a, landed);
  }

  lemma FailKeeps(run: RunId, g: Generation, c: Courier, a: Attempt, landed: seq<Fact>, kind: TransitionKind, why: string, at: string)
    requires OwnerSound(run, g, c, a, landed) && a.tail == []
    ensures var (c', a') := FailClosed(c, a, kind, why, at);
      && OwnerSound(run, g, c', a', landed) && Grows(c, a, c', a') && a'.pc == Concluding(NothingProduced) && a'.tail == []
      && (!c'.lost ==> IsDrained(a'.machine))
  {
    var m := ReachTerminal(a.machine, kind, why, at).1;
    ReachKeeps(run, a.machine, kind, why, at);
    MachineGrowsUnder(c.recorded, a, m);
    ConcludeKeeps(run, g, c, a.(machine := m), landed, NothingProduced);
  }

  lemma ProjectKeeps(run: RunId, m: Machine, steps: seq<Machines.Step>)
    requires MachineOk(run, m)
    ensures var (projection, m') := Project(m, steps);
      && MachineOk(run, m') && m'.table == m.table && m'.transitions == m.transitions && m'.state == m.state
      && m'.journaledTransitions == m.journaledTransitions
      && (projection.Projected? ==> |projection.capability.entries| == |steps|
                                    && (steps != [] ==> projection.capability.entries[0].from == m.state))
  {
    NextKeepsValid(m, Projecting(steps));
    PathIsStepping(m, steps);
  }

  /** How `finish` leaves the attempt: concluding over a drained record, or sealing a projection over one. */
  ghost predicate Started(run: RunId, g: Generation, c: Courier, a: Attempt, landed: seq<Fact>, c': Courier, a': Attempt) {
    && OwnerSound(run, g, c', a', landed) && Grows(c, a, c', a') && a'.tail == []
    && (a'.pc == Concluding(NothingProduced) || a'.pc.Sealing?)
    && (a'.pc.Sealing? ==> a'.pc.capability.entries != []
                           && Bounded(a'.machine, |FactTransitions(c'.recorded)|, a'.pc.capability.entries[0]))
    && (a'.pc.Concluding? && !c'.lost ==> IsDrained(a'.machine))
  }

  lemma StartedFailing(run: RunId, g: Generation, c: Courier, a: Attempt, landed: seq<Fact>, kind: TransitionKind, why: string, at: string)
    requires OwnerSound(run, g, c, a, landed) && a.tail == []
    ensures var (c', a') := FailClosed(c, a, kind, why, at); Started(run, g, c, a, landed, c', a')
  {
    FailKeeps(run, g, c, a, landed, kind, why, at);
    hide FailClosed, OwnerSound, Bounded, Grows;
  }

  lemma StartedSealing(run: RunId, g: Generation, c: Courier, a: Attempt, landed: seq<Fact>, kind: TransitionKind,
                       steps: seq<Machines.Step>)
    requires OwnerSound(run, g, c, a, landed) && a.tail == [] && !c.lost && steps != []
    ensures var (projection, m) := Project(a.machine, steps);
      projection.Projected? ==>
        var (c', a') := Tick(c, a.(machine := m));
        Started(run, g, c, a, landed, c', a'.(pc := Sealing(kind, projection.capability)))
  {
    hide Project, Machines.Valid;
    ProjectKeeps(run, a.machine, steps);
    var (projection, m) := Project(a.machine, steps);
    if projection.Projected? {
      MachineGrowsUnder(c.recorded, a, m);
      hide CourierOk, PrefixOk, IsSubTable;
      assert OwnerSound(run, g, c, a.(machine := m), landed);
      TickKeeps(run, g, c, a.(machine := m), landed);
      hide Tick;
      var (c', a') := Tick(c, a.(machine := m));
      assert a'.machine.transitions[..|a'.machine.transitions|] == a'.machine.transitions;
      assert FactTransitions(c'.recorded) + [] == a'.machine.transitions;
    }
  }

  /** `finish` suspends with its whole record handed over, or is already concluding. */
  lemma StartFinishKeeps(run: RunId, g: Generation, c: Courier, a: Attempt, landed: seq<Fact>,
                         kind: TransitionKind, detail: string, assembly: Assembly, at: string)
    requires OwnerSound(run, g, c, a, landed) && a.tail == []
    ensures var (c', a') := StartFinish(c, a, kind, detail, assembly, at); Started(run, g, c, a, landed, c', a')
  {
    hide Tick, Project, FailClosed, Bounded, CourierOk, PrefixOk, MachineOk;
    if c.lost {
      ConcludeKeeps(run, g, c, a, landed, NothingProduced);
    } else if assembly.NotAssembled? {
      StartedFailing(run, g, c, a, landed, if assembly.refusal then Refuse else OperationalFault, detail, at);
    } else {
      StartedFailing(run, g, c, a, landed, OperationalFault, detail, at);
      StartedSealing(run, g, c, a, landed, kind, FinishSteps(kind, detail, at));
    }
  }

  lemma GateKeeps(run: RunId, g: Generation, c: Courier, a: Attempt, landed: seq<Fact>, eligible: bool, call: nat, at: string)
    requires OwnerSound(run, g, c, a, landed) && a.tail == [] && a.pc.Sealing?
    ensures var (c', a') := SealGate(c, a, eligible, call, at);
      && OwnerSound(run, g, c', a', landed) && Grows(c, a, c', a') && a'.tail == []
      && (a'.pc == Concluding(NothingProduced)
          || (a'.pc == Committing(a.pc.kind, a.pc.capability, call) && c' == c && a' == a.(pc := a'.pc) && c.outbox.pending == []))
      && (a'.pc.Concluding? && !c'.lost ==> IsDrained(a'.machine))
  {
    FailKeeps(run, g, c, a, landed, OperationalFault, "not sealed", at);
    hide FailClosed;
  }

  /**
   * The cursor is fully drained before the tail's length is added to it: everything the machine
   * recorded before the projection was handed over and landed.
   */
  lemma DrainedBeforeAdoption(run: RunId, g: Generation, c: Courier, a: Attempt, landed: seq<Fact>, capability: Capability)
    requires OwnerSound(run, g, c, a, landed) && a.tail == [] && capability.entries != []
    requires capability in a.machine.projections && capability.fromVersion == a.machine.version
    requires Bounded(a.machine, |FactTransitions(landed)|, capability.entries[0])
    ensures a.machine.journaledTransitions == |a.machine.transitions|
    ensures FactTransitions(landed) == a.machine.transitions
  {
    var m := a.machine;
    assert IsLink(m.table, m.run, m.state, capability.entries, 0);
    EarlierStartsLower(run, m);
    LandedIsPrefix(c, landed);
    var n := |FactTransitions(landed)|;
    if m.transitions != [] {
      var last := |m.transitions| - 1;
      assert Rank(m.transitions[last].from) < Rank(m.state);
      assert last < n;
    }
    assert m.transitions[..|m.transitions|] == m.transitions;
  }

  lemma LandedIsPrefix(c: Courier, landed: seq<Fact>)
    requires landed <= c.recorded
    ensures FactTransitions(landed) <= FactTransitions(c.recorded)
  {
    FactTransitionsSplit(landed, c.recorded[|landed|..]);
    assert c.recorded == landed + c.recorded[|landed|..];
  }

  lemma AdoptionKeeps(run: RunId, g: Generation, c: Courier, a: Attempt, landed: seq<Fact>, capability: Capability)
    requires OwnerSound(run, g, c, a, landed) && a.tail == [] && capability.entries != []
    requires capability in a.machine.projections && capability.fromVersion == a.machine.version
    requires Bounded(a.machine, |FactTransitions(landed)|, capability.entries[0])
    ensures var m := CommitProjected(a.machine, capability).1;
      var a' := a.(machine := m, tail := capability.entries, recorded := EvidenceBundle);
      && OwnerSound(run, g, c, a', landed) && Grows(c, a, c, a')
      && m.journaledTransitions == |m.transitions| && m.transitions == FactTransitions(landed) + capability.entries
  {
    var m := CommitProjected(a.machine, capability).1;
    NextKeepsValid(a.machine, Adopting(capability));
    DrainedBeforeAdoption(run, g, c, a, landed, capability);
    LandedIsPrefix(c, landed);
    assert m.transitions[..|m.transitions|] == m.transitions;
    assert a.machine.transitions[..|a.machine.transitions|] == a.machine.transitions;
  }

  lemma StaleAdoptionKeeps(run: RunId, g: Generation, c: Courier, a: Attempt, landed: seq<Fact>, capability: Capability)
    requires OwnerSound(run, g, c, a, landed) && a.tail == [] && CommitProjected(a.machine, capability).0 != Adopted
    ensures var a' := a.(machine := CommitProjected(a.machine, capability).1, pc := Walking);
      OwnerSound(run, g, c, a', landed) && Grows(c, a, c, a')
  {
    NextKeepsValid(a.machine, Adopting(capability));
    MachineGrowsUnder(c.recorded, a, CommitProjected(a.machine, capability).1);
  }

  /** How the answer to a commit leaves an ownership. */
  ghost predicate Answered(run: RunId, g: Generation, c: Courier, a: Attempt, landed: seq<Fact>, committed: bool, c': Courier, a': Attempt) {
    && OwnerSound(run, g, c', a', landed) && Grows(c, a, c', a')
    && (|| (a'.pc == Walking && a'.tail == [])
        || (a'.pc == Concluding(NothingProduced) && a'.tail == [])
        || (a'.pc == Concluding(EvidenceBundle) && committed && a.pc.Committing? && a'.tail == a.pc.capability.entries
            && a'.machine.journaledTransitions == |a'.machine.transitions|))
    && (a'.pc.Concluding? && !c'.lost ==> IsDrained(a'.machine))
  }

  lemma CommittedAnswer(run: RunId, g: Generation, c: Courier, a: Attempt, landed: seq<Fact>, at: string)
    requires OwnerSound(run, g, c, a, landed) && a.tail == [] && a.pc.Committing? && a.pc.capability.entries != []
    requires Bounded(a.machine, |FactTransitions(landed)|, a.pc.capability.entries[0])
    ensures var (c', a') := CommitAnswered(c, a, F.Committed, at); Answered(run, g, c, a, landed, true, c', a')
  {
    var (adoption, m) := CommitProjected(a.machine, a.pc.capability);
    hide CommitProjected, Bounded, Tick;
    if adoption != Adopted {
      StaleAdoptionKeeps(run, g, c, a, landed, a.pc.capability);
    } else {
      assert a.pc.capability in a.machine.projections && a.pc.capability.fromVersion == a.machine.version by {
        AdoptedMeans(a.machine, a.pc.capability);
      }
      AdoptionKeeps(run, g, c, a, landed, a.pc.capability);
      var a1 := a.(machine := m, tail := a.pc.capability.entries, recorded := EvidenceBundle);
      ConcludeKeeps(run, g, c, a1, landed, EvidenceBundle);
      hide OwnerSound;
      StillDrained(c, a1);
    }
  }

  lemma AdoptedMeans(m: Machine, capability: Capability)
    requires CommitProjected(m, capability).0 == Adopted
    ensures capability in m.projections && capability.fromVersion == m.version
  {
  }

  lemma StillDrained(c: Courier, a: Attempt)
    requires CursorsOk(a.machine) && a.machine.journaledTransitions == |a.machine.transitions|
    ensures var a' := BeginConclude(c, a, EvidenceBundle).1;
      a'.machine.journaledTransitions == |a'.machine.transitions| && a'.machine.transitions == a.machine.transitions
  {
  }

  lemma RefusedAnswer(run: RunId, g: Generation, c: Courier, a: Attempt, landed: seq<Fact>, reason: F.Reason, at: string)
    requires OwnerSound(run, g, c, a, landed) && a.tail == [] && a.pc.Committing?
    ensures var (c', a') := CommitAnswered(c, a, F.NotCommitted(reason), at); Answered(run, g, c, a, landed, false, c', a')
  {
    hide FailClosed, OwnerSound, BeginConclude;
    match reason
    case Stale =>
      LostKeeps(run, g, c, a, landed);
      ConcludeKeeps(run, g, c.(lost := true), a, landed, NothingProduced);
    case AttemptExpired => FailKeeps(run, g, c, a, landed, a.pc.kind, "settlement failed", at);
    case AlreadyCommitted => FailKeeps(run, g, c, a, landed, a.pc.kind, "settlement failed", at);
    case Expired => FailKeeps(run, g, c, a, landed, Timeout, "expired", at);
    case _ => FailKeeps(run, g, c, a, landed, OperationalFault, "not committed", at);
  }

  lemma LostKeeps(run: RunId, g: Generation, c: Courier, a: Attempt, landed: seq<Fact>)
    requires OwnerSound(run, g, c, a, landed)
    ensures OwnerSound(run, g, c.(lost := true), a, landed) && Grows(c, a, c.(lost := true), a)
  {
  }

  lemma EarlyKeeps(run: RunId, g: Generation, c: Courier, a: Attempt, landed: seq<Fact>, built: string, answer: Answer)
    requires OwnerSound(run, g, c, a, landed) && a.tail == []
    ensures var (c', a') := EarlyWritten(c, a, built, answer);
      && OwnerSound(run, g, c', a', landed) && Grows(c, a, c', a') && a'.tail == []
      && a'.earlyRecord == Some(EarlyRecordOf(a, built))
      && (a'.pc == Concluding(NothingProduced) || (a'.pc == Concluding(EarlyTerminationRecord) && answer == Accepted))
      && (!c'.lost ==> IsDrained(a'.machine))
  {
    var a1 := a.(earlyRecord := Some(EarlyRecordOf(a, built)));
    LostKeeps(run, g, c, a, landed);
    ConcludeKeeps(run, g, c, a1.(recorded := EarlyTerminationRecord), landed, EarlyTerminationRecord);
    ConcludeKeeps(run, g, c.(lost := true), a1, landed, NothingProduced);
    ConcludeKeeps(run, g, c, a1, landed, NothingProduced);
    hide OwnerSound;
  }
}
