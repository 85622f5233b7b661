/** The invariant of the whole run, step by step, and what a concluded attempt has made durable. */
module DurableWalkProofs {
  import opened Options
  import opened Visibility
  import opened Fence
  import opened Lifecycle
  import opened Journal
  import opened Machines
  import opened Outboxes
  import opened ExactlyOnce
  import opened Scopes
  import opened PageOrder
  import opened CommitNames
  import opened DurableWalk
  import opened DurableWalkOwners
  import F = Finalization
  import FP = FinalizationProofs
  import FM = FinalizationMoves
  import FR = FinalizationRuns
  import FT = FinalizationTheorems
  import EventSink
  import EvidenceSink

  function Rows(w: Whole): seq<StoredTransition> {
    PageOf(w.fin.stores.journal, w.bus.run).transitions
  }

  /** The generation's terminal is published and says exactly what the machine adopted. */
  ghost predicate SealedAs(fin: F.System, run: RunId, g: Generation, a: Attempt) {
    var h := RunFence(run, g);
    && a.tail != [] && a.machine.journaledTransitions == |a.machine.transitions|
    && h in fin.finalized && fin.finalized[h] in fin.sealed
    && F.Holder(fin.sealed[fin.finalized[h]]) == h && fin.sealed[fin.finalized[h]].transitions == a.tail
  }

  /** The one early-terminal record of the attempt has landed under its identity. */
  predicate HoldsEarlyRecord(landed: map<string, EvidenceSink.Record>, run: RunId, g: Generation, a: Attempt) {
    && a.earlyRecord.Some? && EarlyId(run, g) in landed
    && landed[EarlyId(run, g)] == EvidenceSink.Record(EvidenceSink.EarlyTerminationRecord, a.earlyRecord.value)
  }

  /** What an attempt that has begun to conclude with `produced` has established. */
  ghost predicate Settled(fin: F.System, run: RunId, g: Generation, c: Courier, a: Attempt, produced: Produced) {
    && (!c.lost ==> IsDrained(a.machine))
    && (produced == EvidenceBundle ==> SealedAs(fin, run, g, a))
    && (produced != EvidenceBundle ==> a.tail == [])
    && (produced == EarlyTerminationRecord ==> HoldsEarlyRecord(fin.stores.evidence.landed, run, g, a))
  }

  ghost predicate PcOk(fin: F.System, run: RunId, g: Generation, c: Courier, a: Attempt) {
    match a.pc
    case Walking => a.tail == []
    case Sealing(_, capability) =>
      a.tail == [] && capability.entries != [] && Bounded(a.machine, |FactTransitions(c.recorded)|, capability.entries[0])
    case Committing(_, capability, call) =>
      && a.tail == [] && capability.entries != [] && call < |fin.calls|
      && fin.calls[call].commit.run == run && fin.calls[call].commit.generation == g
      && fin.calls[call].commit.transitions == capability.entries
    case Concluding(produced) => Settled(fin, run, g, c, a, produced)
    case Concluded(conclusion) =>
      conclusion.Terminal? ==>
        && Settled(fin, run, g, c, a, conclusion.produced) && conclusion.produced != NothingProduced
        && !c.lost && c.outbox.pending == [] && IsTerminal(a.machine.state) && conclusion.state == a.machine.state
  }

  ghost predicate AttemptOk(fin: F.System, bus: Bus, g: Generation, a: Attempt)
    requires g in bus.couriers
  {
    && MachineOk(bus.run, a.machine) && HandedOver(bus.couriers[g].recorded, a)
    && PcOk(fin, bus.run, g, bus.couriers[g], a)
  }

  ghost predicate AttemptsOk(fin: F.System, bus: Bus, attempts: map<Generation, Attempt>) {
    attempts.Keys == bus.couriers.Keys && forall g | g in attempts :: AttemptOk(fin, bus, g, attempts[g])
  }

  /**
   * A commit of this run whose rows are stored was called over a landed record: what its
   * generation has not landed, and what it landed after the tail, starts no earlier than the tail.
   */
  ghost predicate OwnerOk(rows: seq<StoredTransition>, bus: Bus, attempts: map<Generation, Attempt>, id: CommitId, k: F.Commit) {
    && WellNamed(k)
    && (k.run == bus.run ==>
          && k.generation in attempts && k.transitions != []
          && Bounded(attempts[k.generation].machine, |FactTransitions(LogOf(bus.log, k.generation))|, k.transitions[0])
          && |Plain(rows)| == |GensOf(bus.log)|
          && Late(rows, GensOf(bus.log), k.generation, id, Rank(k.transitions[0].from)))
  }

  ghost predicate OwnersOk(fin: F.System, rows: seq<StoredTransition>, bus: Bus, attempts: map<Generation, Attempt>) {
    forall id | FM.OwnerOf(fin, id).Some? :: OwnerOk(rows, bus, attempts, id, FM.OwnerOf(fin, id).value)
  }

  ghost predicate CallsNamed(fin: F.System) {
    forall i | 0 <= i < |fin.calls| :: WellNamed(fin.calls[i].commit)
  }

  ghost predicate Sound(w: Whole) {
    && '#' !in w.bus.run
    && F.Inv(w.fin)
    && ExactlyOnce.Inv(Wire(w))
    && AttemptsOk(w.fin, w.bus, w.attempts)
    && OwnersOk(w.fin, Rows(w), w.bus, w.attempts)
    && CallsNamed(w.fin)
  }

  // -------------------------------------------------------- one ownership moves

  lemma SoundOwner(w: Whole, g: Generation)
    requires Sound(w) && g in w.attempts
    ensures g in w.bus.couriers
    ensures OwnerSound(w.bus.run, g, w.bus.couriers[g], w.attempts[g], LogOf(w.bus.log, g))
    ensures PcOk(w.fin, w.bus.run, g, w.bus.couriers[g], w.attempts[g])
  {
    hide F.Inv, OwnersOk, CallsNamed, PcOk, HandedOver, MachineOk;
    assert AttemptOk(w.fin, w.bus, g, w.attempts[g]);
    assert CourierOk(w.bus.run, g, w.bus.couriers[g]) && PrefixOk(w.bus.couriers[g], LogOf(w.bus.log, g));
  }

  lemma OwnersUnderPut(w: Whole, g: Generation, c: Courier, a: Attempt)
    requires Sound(w) && g in w.attempts && g in w.bus.couriers
    requires MachineOk(w.bus.run, w.attempts[g].machine) && MachineOk(w.bus.run, a.machine)
    requires Grows(w.bus.couriers[g], w.attempts[g], c, a)
    ensures var w' := Put(w, g, (c, a)); OwnersOk(w'.fin, Rows(w'), w'.bus, w'.attempts)
  {
    var w' := Put(w, g, (c, a));
    hide F.Inv, ExactlyOnce.Inv, CallsNamed, AttemptsOk, Late, LogOf, Bounded, MachineOk;
    forall id | FM.OwnerOf(w'.fin, id).Some?
      ensures OwnerOk(Rows(w'), w'.bus, w'.attempts, id, FM.OwnerOf(w'.fin, id).value)
    {
      var k := FM.OwnerOf(w.fin, id).value;
      assert OwnerOk(Rows(w), w.bus, w.attempts, id, k);
      if k.run == w.bus.run && k.generation == g {
        var n := |FactTransitions(LogOf(w.bus.log, g))|;
        BoundGrows(w.bus.run, w.attempts[g].machine, a.machine, n, n, k.transitions[0]);
      }
    }
  }

  lemma AttemptsUnderPut(fin: F.System, bus: Bus, attempts: map<Generation, Attempt>, g: Generation, c: Courier, a: Attempt)
    requires AttemptsOk(fin, bus, attempts) && g in attempts
    requires MachineOk(bus.run, a.machine) && HandedOver(c.recorded, a) && PcOk(fin, bus.run, g, c, a)
    ensures AttemptsOk(fin, WithCourier(bus, g, c), attempts[g := a])
  {
    hide MachineOk, HandedOver, PcOk;
    var bus', attempts' := WithCourier(bus, g, c), attempts[g := a];
    forall h | h in attempts'
      ensures AttemptOk(fin, bus', h, attempts'[h])
    {
      assert h != g ==> AttemptOk(fin, bus, h, attempts[h]);
    }
  }

  /** An ownership that only recorded more, and is where it says it is, disturbs nothing else. */
  lemma PutKeepsSound(w: Whole, g: Generation, c: Courier, a: Attempt)
    requires Sound(w) && g in w.attempts && g in w.bus.couriers
    requires OwnerSound(w.bus.run, g, c, a, LogOf(w.bus.log, g)) && Grows(w.bus.couriers[g], w.attempts[g], c, a)
    requires PcOk(w.fin, w.bus.run, g, c, a)
    ensures Sound(Put(w, g, (c, a)))
  {
    hide F.Inv, ExactlyOnce.Inv, CallsNamed, OwnersOk, AttemptsOk, MachineOk, HandedOver, PcOk, LogOf, CourierOk, PrefixOk;
    SoundOwner(w, g);
    OwnersUnderPut(w, g, c, a);
    CourierStep(Wire(w), g, c);
    AttemptsUnderPut(w.fin, w.bus, w.attempts, g, c, a);
    assert Wire(Put(w, g, (c, a))) == Wire(w).(bus := WithCourier(w.bus, g, c));
  }

  // ------------------------------------------------------- the coordinator moves

  /** Calls, publications and landed records are only ever added to. */
  ghost predicate Later(fin: F.System, fin': F.System) {
    && |fin.calls| <= |fin'.calls| && (forall i | 0 <= i < |fin.calls| :: fin'.calls[i] == fin.calls[i])
    && (forall id | id in fin.sealed :: id in fin'.sealed && fin'.sealed[id] == fin.sealed[id])
    && (forall h | h in fin.finalized :: h in fin'.finalized && fin'.finalized[h] == fin.finalized[h])
    && (forall id | id in fin.stores.evidence.landed ::
          id in fin'.stores.evidence.landed && fin'.stores.evidence.landed[id] == fin.stores.evidence.landed[id])
  }

  lemma StepIsLater(fin: F.System, action: F.Action)
    requires F.Inv(fin)
    ensures Later(fin, F.Step(fin, action))
  {
    hide F.Inv, F.Step, FM.OwnersMove, FM.JournalMove;
    FT.TasksChange(fin, action);
    FT.PublicationIsGuarded(fin, action);
    FM.StepMoves(fin, action);
    FT.SealedIsPublished(fin);
  }

  /** What the coordinator established for an attempt stays established. */
  lemma PcUnderStep(fin: F.System, fin': F.System, run: RunId, g: Generation, c: Courier, a: Attempt)
    requires Later(fin, fin') && PcOk(fin, run, g, c, a)
    ensures PcOk(fin', run, g, c, a)
  {
    hide Bounded;
  }

  lemma GensAlign(w: Whole)
    requires Sound(w)
    ensures |Plain(Rows(w))| == |GensOf(w.bus.log)|
    ensures Plain(Rows(w)) == TransitionsIn(w.bus.log)
  {
    GensMatch(w.bus.log);
    hide F.Inv, AttemptsOk, OwnersOk;
  }

  lemma LateUnderMove(j: JournalState, j': JournalState, run: RunId, gens: seq<Generation>, g: Generation, id: CommitId, rank: nat)
    requires FM.JournalMove(j, j')
    requires |Plain(PageOf(j, run).transitions)| == |gens| && Late(PageOf(j, run).transitions, gens, g, id, rank)
    ensures |Plain(PageOf(j', run).transitions)| == |gens| && Late(PageOf(j', run).transitions, gens, g, id, rank)
  {
    var rows := PageOf(j, run).transitions;
    if fence, commit, entries :| j' == StageTransitions(j, fence, commit, entries).1 {
      LateAfterTail(rows, gens, g, id, rank, entries, commit);
    } else if r, commit :| j' == AbandonTail(j, r, commit) {
      LateAfterAbandon(rows, gens, g, id, rank, commit);
    }
  }

  lemma WireUnderMove(w: Whole, j': JournalState)
    requires ExactlyOnce.Inv(Wire(w)) && FM.JournalMove(w.fin.stores.journal, j')
    ensures ExactlyOnce.Inv(World(w.bus, j'))
  {
    var j := w.fin.stores.journal;
    hide ExactlyOnce.Inv, StageTransitions, AbandonTail;
    if fence, commit, entries :| j' == StageTransitions(j, fence, commit, entries).1 {
      ElsewhereStep(Wire(w), TailStaged(fence, commit, entries));
    } else if r, commit :| j' == AbandonTail(j, r, commit) {
      ElsewhereStep(Wire(w), TailAbandoned(r, commit));
    }
  }

  /** The commit a call brings is bounded by what its generation has landed. */
  ghost predicate Admissible(w: Whole, c: F.Commit) {
    && WellNamed(c)
    && (c.run == w.bus.run ==>
          && c.generation in w.attempts && c.transitions != []
          && Bounded(w.attempts[c.generation].machine, |FactTransitions(LogOf(w.bus.log, c.generation))|, c.transitions[0]))
  }

  /** A commit whose rows may be stored is bounded and ordered, in the state before the step. */
  lemma OwnerBeforeStep(w: Whole, action: F.Action, id: CommitId)
    requires Sound(w) && (action.CommitCalled? ==> Admissible(w, action.commit))
    requires FM.OwnersMove(w.fin, F.Step(w.fin, action), action) && FM.OwnerOf(F.Step(w.fin, action), id).Some?
    ensures OwnerOk(Rows(w), w.bus, w.attempts, id, FM.OwnerOf(F.Step(w.fin, action), id).value)
  {
    hide F.Inv, ExactlyOnce.Inv, AttemptsOk, CallsNamed, F.Step, Late, LogOf, Bounded, WellNamed, FM.OwnerOf;
    var k := FM.OwnerOf(F.Step(w.fin, action), id).value;
    if FM.OwnerOf(w.fin, id) != Some(k) {
      NewOwnerIsLate(w, id);
      GensAlign(w);
      if k.run == w.bus.run {
        LateBeforeStaging(Rows(w), GensOf(w.bus.log), k.generation, id, Rank(k.transitions[0].from));
      }
    }
  }

  lemma OwnerUnderMove(rows: seq<StoredTransition>, j: JournalState, j': JournalState, bus: Bus, attempts: map<Generation, Attempt>,
                       id: CommitId, k: F.Commit)
    requires rows == PageOf(j, bus.run).transitions && FM.JournalMove(j, j') && OwnerOk(rows, bus, attempts, id, k)
    ensures OwnerOk(PageOf(j', bus.run).transitions, bus, attempts, id, k)
  {
    hide WellNamed, Bounded, LogOf, Late, FM.JournalMove;
    if k.run == bus.run {
      LateUnderMove(j, j', bus.run, GensOf(bus.log), k.generation, id, Rank(k.transitions[0].from));
    }
  }

  lemma OwnersUnderStep(w: Whole, action: F.Action)
    requires Sound(w) && !action.Appended? && (action.CommitCalled? ==> Admissible(w, action.commit))
    ensures var w' := w.(fin := F.Step(w.fin, action)); OwnersOk(w'.fin, Rows(w'), w'.bus, w'.attempts)
  {
    hide F.Inv, ExactlyOnce.Inv, AttemptsOk, CallsNamed, OwnerOk, F.Step, Admissible, FM.OwnersMove, FM.JournalMove, FM.OwnerOf;
    var w' := w.(fin := F.Step(w.fin, action));
    FM.StepMoves(w.fin, action);
    hide Sound;
    forall id | FM.OwnerOf(w'.fin, id).Some?
      ensures OwnerOk(Rows(w'), w'.bus, w'.attempts, id, FM.OwnerOf(w'.fin, id).value)
    {
      OwnerBeforeStep(w, action, id);
      OwnerUnderMove(Rows(w), w.fin.stores.journal, w'.fin.stores.journal, w.bus, w.attempts, id, FM.OwnerOf(w'.fin, id).value);
    }
  }

  lemma NewOwnerIsLate(w: Whole, id: CommitId)
    requires Sound(w) && FM.OwnerOf(w.fin, id).None?
    ensures Under(Rows(w), id) == []
  {
    hide ExactlyOnce.Inv, AttemptsOk, OwnersOk, CallsNamed;
    FT.SealedIsPublished(w.fin);
    FM.InFlightTasksExist(w.fin);
    FT.NothingUnder(w.fin, id);
    assert FT.TailUnder(w.fin, w.bus.run, id) == [];
  }

  lemma CallsUnderStep(fin: F.System, action: F.Action)
    requires F.Inv(fin) && CallsNamed(fin) && (action.CommitCalled? ==> WellNamed(action.commit))
    ensures CallsNamed(F.Step(fin, action))
  {
    FT.TasksChange(fin, action);
    hide F.Inv, F.Step, WellNamed;
  }

  lemma AttemptsUnderStep(w: Whole, action: F.Action)
    requires Sound(w)
    ensures AttemptsOk(F.Step(w.fin, action), w.bus, w.attempts)
  {
    StepIsLater(w.fin, action);
    hide F.Step, F.Inv, OwnersOk, CallsNamed, ExactlyOnce.Inv, PcOk, MachineOk, HandedOver, Later;
    forall g | g in w.attempts
      ensures AttemptOk(F.Step(w.fin, action), w.bus, g, w.attempts[g])
    {
      assert AttemptOk(w.fin, w.bus, g, w.attempts[g]);
      PcUnderStep(w.fin, F.Step(w.fin, action), w.bus.run, g, w.bus.couriers[g], w.attempts[g]);
    }
  }

  /** Any step of the coordinator that is not an append, with the commits it brings well formed. */
  lemma CoordinatorKeepsSound(w: Whole, action: F.Action)
    requires Sound(w) && !action.Appended? && (action.CommitCalled? ==> Admissible(w, action.commit))
    ensures Sound(w.(fin := F.Step(w.fin, action)))
  {
    var w' := w.(fin := F.Step(w.fin, action));
    FR.StepKeepsInv(w.fin, action);
    FM.StepMoves(w.fin, action);
    WireUnderMove(w, w'.fin.stores.journal);
    OwnersUnderStep(w, action);
    AttemptsUnderStep(w, action);
    CallsUnderStep(w.fin, action);
    hide F.Inv, F.Step, ExactlyOnce.Inv, AttemptsOk, OwnersOk, CallsNamed, FM.OwnersMove;
  }

  lemma SameOwners(fin: F.System, fin': F.System, rows: seq<StoredTransition>, bus: Bus, attempts: map<Generation, Attempt>)
    requires OwnersOk(fin, rows, bus, attempts) && fin' == fin.(stores := fin'.stores)
    ensures OwnersOk(fin', rows, bus, attempts)
  {
    hide OwnerOk;
    forall id | FM.OwnerOf(fin', id).Some?
      ensures OwnerOk(rows, bus, attempts, id, FM.OwnerOf(fin', id).value)
    {
      assert FM.OwnerOf(fin', id) == FM.OwnerOf(fin, id);
    }
  }

  lemma AppendIsElsewhere(w: Whole, fence: RunFence, entry: EntryId, fact: Fact)
    requires fence.run != w.bus.run
    ensures var w' := w.(fin := F.Step(w.fin, F.Appended(fence, entry, fact)));
      && Wire(w') == World(w.bus, Happen(w.fin.stores.journal, w.bus.run, OtherRun(fence, entry, fact)))
      && Rows(w') == Rows(w)
      && w'.fin == w.fin.(stores := w'.fin.stores)
  {
  }

  /** An append to another run. */
  lemma OtherAppendKeepsSound(w: Whole, fence: RunFence, entry: EntryId, fact: Fact)
    requires Sound(w) && fence.run != w.bus.run
    ensures Sound(w.(fin := F.Step(w.fin, F.Appended(fence, entry, fact))))
  {
    var action := F.Appended(fence, entry, fact);
    var w' := w.(fin := F.Step(w.fin, action));
    hide F.Inv, ExactlyOnce.Inv, AttemptsOk, OwnersOk, CallsNamed;
    AppendIsElsewhere(w, fence, entry, fact);
    hide Happen, Append;
    FR.StepKeepsInv(w.fin, action);
    ElsewhereStep(Wire(w), OtherRun(fence, entry, fact));
    AttemptsUnderStep(w, action);
    CallsUnderStep(w.fin, action);
    SameOwners(w.fin, w'.fin, Rows(w), w.bus, w.attempts);
  }
}
