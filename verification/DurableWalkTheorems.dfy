/** Whole runs: the durable walk of a concluded attempt is its machine's record. */
module DurableWalkTheorems {
  import opened Options
  import opened Visibility
  import opened Fence
  import opened Lifecycle
  import opened Journal
  import opened Machines
  import opened Outboxes
  import opened ExactlyOnce
  import opened Scopes
  import opened PageOrder
  import opened CommitNames
  import opened DurableWalk
  import opened DurableWalkOwners
  import opened DurableWalkProofs
  import F = Finalization
  import FP = FinalizationProofs
  import FM = FinalizationMoves
  import FR = FinalizationRuns
  import FT = FinalizationTheorems
  import EventSink
  import EvidenceSink

  // -------------------------------------------------------------------- arrivals

  /** The next transition a generation lands starts no earlier than a tail it is bounded by. */
  lemma NextLandedIsBounded(run: RunId, g: Generation, c: Courier, a: Attempt, landed: seq<Fact>, fact: Fact, first: TransitionEntry)
    requires OwnerSound(run, g, c, a, landed) && landed + [fact] <= c.recorded && fact.TransitionFact?
    requires Bounded(a.machine, |FactTransitions(landed)|, first)
    ensures Rank(first.from) <= Rank(fact.transition.from)
  {
    var n := |FactTransitions(landed)|;
    var rest := c.recorded[|landed| + 1..];
    assert c.recorded == (landed + [fact]) + rest;
    FactTransitionsSplit(landed + [fact], rest);
    FactTransitionsSplit(landed, [fact]);
    assert [fact][..0] == [];
    assert FactTransitions([fact]) == [fact.transition];
    assert FactTransitions(c.recorded)[n] == fact.transition;
    assert (FactTransitions(c.recorded) + a.tail)[n] == fact.transition;
    assert a.machine.transitions[n] == fact.transition;
  }

  /** How an arrival changes what is stored: one more row of the log, or nothing. */
  ghost predicate Arrived(w: Whole, w': Whole, m: Message) {
    || (w'.bus.log == w.bus.log && Rows(w') == Rows(w))
    || (&& w'.bus.log == w.bus.log + [LogRow(m.fence.generation, m.entry.fact)]
        && m.fence.generation in w.bus.couriers
        && LogOf(w.bus.log, m.fence.generation) + [m.entry.fact] <= w.bus.couriers[m.fence.generation].recorded
        && Rows(w') == Rows(w) + if m.entry.fact.TransitionFact? then [StoredTransition(m.entry.fact.transition, None)] else [])
  }

  lemma ArrivalFrame(w: Whole, m: Message)
    requires m in w.bus.sent
    ensures var w' := Arrive(w, m);
      && Wire(w') == Deliver(Wire(w), m)
      && w'.bus.run == w.bus.run && w'.bus.couriers == w.bus.couriers && w'.attempts == w.attempts
      && w'.fin == w.fin.(stores := w'.fin.stores)
  {
    hide Append;
  }

  lemma ArrivalRows(w: World, m: Message)
    requires m in w.bus.sent && m.fence.run == w.bus.run
    ensures var w' := Deliver(w, m);
      var rows, rows' := PageOf(w.journal, w.bus.run).transitions, PageOf(w'.journal, w.bus.run).transitions;
      if m.entry.id !in PageOf(w.journal, w.bus.run).seen && Admits(w.journal.fence, m.fence)
      then rows' == rows + (if m.entry.fact.TransitionFact? then [StoredTransition(m.entry.fact.transition, None)] else [])
           && w'.bus.log == w.bus.log + [LogRow(m.fence.generation, m.entry.fact)]
      else rows' == rows && w'.bus.log == w.bus.log
  {
  }

  lemma ArrivalChanges(w: Whole, m: Message)
    requires Sound(w) && m in w.bus.sent
    ensures Arrived(w, Arrive(w, m), m)
  {
    hide F.Inv, AttemptsOk, OwnersOk, CallsNamed, Deliver, Arrive;
    ArrivalFrame(w, m);
    assert MessageOk(w.bus, m);
    ArrivalRows(Wire(w), m);
    if m.entry.id !in PageOf(w.fin.stores.journal, w.bus.run).seen {
      NewMessageIsNext(Wire(w), m);
      var c := w.bus.couriers[m.fence.generation];
      assert PrefixOk(c, LogOf(w.bus.log, m.fence.generation));
    }
    hide ExactlyOnce.Inv, LogOf, MessageOk;
  }

  lemma LateUnderArrival(w: Whole, w': Whole, m: Message, id: CommitId, k: F.Commit)
    requires Sound(w) && Arrived(w, w', m) && k.run == w.bus.run
    requires w'.bus.run == w.bus.run && w'.attempts == w.attempts
    requires OwnerOk(Rows(w), w.bus, w.attempts, id, k)
    ensures OwnerOk(Rows(w'), w'.bus, w'.attempts, id, k)
  {
    hide F.Inv, ExactlyOnce.Inv, AttemptsOk, OwnersOk, CallsNamed;
    var g := m.fence.generation;
    var rank := Rank(k.transitions[0].from);
    if w'.bus.log != w.bus.log {
      var fact := m.entry.fact;
      var row := LogRow(g, fact);
      var landed := LogOf(w.bus.log, k.generation);
      LogOfSnoc(w.bus.log, row, k.generation);
      FactTransitionsSplit(landed, [fact]);
      assert w'.bus.log[..|w.bus.log|] == w.bus.log;
      assert |FactTransitions([fact])| <= 1;
      hide LogOf, Late;
      if !fact.TransitionFact? {
        assert Rows(w') == Rows(w) && GensOf(w'.bus.log) == GensOf(w.bus.log);
        assert landed + [] == landed;
        assert FactTransitions(LogOf(w'.bus.log, k.generation)) == FactTransitions(landed);
      } else {
        if g == k.generation {
          SoundOwner(w, g);
          NextLandedIsBounded(w.bus.run, g, w.bus.couriers[g], w.attempts[g], landed, fact, k.transitions[0]);
        }
        LateAfterLanding(Rows(w), GensOf(w.bus.log), k.generation, id, rank, fact.transition, g);
      }
    }
  }

  lemma SameCouriers(fin: F.System, bus: Bus, bus': Bus, attempts: map<Generation, Attempt>)
    requires AttemptsOk(fin, bus, attempts) && bus'.run == bus.run && bus'.couriers == bus.couriers
    ensures AttemptsOk(fin, bus', attempts)
  {
    hide MachineOk, HandedOver, PcOk;
    forall g | g in attempts
      ensures AttemptOk(fin, bus', g, attempts[g])
    {
      assert AttemptOk(fin, bus, g, attempts[g]);
    }
  }

  lemma OwnersUnderArrival(w: Whole, w': Whole, m: Message)
    requires Sound(w) && Arrived(w, w', m) && w'.bus.run == w.bus.run && w'.attempts == w.attempts
    requires w'.fin == w.fin.(stores := w'.fin.stores)
    ensures OwnersOk(w'.fin, Rows(w'), w'.bus, w'.attempts)
  {
    hide F.Inv, ExactlyOnce.Inv, AttemptsOk, CallsNamed, Arrived, Bounded, Late, LogOf;
    forall id | FM.OwnerOf(w'.fin, id).Some?
      ensures OwnerOk(Rows(w'), w'.bus, w'.attempts, id, FM.OwnerOf(w'.fin, id).value)
    {
      assert FM.OwnerOf(w'.fin, id) == FM.OwnerOf(w.fin, id);
      var k := FM.OwnerOf(w.fin, id).value;
      assert OwnerOk(Rows(w), w.bus, w.attempts, id, k);
      if k.run == w.bus.run {
        LateUnderArrival(w, w', m, id, k);
      }
    }
  }

  lemma ArriveKeepsSound(w: Whole, m: Message)
    requires Sound(w)
    ensures Sound(Arrive(w, m))
  {
    hide F.Inv, ExactlyOnce.Inv, AttemptsOk, OwnersOk, CallsNamed, Arrived;
    if m in w.bus.sent {
      var action := F.Appended(m.fence, m.entry.id, m.entry.fact);
      var w' := Arrive(w, m);
      ArrivalFrame(w, m);
      ArrivalChanges(w, m);
      FR.StepKeepsInv(w.fin, action);
      DeliveredStep(Wire(w), m);
      AttemptsUnderStep(w, action);
      SameCouriers(w'.fin, w.bus, w'.bus, w.attempts);
      OwnersUnderArrival(w, w', m);
      CallsUnderStep(w.fin, action);
    }
  }

  // ------------------------------------------------------------- the outbox side

  /** An outbox that only sent, popped its landed head or lost its fence. */
  lemma BusKeepsSound(w: Whole, bus': Bus)
    requires Sound(w) && ExactlyOnce.Inv(Wire(w.(bus := bus')))
    requires bus'.run == w.bus.run && bus'.log == w.bus.log && bus'.couriers.Keys == w.bus.couriers.Keys
    requires forall g | g in w.bus.couriers :: CourierMoved(w, g, bus'.couriers[g])
    ensures Sound(w.(bus := bus'))
  {
    hide F.Inv, ExactlyOnce.Inv, CallsNamed, MachineOk, HandedOver, Bounded, Late, LogOf;
    var w' := w.(bus := bus');
    forall g | g in w.attempts
      ensures AttemptOk(w.fin, bus', g, w.attempts[g])
    {
      assert AttemptOk(w.fin, w.bus, g, w.attempts[g]);
      assert CourierMoved(w, g, bus'.couriers[g]);
    }
    forall id | FM.OwnerOf(w'.fin, id).Some?
      ensures OwnerOk(Rows(w'), w'.bus, w'.attempts, id, FM.OwnerOf(w'.fin, id).value)
    {
      assert OwnerOk(Rows(w), w.bus, w.attempts, id, FM.OwnerOf(w.fin, id).value);
    }
  }

  ghost predicate CourierMoved(w: Whole, g: Generation, c': Courier)
    requires g in w.bus.couriers
  {
    var c := w.bus.couriers[g];
    && c'.recorded == c.recorded && (c.lost ==> c'.lost)
    && (c.outbox.pending == [] ==> c'.outbox.pending == [])
    && (g in w.attempts && w.attempts[g].pc.Concluded? && c'.lost ==> (c.lost || c.outbox.pending != []))
  }

  lemma SendingStep(w: Whole, g: Generation)
    requires Sound(w)
    ensures Sound(w.(bus := HeadSent(w.bus, g)))
  {
    hide F.Inv, ExactlyOnce.Inv, AttemptsOk, OwnersOk, CallsNamed;
    SentStep(Wire(w), g);
    BusKeepsSound(w, HeadSent(w.bus, g));
  }

  lemma AckedStep(w: Whole, g: Generation)
    requires Sound(w)
    ensures Sound(w.(bus := HeadAcknowledged(w.bus, g)))
  {
    hide F.Inv, ExactlyOnce.Inv, AttemptsOk, OwnersOk, CallsNamed;
    AcknowledgedStep(Wire(w), g);
    BusKeepsSound(w, HeadAcknowledged(w.bus, g));
  }

  lemma StaleStep(w: Whole, g: Generation)
    requires Sound(w)
    ensures Sound(w.(bus := HeadRefused(w.bus, g)))
  {
    hide F.Inv, ExactlyOnce.Inv, AttemptsOk, OwnersOk, CallsNamed;
    LostStep(Wire(w), g);
    BusKeepsSound(w, HeadRefused(w.bus, g));
  }

  lemma LostFenceStep(w: Whole, g: Generation)
    requires Sound(w) && IsMoving(w, g)
    ensures Sound(w.(bus := FenceLost(w.bus, g)))
  {
    hide F.Inv, ExactlyOnce.Inv, AttemptsOk, OwnersOk, CallsNamed;
    LostStep(Wire(w), g);
    BusKeepsSound(w, FenceLost(w.bus, g));
  }

  // ------------------------------------------------------------ an attempt's steps

  lemma SameBus(w: Whole, g: Generation, a: Attempt)
    requires g in w.bus.couriers
    ensures Put(w, g, (w.bus.couriers[g], a)) == w.(attempts := w.attempts[g := a])
  {
    assert w.bus.couriers[g := w.bus.couriers[g]] == w.bus.couriers;
  }

  lemma TickedStep(w: Whole, g: Generation)
    requires Sound(w) && IsMoving(w, g) && CanTick(w, g)
    ensures Sound(Put(w, g, Tick(w.bus.couriers[g], w.attempts[g])))
  {
    hide F.Inv, ExactlyOnce.Inv, AttemptsOk, OwnersOk, CallsNamed;
    var (c, a) := (w.bus.couriers[g], w.attempts[g]);
    SoundOwner(w, g);
    TickKeeps(w.bus.run, g, c, a, LogOf(w.bus.log, g));
    var (c', a') := Tick(c, a);
    if a.pc.Sealing? {
      SealingUnderTick(c, a);
    }
    assert PcOk(w.fin, w.bus.run, g, c', a') by {
      hide Tick, OwnerSound, LogOf;
    }
    PutKeepsSound(w, g, c', a');
  }

  lemma SealingUnderTick(c: Courier, a: Attempt)
    requires CursorsOk(a.machine) && a.pc.Sealing? && a.pc.capability.entries != []
    requires Bounded(a.machine, |FactTransitions(c.recorded)|, a.pc.capability.entries[0])
    ensures var (c', a') := Tick(c, a); Bounded(a'.machine, |FactTransitions(c'.recorded)|, a.pc.capability.entries[0])
  {
    if !c.lost {
      FactTransitionsSplit(c.recorded, Undrained(a.machine));
    }
  }

  lemma MoveKeeps(run: RunId, g: Generation, c: Courier, a: Attempt, landed: seq<Fact>, move: Machines.Action)
    requires OwnerSound(run, g, c, a, landed) && a.tail == [] && !move.Adopting? && !move.Confirming?
    ensures var a' := a.(machine := Next(a.machine, move));
      && OwnerSound(run, g, c, a', landed) && Grows(c, a, c, a')
      && forall n: nat, first | Bounded(a.machine, n, first) :: Bounded(a'.machine, n, first)
  {
    var m := Next(a.machine, move);
    NextKeepsValid(a.machine, move);
    assert m.journaledTransitions == a.machine.journaledTransitions && CursorsOk(m);
    hide Machines.Valid, Next;
    MachineGrowsUnder(c.recorded, a, m);
    forall n: nat, first | Bounded(a.machine, n, first)
      ensures Bounded(m, n, first)
    {
      BoundGrows(run, a.machine, m, n, n, first);
    }
  }

  lemma PcUnderMove(fin: F.System, run: RunId, g: Generation, c: Courier, a: Attempt, m: Machine)
    requires PcOk(fin, run, g, c, a) && !a.pc.Concluding? && !a.pc.Concluded?
    requires forall n: nat, first | Bounded(a.machine, n, first) :: Bounded(m, n, first)
    ensures PcOk(fin, run, g, c, a.(machine := m)) && a.tail == []
  {
    hide Bounded;
  }

  lemma MachineStep(w: Whole, g: Generation, move: Machines.Action)
    requires Sound(w) && IsOpen(w, g)
    ensures Sound(MoveMachine(w, g, move))
  {
    if !move.Adopting? && !move.Confirming? {
      hide Sound, OwnerSound, Next, Bounded, LogOf, PcOk, Grows;
      var (c, a) := (w.bus.couriers[g], w.attempts[g]);
      SoundOwner(w, g);
      PcUnderMove(w.fin, w.bus.run, g, c, a, a.machine);
      MoveKeeps(w.bus.run, g, c, a, LogOf(w.bus.log, g), move);
      PcUnderMove(w.fin, w.bus.run, g, c, a, Next(a.machine, move));
      SameBus(w, g, a.(machine := Next(a.machine, move)));
      PutKeepsSound(w, g, c, a.(machine := Next(a.machine, move)));
    }
  }

  lemma NotedStep(w: Whole, g: Generation, facts: seq<Fact>, held: bool)
    requires Sound(w) && IsMoving(w, g) && FactTransitions(facts) == []
    ensures Sound(w.(bus := FactsRecorded(w.bus, g, facts), attempts := w.attempts[g := w.attempts[g].(held := held)]))
  {
    hide F.Inv, ExactlyOnce.Inv, AttemptsOk, OwnersOk, CallsNamed;
    var (c, a) := (w.bus.couriers[g], w.attempts[g]);
    SoundOwner(w, g);
    RecordedCourier(w.bus.run, g, c, facts, LogOf(w.bus.log, g));
    FactTransitionsSplit(c.recorded, facts);
    var c' := c.(recorded := c.recorded + facts, outbox := RecordAll(c.outbox, facts));
    assert FactTransitions(c'.recorded) == FactTransitions(c.recorded);
    hide CourierOk, PrefixOk, MachineOk, LogOf, RecordAll;
    PutKeepsSound(w, g, c', a.(held := held));
  }

  lemma FinishStep(w: Whole, g: Generation, kind: TransitionKind, detail: string, assembly: Assembly, at: string)
    requires Sound(w) && IsOpen(w, g) && w.attempts[g].pc.Walking? && CanTick(w, g)
    ensures Sound(Put(w, g, StartFinish(w.bus.couriers[g], w.attempts[g], kind, detail, assembly, at)))
  {
    hide F.Inv, ExactlyOnce.Inv, AttemptsOk, OwnersOk, CallsNamed;
    SoundOwner(w, g);
    hide OwnerSound, StartFinish, Bounded, LogOf;
    var (c', a') := StartFinish(w.bus.couriers[g], w.attempts[g], kind, detail, assembly, at);
    StartFinishKeeps(w.bus.run, g, w.bus.couriers[g], w.attempts[g], LogOf(w.bus.log, g), kind, detail, assembly, at);
    PutKeepsSound(w, g, c', a');
  }

  lemma GaveUpStep(w: Whole, g: Generation)
    requires Sound(w) && IsOpen(w, g) && w.attempts[g].pc.Walking? && CanTick(w, g)
    ensures Sound(Put(w, g, BeginConclude(w.bus.couriers[g], w.attempts[g], NothingProduced)))
  {
    hide F.Inv, ExactlyOnce.Inv, AttemptsOk, OwnersOk, CallsNamed;
    SoundOwner(w, g);
    hide OwnerSound, BeginConclude, LogOf;
    var (c', a') := BeginConclude(w.bus.couriers[g], w.attempts[g], NothingProduced);
    ConcludeKeeps(w.bus.run, g, w.bus.couriers[g], w.attempts[g], LogOf(w.bus.log, g), NothingProduced);
    PutKeepsSound(w, g, c', a');
  }

  lemma ReportedStep(w: Whole, g: Generation)
    requires Sound(w) && IsMoving(w, g) && w.attempts[g].pc.Concluding?
    ensures Sound(w.(attempts := w.attempts[g := w.attempts[g].(pc := Concluded(Decide(w.bus.couriers[g], w.attempts[g])))]))
  {
    hide F.Inv, ExactlyOnce.Inv, AttemptsOk, OwnersOk, CallsNamed;
    var (c, a) := (w.bus.couriers[g], w.attempts[g]);
    SoundOwner(w, g);
    var a' := a.(pc := Concluded(Decide(c, a)));
    SameBus(w, g, a');
    hide CourierOk, PrefixOk, MachineOk, LogOf;
    PutKeepsSound(w, g, c, a');
  }

  lemma InterruptedStep(w: Whole, g: Generation)
    requires Sound(w) && IsOpen(w, g) && w.attempts[g].pc.Committing?
    ensures Sound(w.(attempts := w.attempts[g := w.attempts[g].(pc := Walking)]))
  {
    hide F.Inv, ExactlyOnce.Inv, AttemptsOk, OwnersOk, CallsNamed;
    SoundOwner(w, g);
    var a' := w.attempts[g].(pc := Walking);
    SameBus(w, g, a');
    hide CourierOk, PrefixOk, MachineOk, LogOf;
    PutKeepsSound(w, g, w.bus.couriers[g], a');
  }

  lemma BeganAttempts(fin: F.System, bus: Bus, attempts: map<Generation, Attempt>, g: Generation, table: TransitionTable)
    requires AttemptsOk(fin, bus, attempts) && g !in attempts && IsNarrowing(table)
    ensures var a := Attempt(Fresh(g, bus.run, table), false, NothingProduced, None, [], Walking);
      AttemptsOk(fin, OwnerStarted(bus, g), attempts[g := a])
  {
    NarrowingIsSubTable(table);
    FreshIsValid(g, bus.run, table);
    var c := Courier([], Empty(RunFence(bus.run, g)), false);
    var a := Attempt(Fresh(g, bus.run, table), false, NothingProduced, None, [], Walking);
    var bus', attempts' := OwnerStarted(bus, g), attempts[g := a];
    assert MachineOk(bus.run, a.machine) && HandedOver(c.recorded, a) && PcOk(fin, bus.run, g, c, a);
    hide MachineOk, HandedOver, PcOk;
    forall h | h in attempts'
      ensures AttemptOk(fin, bus', h, attempts'[h])
    {
      assert h != g ==> AttemptOk(fin, bus, h, attempts[h]);
    }
  }

  lemma BeganOwners(fin: F.System, rows: seq<StoredTransition>, bus: Bus, bus': Bus, attempts: map<Generation, Attempt>,
                    g: Generation, a: Attempt)
    requires OwnersOk(fin, rows, bus, attempts) && g !in attempts && bus'.run == bus.run && bus'.log == bus.log
    ensures OwnersOk(fin, rows, bus', attempts[g := a])
  {
    hide WellNamed, Bounded, Late, LogOf;
    forall id | FM.OwnerOf(fin, id).Some?
      ensures OwnerOk(rows, bus', attempts[g := a], id, FM.OwnerOf(fin, id).value)
    {
      assert OwnerOk(rows, bus, attempts, id, FM.OwnerOf(fin, id).value);
    }
  }

  lemma BeganStep(w: Whole, g: Generation, table: TransitionTable)
    requires Sound(w) && g !in w.attempts && g !in w.bus.couriers && IsNarrowing(table)
    ensures Sound(DurableWalk.Step(w, Began(g, table)))
  {
    hide F.Inv, ExactlyOnce.Inv, CallsNamed, OwnersOk, AttemptsOk, IsNarrowing;
    OwnerStep(Wire(w), g);
    BeganAttempts(w.fin, w.bus, w.attempts, g, table);
    BeganOwners(w.fin, Rows(w), w.bus, OwnerStarted(w.bus, g), w.attempts, g,
                Attempt(Fresh(g, w.bus.run, table), false, NothingProduced, None, [], Walking));
  }

  lemma EarlyStep(w: Whole, g: Generation, built: string, replyLost: bool)
    requires Sound(w) && IsOpen(w, g) && w.attempts[g].pc.Walking? && CanTick(w, g)
    ensures Sound(WriteEarly(w, g, built, replyLost))
  {
    hide F.Inv, ExactlyOnce.Inv, AttemptsOk, OwnersOk, CallsNamed;
    var (c, a) := (w.bus.couriers[g], w.attempts[g]);
    var fence, id := RunFence(w.bus.run, g), EarlyId(w.bus.run, g);
    var record := EvidenceSink.Record(EvidenceSink.EarlyTerminationRecord, EarlyRecordOf(a, built));
    var (answer, evidence) := EvidenceSink.WriteRecord(w.fin.stores.evidence, fence, id, record);
    var w1 := w.(fin := F.Step(w.fin, F.Wrote(fence, id, record)));
    assert w1.fin.stores.evidence == evidence;
    assert answer == Accepted ==> id in evidence.landed && evidence.landed[id] == record;
    CoordinatorKeepsSound(w, F.Wrote(fence, id, record));
    SoundOwner(w, g);
    hide F.Step, OwnerSound, LogOf, EarlyWritten, EvidenceSink.WriteRecord;
    EarlyKeeps(w.bus.run, g, c, a, LogOf(w.bus.log, g), built, answer);
    var (c', a') := if replyLost then (c, a.(earlyRecord := Some(EarlyRecordOf(a, built)))) else EarlyWritten(c, a, built, answer);
    if replyLost {
      EarlyRecordKept(w.bus.run, g, c, a, LogOf(w.bus.log, g), a'.earlyRecord);
    }
    PutKeepsSound(w1, g, c', a');
  }

  lemma EarlyRecordKept(run: RunId, g: Generation, c: Courier, a: Attempt, landed: seq<Fact>, record: Option<string>)
    requires OwnerSound(run, g, c, a, landed)
    ensures OwnerSound(run, g, c, a.(earlyRecord := record), landed) && Grows(c, a, c, a.(earlyRecord := record))
  {
  }

  lemma EmptyOutboxMeansLanded(run: RunId, g: Generation, c: Courier, landed: seq<Fact>)
    requires CourierOk(run, g, c) && PrefixOk(c, landed) && c.outbox.pending == []
    ensures landed == c.recorded
  {
  }

  /** The commit `finish` calls is bounded by a record that has wholly landed. */
  lemma GateIsAdmissible(w: Whole, g: Generation, what: Sealed)
    requires Sound(w) && IsOpen(w, g) && w.attempts[g].pc.Sealing? && w.bus.couriers[g].outbox.pending == []
    ensures Admissible(w, CommitFor(w.bus.run, g, w.attempts[g].pc.capability.entries, what))
  {
    hide F.Inv, ExactlyOnce.Inv, AttemptsOk, OwnersOk, CallsNamed, Bounded;
    SoundOwner(w, g);
    EmptyOutboxMeansLanded(w.bus.run, g, w.bus.couriers[g], LogOf(w.bus.log, g));
  }

  lemma GateStep(w: Whole, g: Generation, eligible: bool, what: Sealed, rejects: bool, at: string)
    requires Sound(w) && IsOpen(w, g) && w.attempts[g].pc.Sealing? && CanTick(w, g)
    ensures Sound(PassGate(w, g, eligible, what, rejects, at))
  {
    hide F.Inv, ExactlyOnce.Inv, AttemptsOk, OwnersOk, CallsNamed;
    var (c, a) := (w.bus.couriers[g], w.attempts[g]);
    var call := |w.fin.calls|;
    var (c', a') := SealGate(c, a, eligible, call, at);
    SoundOwner(w, g);
    hide OwnerSound, LogOf, SealGate, Bounded, F.Enter;
    GateKeeps(w.bus.run, g, c, a, LogOf(w.bus.log, g), eligible, call, at);
    if a'.pc.Committing? {
      var commit := CommitFor(w.bus.run, g, a.pc.capability.entries, what);
      GateIsAdmissible(w, g, what);
      CoordinatorKeepsSound(w, F.CommitCalled(commit, rejects));
      var w1 := w.(fin := F.Enter(w.fin, commit, rejects));
      FT.EnterEffect(w.fin, commit, rejects);
      PutKeepsSound(w1, g, c', a');
    } else {
      PutKeepsSound(w, g, c', a');
    }
  }

  /** A committed answer means the generation's terminal is this commit, bounded by what landed. */
  lemma AnswerIsOurs(w: Whole, g: Generation, i: nat, entries: seq<TransitionEntry>)
    requires i < |w.fin.calls| && (w.fin.calls[i].Joined? ==> w.fin.calls[i].task < |w.fin.tasks|)
    requires FT.ToldTo(w.fin, i) == Some(F.Committed)
    requires g in w.attempts && w.attempts[g].pc.Committing? && entries != []
    requires w.attempts[g].pc.call == i && w.attempts[g].pc.capability.entries == entries
    requires Sound(w)
    ensures var id := w.fin.calls[i].commit.id;
      var h := RunFence(w.bus.run, g);
      && id in w.fin.sealed && F.Holder(w.fin.sealed[id]) == h && w.fin.sealed[id].transitions == entries
      && h in w.fin.finalized && w.fin.finalized[h] == id
    ensures Bounded(w.attempts[g].machine, |FactTransitions(LogOf(w.bus.log, g))|, entries[0])
  {
    hide F.Inv, ExactlyOnce.Inv, AttemptsOk, OwnersOk, Bounded, WellNamed, OwnerOk, FT.ToldTo, OwnerSound;
    var c := w.fin.calls[i].commit;
    SoundOwner(w, g);
    FT.CallFacts(w.fin, i);
    FT.SealedHolder(w.fin, c.id);
    SealedOwner(w, c.id);
    assert WellNamed(c);
    NamesAgree(c, w.fin.sealed[c.id]);
  }

  lemma SealedOwner(w: Whole, id: CommitId)
    requires Sound(w) && id in w.fin.sealed
    ensures var k := w.fin.sealed[id];
      && WellNamed(k)
      && (k.run == w.bus.run ==>
            k.generation in w.attempts && k.transitions != []
            && Bounded(w.attempts[k.generation].machine, |FactTransitions(LogOf(w.bus.log, k.generation))|, k.transitions[0]))
  {
    hide F.Inv, ExactlyOnce.Inv, AttemptsOk, Bounded, Late;
    assert FM.OwnerOf(w.fin, id) == Some(w.fin.sealed[id]);
    assert OwnerOk(Rows(w), w.bus, w.attempts, id, w.fin.sealed[id]);
  }

  lemma NamesAgree(c: F.Commit, k: F.Commit)
    requires WellNamed(c) && WellNamed(k) && c.id == k.id
    ensures F.Holder(c) == F.Holder(k)
  {
    CommitIdNamesHolder(c.run, c.generation, StateName(c.terminal), k.run, k.generation, StateName(k.terminal));
  }

  lemma ReturnStep(w: Whole, g: Generation, at: string)
    requires Sound(w) && IsOpen(w, g) && w.attempts[g].pc.Committing? && CanTick(w, g)
    ensures Sound(Return(w, g, at))
  {
    hide F.Inv, ExactlyOnce.Inv, AttemptsOk, OwnersOk, CallsNamed;
    var (c, a) := (w.bus.couriers[g], w.attempts[g]);
    var call := a.pc.call;
    SoundOwner(w, g);
    if call < |w.fin.calls| && (w.fin.calls[call].Joined? ==> w.fin.calls[call].task < |w.fin.tasks|)
       && FT.ToldTo(w.fin, call).Some? {
      var outcome := FT.ToldTo(w.fin, call).value;
      var (c', a') := CommitAnswered(c, a, outcome, at);
      hide OwnerSound, LogOf, CommitAnswered, Bounded, FT.ToldTo, Grows;
      if outcome.Committed? {
        AnswerIsOurs(w, g, call, a.pc.capability.entries);
        CommittedAnswer(w.bus.run, g, c, a, LogOf(w.bus.log, g), at);
      } else {
        RefusedAnswer(w.bus.run, g, c, a, LogOf(w.bus.log, g), outcome.reason, at);
      }
      PutKeepsSound(w, g, c', a');
    }
  }

  lemma ElsewhereKeepsSound(w: Whole, action: F.Action)
    requires Sound(w) && IsElsewhere(w.bus.run, action)
    ensures Sound(w.(fin := F.Step(w.fin, action)))
  {
    if action.Appended? {
      OtherAppendKeepsSound(w, action.fence, action.entry, action.fact);
    } else {
      CoordinatorKeepsSound(w, action);
    }
  }

  lemma DeliveryKeepsSound(w: Whole, action: DurableWalk.Action)
    requires Sound(w)
    requires action.Sending? || action.Arriving? || action.HeadAcked? || action.HeadStale? || action.Lost? || action.Elsewhere?
    ensures Sound(DurableWalk.Step(w, action))
  {
    hide Sound, Arrive, F.Step, HeadSent, HeadAcknowledged, HeadRefused, FenceLost, IsElsewhere;
    match action
    case Sending(g) => SendingStep(w, g);
    case Arriving(m) => ArriveKeepsSound(w, m);
    case HeadAcked(g) => AckedStep(w, g);
    case HeadStale(g) => StaleStep(w, g);
    case Lost(g) => if IsMoving(w, g) { LostFenceStep(w, g); }
    case Elsewhere(act) => if IsElsewhere(w.bus.run, act) { ElsewhereKeepsSound(w, act); }
  }

  lemma RecordingKeepsSound(w: Whole, action: DurableWalk.Action)
    requires Sound(w) && (action.Began? || action.MachineMoved? || action.Noted? || action.Ticked?)
    ensures Sound(DurableWalk.Step(w, action))
  {
    hide Sound, Put, MoveMachine, OwnerStarted, FactsRecorded, Tick, CanTick;
    match action
    case Began(g, table) =>
      if g !in w.attempts && g !in w.bus.couriers && IsNarrowing(table) { BeganStep(w, g, table); }
    case MachineMoved(g, move) => if IsOpen(w, g) { MachineStep(w, g, move); }
    case Noted(g, facts, held) => if IsMoving(w, g) && FactTransitions(facts) == [] { NotedStep(w, g, facts, held); }
    case Ticked(g) => if IsMoving(w, g) && CanTick(w, g) { TickedStep(w, g); }
  }

  lemma EndingKeepsSound(w: Whole, action: DurableWalk.Action)
    requires Sound(w)
    requires action.FinishCalled? || action.TickReturned? || action.CommitReturned? || action.CommitInterrupted?
             || action.EarlyWrite? || action.GaveUp? || action.Reported?
    ensures Sound(DurableWalk.Step(w, action))
  {
    hide Sound, Put, PassGate, Return, WriteEarly, StartFinish, BeginConclude, Decide, CanTick;
    match action
    case FinishCalled(g, kind, detail, assembly, at) =>
      if IsOpen(w, g) && w.attempts[g].pc.Walking? && CanTick(w, g) { FinishStep(w, g, kind, detail, assembly, at); }
    case TickReturned(g, eligible, what, rejects, at) =>
      if IsOpen(w, g) && w.attempts[g].pc.Sealing? && CanTick(w, g) { GateStep(w, g, eligible, what, rejects, at); }
    case CommitReturned(g, at) =>
      if IsOpen(w, g) && w.attempts[g].pc.Committing? && CanTick(w, g) { ReturnStep(w, g, at); }
    case CommitInterrupted(g) => if IsOpen(w, g) && w.attempts[g].pc.Committing? { InterruptedStep(w, g); }
    case EarlyWrite(g, built, replyLost) =>
      if IsOpen(w, g) && w.attempts[g].pc.Walking? && !w.bus.couriers[g].lost && CanTick(w, g) { EarlyStep(w, g, built, replyLost); }
    case GaveUp(g) => if IsOpen(w, g) && w.attempts[g].pc.Walking? && CanTick(w, g) { GaveUpStep(w, g); }
    case Reported(g) => if IsMoving(w, g) && w.attempts[g].pc.Concluding? { ReportedStep(w, g); }
  }

  lemma StepKeepsSound(w: Whole, action: DurableWalk.Action)
    requires Sound(w)
    ensures Sound(DurableWalk.Step(w, action))
  {
    hide Sound, DurableWalk.Step;
    if action.Sending? || action.Arriving? || action.HeadAcked? || action.HeadStale? || action.Lost? || action.Elsewhere? {
      DeliveryKeepsSound(w, action);
    } else if action.Began? || action.MachineMoved? || action.Noted? || action.Ticked? {
      RecordingKeepsSound(w, action);
    } else {
      EndingKeepsSound(w, action);
    }
  }

  lemma InitiallySound(run: RunId)
    requires '#' !in run
    ensures Sound(DurableWalk.Initial(run))
  {
    FR.InitiallyInv();
    ExactlyOnce.InitiallyInv(run);
    assert Wire(DurableWalk.Initial(run)) == ExactlyOnce.Initial(run);
  }

  lemma {:induction false} PlayKeepsSound(w: Whole, actions: seq<DurableWalk.Action>)
    requires Sound(w)
    ensures Sound(DurableWalk.Play(w, actions)) && DurableWalk.Play(w, actions).bus.run == w.bus.run
    decreases actions
  {
    if actions != [] {
      StepKeepsSound(w, actions[0]);
      SameRun(w, actions[0]);
      PlayKeepsSound(DurableWalk.Step(w, actions[0]), actions[1..]);
    }
  }

  lemma SameRun(w: Whole, action: DurableWalk.Action)
    ensures DurableWalk.Step(w, action).bus.run == w.bus.run
  {
    hide F.Step, F.Enter, Append, SealGate, CommitAnswered, StartFinish, BeginConclude, Tick, EarlyWritten, RecordAll;
  }

  // ------------------------------------------------------------------- theorems

  /** The published commits of one (run, generation). */
  function CommitsOf(sealed: map<CommitId, F.Commit>, h: RunFence): set<CommitId> {
    set id | id in sealed && F.Holder(sealed[id]) == h
  }

  lemma OneCommitOf(fin: F.System, h: RunFence)
    requires F.Inv(fin) && h in fin.finalized
    ensures fin.finalized[h] in fin.sealed && CommitsOf(fin.sealed, h) == {fin.finalized[h]}
  {
  }

  lemma NoCommitOf(fin: F.System, h: RunFence)
    requires F.Inv(fin) && h !in fin.finalized
    ensures CommitsOf(fin.sealed, h) == {}
  {
  }

  /** What readers of the journal see of one generation's walk, in page order. */
  function DurableWalkOf(w: Whole, g: Generation): seq<TransitionEntry>
    requires |Plain(Rows(w))| == |GensOf(w.bus.log)|
  {
    VisibleOf(Rows(w), GensOf(w.bus.log), CommitsOf(w.fin.sealed, RunFence(w.bus.run, g)), g)
  }

  lemma VisibleWhenSealed(w: Whole, g: Generation)
    requires Sound(w) && g in w.attempts && SealedAs(w.fin, w.bus.run, g, w.attempts[g])
    ensures |Plain(Rows(w))| == |GensOf(w.bus.log)|
    ensures DurableWalkOf(w, g) == w.attempts[g].machine.transitions
  {
    var a := w.attempts[g];
    var m := a.machine;
    var h := RunFence(w.bus.run, g);
    var id := w.fin.finalized[h];
    var k := w.fin.sealed[id];
    var rows, gens := Rows(w), GensOf(w.bus.log);
    var landed := FactTransitions(LogOf(w.bus.log, g));
    assert FM.OwnerOf(w.fin, id) == Some(k);
    assert OwnerOk(rows, w.bus, w.attempts, id, k);
    hide OwnersOk, CallsNamed, AttemptsOk;
    SoundOwner(w, g);
    GensAlign(w);
    OneCommitOf(w.fin, h);
    FT.SealedIsPublished(w.fin);
    FT.SealedIsVisible(w.fin, id);
    hide F.Inv, ExactlyOnce.Inv;
    assert FT.TailUnder(w.fin, w.bus.run, id) == a.tail;
    assert Under(rows, id) == a.tail;
    TailStart(w.bus.run, g, w.bus.couriers[g], a, LogOf(w.bus.log, g));
    PickIsLanded(w.bus.log, g);
    LandedThenTail(rows, gens, g, id, Rank(a.tail[0].from));
  }

  /** An adopted tail is the end of the record, and all before it landed and starts lower. */
  lemma TailStart(run: RunId, g: Generation, c: Courier, a: Attempt, landed: seq<Fact>)
    requires OwnerSound(run, g, c, a, landed) && a.tail != []
    requires a.machine.journaledTransitions == |a.machine.transitions|
    requires Bounded(a.machine, |FactTransitions(landed)|, a.tail[0])
    ensures FactTransitions(landed) + a.tail == a.machine.transitions
    ensures forall e | e in FactTransitions(landed) :: Rank(e.from) < Rank(a.tail[0].from)
  {
    var m := a.machine;
    var recorded := FactTransitions(c.recorded);
    assert m.transitions[..|m.transitions|] == m.transitions;
    assert recorded + a.tail == m.transitions;
    LandedIsPrefix(c, landed);
    EarlierStartsLower(run, m);
    var n := |recorded|;
    assert m.transitions[n] == a.tail[0];
    if n > 0 {
      assert Rank(m.transitions[n - 1].from) < Rank(m.transitions[n].from);
      assert n - 1 < |FactTransitions(landed)|;
    }
    assert FactTransitions(landed) == recorded;
    forall e | e in FactTransitions(landed)
      ensures Rank(e.from) < Rank(a.tail[0].from)
    {
      var i :| 0 <= i < n && recorded[i] == e;
      assert m.transitions[i] == e;
    }
  }

  /** What a `terminal` conclusion with a sealed bundle has made durable. */
  ghost predicate WalkIsDurable(w: Whole, g: Generation, state: LifecycleState) {
    && g in w.attempts && g in w.bus.couriers && |Plain(Rows(w))| == |GensOf(w.bus.log)|
    && DurableWalkOf(w, g) == w.attempts[g].machine.transitions
    && IsTerminal(state) && state == StateAfter(Requested, DurableWalkOf(w, g))
    && w.bus.couriers[g].outbox.pending == []
    && var h := RunFence(w.bus.run, g);
    && h in w.fin.finalized && w.fin.finalized[h] in w.fin.sealed
    && FT.WhollyVisible(w.fin, w.fin.finalized[h])
  }

  lemma ConcludedWalk(w: Whole, g: Generation, state: LifecycleState)
    requires Sound(w) && g in w.attempts && w.attempts[g].pc == Concluded(Terminal(state, EvidenceBundle))
    ensures WalkIsDurable(w, g, state)
  {
    hide F.Inv, ExactlyOnce.Inv, OwnersOk, CallsNamed, AttemptsOk, FT.WhollyVisible;
    SoundOwner(w, g);
    assert SealedAs(w.fin, w.bus.run, g, w.attempts[g]);
    VisibleWhenSealed(w, g);
    hide DurableWalkOf;
    FT.SealedIsPublished(w.fin);
    FT.SealedIsVisible(w.fin, w.fin.finalized[RunFence(w.bus.run, g)]);
  }

  /**
   * The durable walk is the walk: when `finish` concludes with a sealed bundle, what readers of the
   * journal see of this generation is its machine's transition record, entry by entry, in order,
   * nothing missing and nothing twice; the bundle and the terminal event are durable with it; and
   * nothing of the record is still waiting in the outbox.
   */
  lemma DurableWalkIsTheWalk(run: RunId, actions: seq<DurableWalk.Action>, g: Generation, state: LifecycleState)
    requires '#' !in run
    requires ConcludedAs(DurableWalk.Play(DurableWalk.Initial(run), actions), g, Terminal(state, EvidenceBundle))
    ensures WalkIsDurable(DurableWalk.Play(DurableWalk.Initial(run), actions), g, state)
  {
    hide DurableWalk.Play, Sound, WalkIsDurable;
    InitiallySound(run);
    PlayKeepsSound(DurableWalk.Initial(run), actions);
    ConcludedWalk(DurableWalk.Play(DurableWalk.Initial(run), actions), g, state);
  }

  predicate ConcludedAs(w: Whole, g: Generation, conclusion: Conclusion) {
    g in w.attempts && w.attempts[g].pc == Concluded(conclusion)
  }

  /** What any `terminal` conclusion has made durable. */
  ghost predicate RecordIsDurable(w: Whole, g: Generation, state: LifecycleState, produced: Produced) {
    && g in w.attempts && g in w.bus.couriers
    && var a := w.attempts[g];
    && produced != NothingProduced && IsTerminal(state) && state == a.machine.state
    && w.bus.couriers[g].outbox.pending == [] && !w.bus.couriers[g].lost
    && LogOf(w.bus.log, g) == w.bus.couriers[g].recorded
    && FactTransitions(LogOf(w.bus.log, g)) + a.tail == a.machine.transitions
    && (produced == EarlyTerminationRecord ==>
          a.tail == [] && HoldsEarlyRecord(w.fin.stores.evidence.landed, w.bus.run, g, a))
    && |a.machine.transitions| <= 7
  }

  lemma ConcludedRecord(w: Whole, g: Generation, state: LifecycleState, produced: Produced)
    requires Sound(w) && g in w.attempts && w.attempts[g].pc == Concluded(Terminal(state, produced))
    ensures RecordIsDurable(w, g, state, produced)
  {
    hide F.Inv, ExactlyOnce.Inv, OwnersOk, CallsNamed, AttemptsOk, LogOf;
    SoundOwner(w, g);
    var a := w.attempts[g];
    EmptyOutboxMeansLanded(w.bus.run, g, w.bus.couriers[g], LogOf(w.bus.log, g));
    assert a.machine.transitions[..|a.machine.transitions|] == a.machine.transitions;
    ChainsAreShort(a.machine.table, a.machine.run, a.machine.transitions);
  }

  /**
   * Any `terminal` conclusion: the outbox is empty, the fence was never lost, the machine is
   * terminal, a governed record is durable, and every transition the machine took is durable.
   */
  lemma TerminalConclusionIsDurable(run: RunId, actions: seq<DurableWalk.Action>, g: Generation, state: LifecycleState, produced: Produced)
    requires '#' !in run
    requires ConcludedAs(DurableWalk.Play(DurableWalk.Initial(run), actions), g, Terminal(state, produced))
    ensures RecordIsDurable(DurableWalk.Play(DurableWalk.Initial(run), actions), g, state, produced)
  {
    hide DurableWalk.Play, Sound, RecordIsDurable;
    InitiallySound(run);
    PlayKeepsSound(DurableWalk.Initial(run), actions);
    ConcludedRecord(DurableWalk.Play(DurableWalk.Initial(run), actions), g, state, produced);
  }
}
