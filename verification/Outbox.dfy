/**
 * The one journal outbox of an ownership, and the flush that drains it through a journal whose
 * acknowledgements may be lost.
 */
module Outboxes {
  import opened Options
  import opened Visibility
  import opened Fence
  import opened Lifecycle
  import opened Journal
  import Machines

  datatype Entry = Entry(id: EntryId, fact: Fact)

  datatype Outbox = Outbox(scope: RunFence, pending: seq<Entry>, minted: nat)

  function Empty(scope: RunFence): Outbox {
    Outbox(scope, [], 0)
  }

  function IdAt(scope: RunFence, index: nat): EntryId {
    EntryId(scope.run, scope.generation, index)
  }

  /** The entries `facts` become when they are recorded after `minted` others. */
  function Entries(scope: RunFence, minted: nat, facts: seq<Fact>): seq<Entry> {
    seq(|facts|, i requires 0 <= i < |facts| => Entry(IdAt(scope, minted + i + 1), facts[i]))
  }

  function RecordAll(o: Outbox, facts: seq<Fact>): Outbox {
    o.(pending := o.pending + Entries(o.scope, o.minted, facts), minted := o.minted + |facts|)
  }

  function Landed(o: Outbox): Outbox {
    o.(pending := if o.pending == [] then [] else o.pending[1..])
  }

  function TransitionFacts(entries: seq<TransitionEntry>): seq<Fact> {
    seq(|entries|, i requires 0 <= i < |entries| => TransitionFact(entries[i]))
  }

  function RejectionFacts(entries: seq<RejectionEntry>): seq<Fact> {
    seq(|entries|, i requires 0 <= i < |entries| => RejectionFact(entries[i]))
  }

  /** The part of the record past the cursors, transitions before rejections. */
  function Undrained(m: Machines.Machine): seq<Fact>
    requires m.journaledTransitions <= |m.transitions| && m.journaledRejections <= |m.rejections|
  {
    TransitionFacts(Machines.PendingTransitions(m)) + RejectionFacts(Machines.PendingRejections(m))
  }

  function Drained(m: Machines.Machine): Machines.Machine {
    m.(journaledTransitions := |m.transitions|, journaledRejections := |m.rejections|)
  }

  class JournalOutbox {
    const scope: RunFence
    var pending: seq<Entry>
    var minted: nat

    function State(): Outbox
      reads this
    {
      Outbox(scope, pending, minted)
    }

    constructor (scope: RunFence)
      ensures State() == Empty(scope)
    {
      this.scope, pending, minted := scope, [], 0;
    }

    method Record(fact: Fact)
      modifies this
      ensures State() == RecordAll(old(State()), [fact])
    {
      minted := minted + 1;
      pending := pending + [Entry(IdAt(scope, minted), fact)];
    }

    /** Take over everything the machine has recorded; from here durability is tracked here. */
    method DrainMachine(machine: Machines.RunMachine)
      requires machine.journaledTransitions <= |machine.transitions| && machine.journaledRejections <= |machine.rejections|
      modifies this, machine
      ensures State() == RecordAll(old(State()), Undrained(old(machine.State())))
      ensures machine.State() == Drained(old(machine.State()))
    {
      var transitions := machine.transitions[machine.journaledTransitions..];
      var rejections := machine.rejections[machine.journaledRejections..];
      ghost var first := TransitionFacts(transitions);
      ghost var all := first + RejectionFacts(rejections);
      for i := 0 to |transitions|
        invariant State() == RecordAll(old(State()), first[..i])
        invariant machine.State() == old(machine.State())
      {
        Record(TransitionFact(transitions[i]));
        assert first[..i + 1] == first[..i] + [TransitionFact(transitions[i])];
      }
      assert first[..|transitions|] == all[..|transitions|];
      for i := 0 to |rejections|
        invariant State() == RecordAll(old(State()), all[..|transitions| + i])
        invariant machine.State() == old(machine.State())
      {
        Record(RejectionFact(rejections[i]));
        assert all[..|transitions| + i + 1] == all[..|transitions| + i] + [RejectionFact(rejections[i])];
      }
      assert all[..|transitions| + |rejections|] == all;
      machine.Confirm(|transitions|, |rejections|);
    }

    /** The oldest fact that has not landed. */
    method Head() returns (head: Option<Entry>)
      ensures head == if pending == [] then None else Some(pending[0])
    {
      head := if |pending| > 0 then Some(pending[0]) else None;
    }

    method HeadLanded()
      modifies this
      ensures State() == Landed(old(State()))
    {
      if |pending| > 0 {
        pending := pending[1..];
      }
    }

    method IsEmpty() returns (empty: bool)
      ensures empty <==> pending == []
    {
      empty := |pending| == 0;
    }
  }

  /** Recording one list and then another is recording them together. */
  lemma RecordingIsQueueing(o: Outbox, a: seq<Fact>, b: seq<Fact>)
    ensures RecordAll(RecordAll(o, a), b) == RecordAll(o, a + b)
  {
    assert Entries(o.scope, o.minted, a + b) == Entries(o.scope, o.minted, a) + Entries(o.scope, o.minted + |a|, b);
  }

  /** Draining in two goes hands over the same facts, category by category, and nothing twice. */
  lemma DrainingIsIncremental(m: Machines.Machine, more: seq<TransitionEntry>)
    requires m.journaledTransitions <= |m.transitions| && m.journaledRejections <= |m.rejections|
    ensures Undrained(Drained(m)) == []
    ensures Undrained(Drained(m).(transitions := m.transitions + more)) == TransitionFacts(more)
  {
    assert (m.transitions + more)[|m.transitions|..] == more;
  }

  // ----------------------------------------------------------------- the flush

  /** What becomes of one append: the reply arrives, is lost after landing, or nothing lands. */
  datatype Delivery = Replied | ReplyLost | NeverArrived

  datatype FlushEnd = OutboxDrained | LeftPending | Conflicted | FenceRefused

  function AppendAll(j: JournalState, fence: RunFence, entries: seq<Entry>): JournalState
    decreases entries
  {
    if entries == [] then j else AppendAll(Append(j, fence, entries[0].id, entries[0].fact).1, fence, entries[1..])
  }

  /** Whether the page of `run` holds this fact under this identity. */
  predicate HasLanded(j: JournalState, run: RunId, entry: Entry) {
    entry.id in PageOf(j, run).seen && PageOf(j, run).seen[entry.id] == entry.fact
  }

  lemma {:induction false} AppendAllSnoc(j: JournalState, fence: RunFence, entries: seq<Entry>, last: Entry)
    ensures AppendAll(j, fence, entries + [last]) == Append(AppendAll(j, fence, entries), fence, last.id, last.fact).1
    decreases entries
  {
    if entries == [] {
      assert [last][1..] == [];
    } else {
      AppendAllSnoc(Append(j, fence, entries[0].id, entries[0].fact).1, fence, entries[1..], last);
      assert (entries + [last])[1..] == entries[1..] + [last];
    }
  }

  lemma LandedStaysLanded(j: JournalState, fence: RunFence, id: EntryId, fact: Fact, run: RunId, entry: Entry)
    requires HasLanded(j, run, entry)
    ensures HasLanded(Append(j, fence, id, fact).1, run, entry)
  {
  }

  /** The first `k` of `entries` were appended and hold. */
  ghost predicate Appended(j0: JournalState, j: JournalState, scope: RunFence, entries: seq<Entry>, k: nat)
    requires k <= |entries|
  {
    && j == AppendAll(j0, scope, entries[..k])
    && (forall i | 0 <= i < k :: HasLanded(j, scope.run, entries[i]))
  }

  lemma AppendedOneMore(j0: JournalState, j: JournalState, scope: RunFence, entries: seq<Entry>, k: nat)
    requires k < |entries| && Appended(j0, j, scope, entries, k)
    ensures var (answer, j') := Append(j, scope, entries[k].id, entries[k].fact);
      && j' == AppendAll(j0, scope, entries[..k + 1])
      && (forall i | 0 <= i < k :: HasLanded(j', scope.run, entries[i]))
      && (answer == Accepted ==> Appended(j0, j', scope, entries, k + 1))
      && (answer == StaleFence ==> j' == j && !Admits(j'.fence, scope))
      && (answer == ConflictingReplay ==>
            entries[k].id in PageOf(j', scope.run).seen && !HasLanded(j', scope.run, entries[k]))
  {
    var entry := entries[k];
    assert entries[..k + 1] == entries[..k] + [entry];
    AppendAllSnoc(j0, scope, entries[..k], entry);
    forall i | 0 <= i < k
      ensures HasLanded(Append(j, scope, entry.id, entry.fact).1, scope.run, entries[i])
    {
      LandedStaysLanded(j, scope, entry.id, entry.fact, scope.run, entries[i]);
    }
  }

  /**
   * One tick: append from the head until the outbox is empty, a fault interrupts, or the fence
   * refuses. Only what was acknowledged is removed; at most one further fact, the one whose reply
   * was lost, has landed and is still pending.
   */
  method FlushJournal(outbox: JournalOutbox, journal: InMemoryRunJournal, faults: seq<Delivery>)
    returns (end: FlushEnd, ghost k: nat)
    modifies outbox, journal, journal.fence
    ensures outbox.minted == old(outbox.minted)
    ensures k <= |old(outbox.pending)| && outbox.pending == old(outbox.pending)[k..]
    ensures forall i | 0 <= i < k :: HasLanded(journal.State(), outbox.scope.run, old(outbox.pending)[i])
    ensures journal.State() == AppendAll(old(journal.State()), outbox.scope, old(outbox.pending)[..k])
            || (k < |old(outbox.pending)|
                && journal.State() == AppendAll(old(journal.State()), outbox.scope, old(outbox.pending)[..k + 1]))
    ensures end == OutboxDrained <==> outbox.pending == []
    ensures end == FenceRefused ==> !Admits(journal.State().fence, outbox.scope)
    ensures end == Conflicted ==>
      var entry := outbox.pending[0];
      entry.id in PageOf(journal.State(), outbox.scope.run).seen && !HasLanded(journal.State(), outbox.scope.run, entry)
  {
    hide Append, AppendAll, HasLanded;
    ghost var before, j0 := outbox.pending, journal.State();
    k := 0;
    AppendedNone(j0, outbox.scope, before);
    var next := 0;
    while true
      invariant 0 <= k <= |before| && outbox.minted == old(outbox.minted)
      invariant outbox.pending == before[k..]
      invariant Appended(j0, journal.State(), outbox.scope, before, k)
      decreases |before| - k
    {
      var head := outbox.Head();
      if head.None? {
        return OutboxDrained, k;
      }
      var entry := head.value;
      assert entry == before[k];
      AppendedOneMore(j0, journal.State(), outbox.scope, before, k);
      var delivery := if next < |faults| then faults[next] else Replied;
      next := next + 1;
      if delivery == NeverArrived {
        return LeftPending, k;
      }
      var answer := journal.AppendFact(outbox.scope, entry.id, entry.fact);
      if delivery == ReplyLost {
        return LeftPending, k;
      }
      if answer == ConflictingReplay {
        return Conflicted, k;
      }
      if answer == StaleFence {
        return FenceRefused, k;
      }
      outbox.HeadLanded();
      k := k + 1;
    }
  }

  lemma AppendedNone(j: JournalState, scope: RunFence, entries: seq<Entry>)
    ensures Appended(j, j, scope, entries, 0)
  {
  }
}
