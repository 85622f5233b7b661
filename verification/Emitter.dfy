/** The event emitter: sequence allocation over a stream that others may already occupy. */
module Emitters {
  import opened Options
  import opened Visibility
  import opened Fence
  import opened EventSink
  import opened RecordingSinks
  import P = EventSinkProofs

  /** What becomes of one presentation: answered, answered to nobody, or never arrived. */
  datatype Delivery = Replied | ReplyLost | NeverArrived

  datatype Result = Answered(answer: Answer) | Unknown

  /** History: each identity presented, the event it was presented for, and what was learnt. */
  datatype Try = Try(event: Event, result: Result)

  datatype Emitter = Emitter(fence: RunFence, sequence: nat, emitted: seq<Event>, tries: seq<Try>)

  /**
   * One turn of the loop. The identity is allocated before the effect, and only a definitive
   * fence refusal gives it back.
   */
  function Present(e: Emitter, s: Sink, published: set<CommitId>, body: string, delivery: Delivery): (r: (Result, Emitter, Sink)) {
    var event := Event(e.sequence, body);
    var consumed := e.(sequence := e.sequence + 1);
    match delivery
    case NeverArrived => (Unknown, consumed.(tries := e.tries + [Try(event, Unknown)]), s)
    case ReplyLost =>
      (Unknown, consumed.(tries := e.tries + [Try(event, Unknown)]), Emit(s, published, e.fence, e.sequence, event).1)
    case Replied =>
      var (answer, s') := Emit(s, published, e.fence, e.sequence, event);
      var tries := e.tries + [Try(event, Answered(answer))];
      match answer
      case Accepted => (Answered(answer), consumed.(emitted := e.emitted + [event], tries := tries), s')
      case ConflictingReplay => (Answered(answer), consumed.(tries := tries), s')
      case StaleFence => (Answered(answer), e.(tries := tries), s')
  }

  /** `k` turns, with the body and the fate each identity would have. */
  function PresentMany(e: Emitter, s: Sink, published: set<CommitId>, body: nat -> string, delivery: nat -> Delivery, k: nat)
    : (Emitter, Sink)
  {
    if k == 0 then (e, s)
    else
      var (e', s') := PresentMany(e, s, published, body, delivery, k - 1);
      var (_, e'', s'') := Present(e', s', published, body(e'.sequence), delivery(e'.sequence));
      (e'', s'')
  }

  // ---------------------------------------------------------- occupied identities

  /** The sequences of a run that the sink holds anything at. */
  function Occupied(s: Sink, run: RunId): set<nat> {
    set id | id in s.landed.Keys + s.reserved.Keys && id.run == run :: id.sequence
  }

  function OccupiedFrom(s: Sink, run: RunId, sequence: nat): set<nat> {
    set n | n in Occupied(s, run) && sequence <= n
  }

  /** A conflict names an occupied identity and writes nothing. */
  lemma ConflictMeansOccupied(s: Sink, published: set<CommitId>, fence: RunFence, event: Event)
    requires Valid(s) && Emit(s, published, fence, event.sequence, event).0 == ConflictingReplay
    ensures var s' := Emit(s, published, fence, event.sequence, event).1;
      && event.sequence in Occupied(s, fence.run) && s' == s.(fence := s'.fence)
      && OccupiedFrom(s', fence.run, event.sequence + 1) < OccupiedFrom(s, fence.run, event.sequence)
  {
    var id := Identity(fence.run, event.sequence);
    var s1 := s.(fence := After(s.fence, fence));
    var s' := Emit(s, published, fence, event.sequence, event).1;
    P.FirstPublishedFinds(RowsOf(s.byRun, id.run), published, id.sequence);
    if id !in s.landed && Durable(s1, published, id).Some? {
      var row :| row in RowsOf(s.byRun, id.run) && row.commit.Some? && row.event.sequence == id.sequence;
      assert Stored(s, id.run, row);
      assert IsStage(s, id, row.commit.value, row);
    }
    assert id in s.landed.Keys + s.reserved.Keys;
    assert event.sequence in OccupiedFrom(s, fence.run, event.sequence);
    assert Occupied(s', fence.run) == Occupied(s, fence.run);
  }

  lemma SmallerSet(a: set<nat>, b: set<nat>)
    requires a < b
    ensures |a| < |b|
  {
    var x :| x in b && x !in a;
    assert a <= b - {x};
    SubsetSize(a, b - {x});
  }

  lemma {:induction false} SubsetSize(a: set<nat>, b: set<nat>)
    requires a <= b
    ensures |a| <= |b|
  {
    if a != {} {
      var x :| x in a;
      SubsetSize(a - {x}, b - {x});
    }
  }

  // ------------------------------------------------------------------ the object

  datatype EmitOutcome = Emitted(event: Event) | ContractInvalid | SinkFailed | FenceLost

  class RunEventEmitter {
    const fence: RunFence
    var sequence: nat
    var emitted: seq<Event>
    ghost var tries: seq<Try>

    ghost function State(): Emitter
      reads this
    {
      Emitter(fence, sequence, emitted, tries)
    }

    constructor (fence: RunFence)
      ensures State() == Emitter(fence, 0, [], [])
    {
      this.fence, sequence, emitted, tries := fence, 0, [], [];
    }

    /** One turn of the loop; None when the event was refused by the contract before allocation. */
    method PresentOne(sink: RecordingEventSink, body: string, delivery: Delivery) returns (result: Result)
      requires Valid(sink.State())
      modifies this, sink, sink.fence
      ensures (result, State(), sink.State()) == Present(old(State()), old(sink.State()), sink.visibility.published, body, delivery)
      ensures Valid(sink.State())
    {
      var event := Event(sequence, body);
      sequence := sequence + 1;
      if delivery == NeverArrived {
        tries := tries + [Try(event, Unknown)];
        return Unknown;
      }
      var answer := sink.Emit(fence, event.sequence, event);
      if delivery == ReplyLost {
        tries := tries + [Try(event, Unknown)];
        return Unknown;
      }
      tries := tries + [Try(event, Answered(answer))];
      match answer {
        case Accepted => emitted := emitted + [event];
        case ConflictingReplay =>
        case StaleFence => sequence := event.sequence;
      }
      result := Answered(answer);
    }

    /**
     * Emit one event at the first identity that is not taken: each identity passed over was
     * occupied by something else, so the loop ends by the count of occupied identities ahead.
     */
    method EmitEvent(sink: RecordingEventSink, body: nat -> string, contract: Event -> bool, delivery: nat -> Delivery)
      returns (outcome: EmitOutcome, ghost turns: nat)
      requires Valid(sink.State())
      modifies this, sink, sink.fence
      ensures Valid(sink.State())
      ensures (State(), sink.State()) == PresentMany(old(State()), old(sink.State()), sink.visibility.published, body, delivery, turns)
      ensures outcome.Emitted? ==>
        && outcome.event.sequence + 1 == sequence && outcome.event.body == body(outcome.event.sequence)
        && emitted == old(emitted) + [outcome.event]
        && sequence == old(sequence) + turns
        && (forall n | old(sequence) <= n < outcome.event.sequence :: n in Occupied(old(sink.State()), fence.run))
        && IsDurable(sink.State(), sink.visibility.published, fence.run, outcome.event)
      ensures !outcome.Emitted? ==> emitted == old(emitted)
      ensures outcome.SinkFailed? ==> sequence == old(sequence) + turns
      ensures outcome.FenceLost? ==> sequence + 1 == old(sequence) + turns && !Admits(sink.State().fence, fence)
      ensures outcome.ContractInvalid? ==> sequence == old(sequence) + turns && !contract(Event(sequence, body(sequence)))
    {
      hide Valid, Emit, Occupied, IsDurable, OccupiedFrom, Admits;
      turns := 0;
      ghost var s0, published := sink.State(), sink.visibility.published;
      while true
        invariant Valid(sink.State())
        invariant (State(), sink.State()) == PresentMany(old(State()), s0, published, body, delivery, turns)
        invariant sequence == old(sequence) + turns && emitted == old(emitted)
        invariant Occupied(sink.State(), fence.run) == Occupied(s0, fence.run)
        invariant forall n | old(sequence) <= n < sequence :: n in Occupied(s0, fence.run)
        decreases |OccupiedFrom(sink.State(), fence.run, sequence)|
      {
        var event := Event(sequence, body(sequence));
        if !contract(event) {
          return ContractInvalid, turns;
        }
        ghost var before, seen := sink.State(), State();
        TurnEnds(seen, before, published, event.body, delivery(event.sequence));
        OneMoreTurn(old(State()), s0, published, body, delivery, turns, seen, before);
        hide Present, PresentMany;
        var result := PresentOne(sink, event.body, delivery(event.sequence));
        turns := turns + 1;
        if result == Unknown {
          return SinkFailed, turns;
        }
        if result.answer == StaleFence {
          return FenceLost, turns;
        }
        if result.answer == Accepted {
          return Emitted(event), turns;
        }
      }
    }
  }

  lemma OneMoreTurn(e0: Emitter, s0: Sink, published: set<CommitId>, body: nat -> string, delivery: nat -> Delivery, k: nat,
                    e: Emitter, s: Sink)
    requires (e, s) == PresentMany(e0, s0, published, body, delivery, k)
    ensures var (_, e', s') := Present(e, s, published, body(e.sequence), delivery(e.sequence));
      PresentMany(e0, s0, published, body, delivery, k + 1) == (e', s')
  {
    hide Present;
  }

  /** How each answer leaves the counter, the acknowledged events and the stream. */
  lemma TurnEnds(e: Emitter, s: Sink, published: set<CommitId>, body: string, delivery: Delivery)
    requires Valid(s)
    ensures var (result, e', s') := Present(e, s, published, body, delivery);
      var event := Event(e.sequence, body);
      && e'.fence == e.fence
      && e'.sequence == (if result == Answered(StaleFence) then e.sequence else e.sequence + 1)
      && e'.emitted == (if result == Answered(Accepted) then e.emitted + [event] else e.emitted)
      && (result == Answered(Accepted) ==> IsDurable(s', published, e.fence.run, event))
      && (result == Answered(StaleFence) ==> !Admits(s'.fence, e.fence))
      && (result == Answered(ConflictingReplay) ==>
            && e.sequence in Occupied(s, e.fence.run) && Occupied(s', e.fence.run) == Occupied(s, e.fence.run)
            && |OccupiedFrom(s', e.fence.run, e'.sequence)| < |OccupiedFrom(s, e.fence.run, e.sequence)|)
  {
    var event := Event(e.sequence, body);
    P.EmitEffect(s, published, e.fence, event);
    StaleMeansRefused(s, published, e.fence, event);
    hide Valid, Emit, IsDurable;
    if Emit(s, published, e.fence, e.sequence, event).0 == ConflictingReplay {
      ConflictMeansOccupied(s, published, e.fence, event);
      var s' := Emit(s, published, e.fence, e.sequence, event).1;
      SmallerSet(OccupiedFrom(s', e.fence.run, e.sequence + 1), OccupiedFrom(s, e.fence.run, e.sequence));
    }
  }

  lemma StaleMeansRefused(s: Sink, published: set<CommitId>, fence: RunFence, event: Event)
    ensures var (answer, s') := Emit(s, published, fence, event.sequence, event);
      answer == StaleFence ==> !Admits(s'.fence, fence)
  {
  }

  // -------------------------------------------------------------- whole histories

  datatype World = World(emitter: Emitter, stream: P.History)

  /** The emitter's own turns, between anything else that happens to the stream. */
  datatype Action = Turn(body: string, delivery: Delivery) | Around(action: P.Action)

  function Step(w: World, action: Action): World {
    match action
    case Around(a) => w.(stream := P.Step(w.stream, a))
    case Turn(body, delivery) =>
      var (_, e, s) := Present(w.emitter, w.stream.sink, w.stream.published, body, delivery);
      World(e, w.stream.(sink := s))
  }

  function Play(w: World, actions: seq<Action>): World
    decreases actions
  {
    if actions == [] then w else Play(Step(w, actions[0]), actions[1..])
  }

  predicate IsStale(t: Try) {
    t.result == Answered(StaleFence)
  }

  ghost predicate Inv(w: World) {
    var e := w.emitter;
    && P.Sound(w.stream)
    && (forall i | 0 <= i < |e.emitted| :: e.emitted[i].sequence < e.sequence
          && IsDurable(w.stream.sink, w.stream.published, e.fence.run, e.emitted[i]))
    && (forall i, j | 0 <= i < j < |e.emitted| :: e.emitted[i].sequence < e.emitted[j].sequence)
    && (forall i | 0 <= i < |e.tries| && !IsStale(e.tries[i]) :: e.tries[i].event.sequence < e.sequence)
    && (forall i, j | 0 <= i < j < |e.tries| && e.tries[i].event.sequence == e.tries[j].event.sequence :: IsStale(e.tries[i]))
    && ((exists i :: 0 <= i < |e.tries| && IsStale(e.tries[i])) ==> !Admits(w.stream.sink.fence, e.fence))
  }

  /** A fence that has refused the emitter refuses it for good. */
  lemma RefusedForGood(w: World, action: Action)
    requires !Admits(w.stream.sink.fence, w.emitter.fence)
    ensures !Admits(Step(w, action).stream.sink.fence, w.emitter.fence)
  {
  }

  lemma DurableForGood(w: World, action: Action, event: Event)
    requires P.Sound(w.stream) && IsDurable(w.stream.sink, w.stream.published, w.emitter.fence.run, event)
    ensures P.Sound(Step(w, action).stream)
    ensures IsDurable(Step(w, action).stream.sink, Step(w, action).stream.published, w.emitter.fence.run, event)
  {
    SoundForGood(w, action);
    var row :| Seen(w.stream.sink, w.stream.published, w.emitter.fence.run, row) && row.event == event;
    assert Seen(Step(w, action).stream.sink, Step(w, action).stream.published, w.emitter.fence.run, row);
  }

  lemma TurnIsAnEmission(w: World, body: string, delivery: Delivery)
    ensures var h' := Step(w, Turn(body, delivery)).stream;
      h' == w.stream || h' == P.Step(w.stream, P.Emitted(w.emitter.fence, Event(w.emitter.sequence, body)))
  {
    hide Emit;
  }

  lemma SoundForGood(w: World, action: Action)
    requires P.Sound(w.stream)
    ensures var h' := Step(w, action).stream;
      && P.Sound(h')
      && (forall run, row | Seen(w.stream.sink, w.stream.published, run, row) :: Seen(h'.sink, h'.published, run, row))
  {
    hide P.Sound, P.Step;
    match action
    case Around(a) => P.StepKeepsSound(w.stream, a);
    case Turn(body, delivery) =>
      TurnIsAnEmission(w, body, delivery);
      hide Step;
      P.StepKeepsSound(w.stream, P.Emitted(w.emitter.fence, Event(w.emitter.sequence, body)));
  }

  lemma TurnKeepsTries(w: World, body: string, delivery: Delivery)
    requires Inv(w)
    ensures var w' := Step(w, Turn(body, delivery));
      var e := w'.emitter;
      && (forall i | 0 <= i < |e.tries| && !IsStale(e.tries[i]) :: e.tries[i].event.sequence < e.sequence)
      && (forall i, j | 0 <= i < j < |e.tries| && e.tries[i].event.sequence == e.tries[j].event.sequence :: IsStale(e.tries[i]))
      && ((exists i :: 0 <= i < |e.tries| && IsStale(e.tries[i])) ==> !Admits(w'.stream.sink.fence, e.fence))
  {
    hide P.Sound, IsDurable;
    var w' := Step(w, Turn(body, delivery));
    if !Admits(w.stream.sink.fence, w.emitter.fence) {
      RefusedForGood(w, Turn(body, delivery));
    }
  }

  /** Acknowledged events, after one step. */
  lemma AcknowledgedKept(w: World, action: Action)
    requires Inv(w)
    ensures var w' := Step(w, action);
      var e := w'.emitter;
      && (forall i | 0 <= i < |e.emitted| :: e.emitted[i].sequence < e.sequence
            && IsDurable(w'.stream.sink, w'.stream.published, e.fence.run, e.emitted[i]))
      && (forall i, j | 0 <= i < j < |e.emitted| :: e.emitted[i].sequence < e.emitted[j].sequence)
  {
    var w' := Step(w, action);
    forall i | 0 <= i < |w.emitter.emitted|
      ensures IsDurable(w'.stream.sink, w'.stream.published, w.emitter.fence.run, w.emitter.emitted[i])
    {
      DurableForGood(w, action, w.emitter.emitted[i]);
    }
    hide P.Sound, IsDurable, P.Step;
    if action.Turn? {
      TurnEnds(w.emitter, w.stream.sink, w.stream.published, action.body, action.delivery) by {
        ValidStream(w);
      }
      hide Present;
    }
  }

  lemma ValidStream(w: World)
    requires P.Sound(w.stream)
    ensures Valid(w.stream.sink)
  {
  }

  lemma StepKeepsInv(w: World, action: Action)
    requires Inv(w)
    ensures Inv(Step(w, action))
  {
    hide P.Sound, IsDurable, P.Step, Present;
    SoundForGood(w, action);
    AcknowledgedKept(w, action);
    match action
    case Around(a) =>
      if !Admits(w.stream.sink.fence, w.emitter.fence) {
        RefusedForGood(w, action);
      }
    case Turn(body, delivery) => TurnKeepsTries(w, body, delivery);
  }

  /**
   * Over every interleaving of this emitter's turns with other activity on the stream:
   * acknowledged events have strictly increasing sequences and each is durable at its own; an
   * identity is never presented for two events unless the fence refused the first, so one whose
   * outcome is unknown is never handed on; and once the fence has refused, nothing more is ever
   * acknowledged.
   */
  lemma {:induction false} EmissionTheorem(w: World, actions: seq<Action>)
    requires Inv(w)
    ensures var w' := Play(w, actions);
      var e := w'.emitter;
      && Inv(w') && w.emitter.emitted <= e.emitted && w.emitter.sequence <= e.sequence
      && (forall i, j | 0 <= i < j < |e.tries| && e.tries[i].result == Unknown ::
            e.tries[i].event.sequence != e.tries[j].event.sequence)
      && ((exists i :: 0 <= i < |w.emitter.tries| && IsStale(w.emitter.tries[i])) ==> e.emitted == w.emitter.emitted)
    decreases actions
  {
    if actions != [] {
      StepKeepsInv(w, actions[0]);
      StaleStaysStale(w, actions[0]);
      EmissionTheorem(Step(w, actions[0]), actions[1..]);
    }
  }

  lemma StaleStaysStale(w: World, action: Action)
    requires Inv(w)
    ensures var w' := Step(w, action);
      && w.emitter.tries <= w'.emitter.tries && w.emitter.emitted <= w'.emitter.emitted && w.emitter.sequence <= w'.emitter.sequence
      && ((exists i :: 0 <= i < |w.emitter.tries| && IsStale(w.emitter.tries[i])) ==> w'.emitter.emitted == w.emitter.emitted)
  {
    hide P.Sound, IsDurable;
  }

  /** A fresh emitter over a stream that any history may already have occupied in part. */
  lemma FreshEmitter(fence: RunFence, before: seq<P.Action>)
    ensures Inv(World(Emitter(fence, 0, [], []), P.Play(P.History(EMPTY, {}, {}), before)))
  {
    P.InitiallySound();
    P.EventIdentityTheorem(P.History(EMPTY, {}, {}), before);
  }

  /**
   * From the start: whatever occupied the stream before and whatever else happens on it, the events
   * a fresh emitter reports as acknowledged have strictly increasing sequences, each is the durable
   * event at its identity, and no identity of unknown outcome was handed to another event.
   */
  lemma EmissionOnAnyStream(fence: RunFence, before: seq<P.Action>, actions: seq<Action>)
    ensures var w := Play(World(Emitter(fence, 0, [], []), P.Play(P.History(EMPTY, {}, {}), before)), actions);
      var e := w.emitter;
      && (forall i | 0 <= i < |e.emitted| :: IsDurable(w.stream.sink, w.stream.published, e.fence.run, e.emitted[i]))
      && (forall i, j | 0 <= i < j < |e.emitted| :: e.emitted[i].sequence < e.emitted[j].sequence)
      && (forall i, j | 0 <= i < j < |e.tries| && e.tries[i].result == Unknown ::
            e.tries[i].event.sequence != e.tries[j].event.sequence)
  {
    FreshEmitter(fence, before);
    hide P.Sound, IsDurable, P.Play, Play;
    EmissionTheorem(World(Emitter(fence, 0, [], []), P.Play(P.History(EMPTY, {}, {}), before)), actions);
  }
}
