/**
 * The outboxes of every ownership of one run, a bag of append messages that may be delivered
 * late and repeatedly, and the journal they are delivered to.
 */
module ExactlyOnce {
  import opened Options
  import opened Visibility
  import opened Fence
  import opened Lifecycle
  import opened Journal
  import opened Outboxes

  /** One ownership's outbox; `recorded` is every fact it was ever given. */
  datatype Courier = Courier(recorded: seq<Fact>, outbox: Outbox, lost: bool)

  datatype Message = Message(fence: RunFence, entry: Entry)

  datatype Reply = Reply(message: Message, answer: Answer)

  /** `log` is history: the facts the journal took as new, with the generation they came from. */
  datatype LogRow = LogRow(generation: Generation, fact: Fact)

  datatype Bus = Bus(run: RunId, couriers: map<Generation, Courier>, sent: set<Message>, replies: set<Reply>, log: seq<LogRow>)

  datatype World = World(bus: Bus, journal: JournalState)

  /** Journal activity that is not this run's outbox. */
  datatype Unrelated =
    | TailStaged(fence: RunFence, commit: CommitId, entries: seq<TransitionEntry>)
    | TailAbandoned(run: RunId, commit: CommitId)
    | OtherRun(fence: RunFence, id: EntryId, fact: Fact)

  datatype Action =
    | NewOwner(generation: Generation)
    | Recorded(generation: Generation, facts: seq<Fact>)
    | Sent(generation: Generation)
    | Delivered(message: Message)
    | Acknowledged(generation: Generation)
    | Refused(generation: Generation)
    | Dispossessed(generation: Generation)
    | Elsewhere(unrelated: Unrelated)

  function HeadMessage(c: Courier): Message
    requires c.outbox.pending != []
  {
    Message(c.outbox.scope, c.outbox.pending[0])
  }

  function WithCourier(bus: Bus, g: Generation, c: Courier): Bus {
    bus.(couriers := bus.couriers[g := c])
  }

  function OwnerStarted(bus: Bus, g: Generation): Bus {
    if g in bus.couriers then bus else WithCourier(bus, g, Courier([], Empty(RunFence(bus.run, g)), false))
  }

  function FactsRecorded(bus: Bus, g: Generation, facts: seq<Fact>): Bus {
    if g !in bus.couriers then bus
    else
      var c := bus.couriers[g];
      WithCourier(bus, g, c.(recorded := c.recorded + facts, outbox := RecordAll(c.outbox, facts)))
  }

  /** A flush waits on its head: it presents nothing else until the head is answered. */
  predicate IsWaiting(bus: Bus, g: Generation) {
    g in bus.couriers && !bus.couriers[g].lost && bus.couriers[g].outbox.pending != []
  }

  function HeadSent(bus: Bus, g: Generation): Bus {
    if !IsWaiting(bus, g) then bus else bus.(sent := bus.sent + {HeadMessage(bus.couriers[g])})
  }

  function HeadAcknowledged(bus: Bus, g: Generation): Bus {
    if !IsWaiting(bus, g) || Reply(HeadMessage(bus.couriers[g]), Accepted) !in bus.replies then bus
    else WithCourier(bus, g, bus.couriers[g].(outbox := Landed(bus.couriers[g].outbox)))
  }

  function HeadRefused(bus: Bus, g: Generation): Bus {
    if !IsWaiting(bus, g) || Reply(HeadMessage(bus.couriers[g]), StaleFence) !in bus.replies then bus
    else FenceLost(bus, g)
  }

  function FenceLost(bus: Bus, g: Generation): Bus {
    if g !in bus.couriers then bus else WithCourier(bus, g, bus.couriers[g].(lost := true))
  }

  /** The journal answers one delivery of one message. */
  function Deliver(w: World, m: Message): World {
    if m !in w.bus.sent then w
    else
      var (answer, journal) := Append(w.journal, m.fence, m.entry.id, m.entry.fact);
      var isNew := answer == Accepted && m.entry.id !in PageOf(w.journal, m.fence.run).seen;
      World(w.bus.(replies := w.bus.replies + {Reply(m, answer)},
                   log := if isNew then w.bus.log + [LogRow(m.fence.generation, m.entry.fact)] else w.bus.log),
            journal)
  }

  function Happen(j: JournalState, run: RunId, u: Unrelated): JournalState {
    match u
    case TailStaged(fence, commit, entries) => StageTransitions(j, fence, commit, entries).1
    case TailAbandoned(r, commit) => AbandonTail(j, r, commit)
    case OtherRun(fence, id, fact) => if fence.run == run then j else Append(j, fence, id, fact).1
  }

  function Step(w: World, action: Action): World {
    match action
    case NewOwner(g) => w.(bus := OwnerStarted(w.bus, g))
    case Recorded(g, facts) => w.(bus := FactsRecorded(w.bus, g, facts))
    case Sent(g) => w.(bus := HeadSent(w.bus, g))
    case Delivered(m) => Deliver(w, m)
    case Acknowledged(g) => w.(bus := HeadAcknowledged(w.bus, g))
    case Refused(g) => w.(bus := HeadRefused(w.bus, g))
    case Dispossessed(g) => w.(bus := FenceLost(w.bus, g))
    case Elsewhere(u) => w.(journal := Happen(w.journal, w.bus.run, u))
  }

  function Initial(run: RunId): World {
    World(Bus(run, map[], {}, {}, []), EMPTY)
  }

  function Play(w: World, actions: seq<Action>): World
    decreases actions
  {
    if actions == [] then w else Play(Step(w, actions[0]), actions[1..])
  }

  // ------------------------------------------------------------ reading the log

  /** The facts one generation landed, in the order they landed. */
  function LogOf(log: seq<LogRow>, g: Generation): seq<Fact> {
    if log == [] then []
    else
      var n := |log| - 1;
      LogOf(log[..n], g) + if log[n].generation == g then [log[n].fact] else []
  }

  function TransitionsIn(log: seq<LogRow>): seq<TransitionEntry> {
    if log == [] then []
    else
      var n := |log| - 1;
      TransitionsIn(log[..n]) + if log[n].fact.TransitionFact? then [log[n].fact.transition] else []
  }

  function RejectionsIn(log: seq<LogRow>): seq<RejectionEntry> {
    if log == [] then []
    else
      var n := |log| - 1;
      RejectionsIn(log[..n]) + if log[n].fact.RejectionFact? then [log[n].fact.rejection] else []
  }

  function AcquisitionsIn(log: seq<LogRow>): seq<string> {
    if log == [] then []
    else
      var n := |log| - 1;
      AcquisitionsIn(log[..n]) + if log[n].fact.AcquisitionFact? then [log[n].fact.acquisition] else []
  }

  /** The last hold recorded since the last transition. */
  function HeldBy(log: seq<LogRow>): Option<HoldFact> {
    if log == [] then None
    else match log[|log| - 1].fact
      case Held(hold) => Some(hold)
      case TransitionFact(_) => None
      case _ => HeldBy(log[..|log| - 1])
  }

  /** The transitions on a page that belong to no commit. */
  function Plain(rows: seq<StoredTransition>): seq<TransitionEntry> {
    if rows == [] then []
    else (if rows[0].commit.None? then [rows[0].entry] else []) + Plain(rows[1..])
  }

  // ------------------------------------------------------------------ invariant

  function Acked(c: Courier): int {
    |c.recorded| - |c.outbox.pending|
  }

  ghost predicate CourierOk(run: RunId, g: Generation, c: Courier) {
    && c.outbox.scope == RunFence(run, g) && c.outbox.minted == |c.recorded| && |c.outbox.pending| <= |c.recorded|
    && c.outbox.pending == Entries(c.outbox.scope, Acked(c), c.recorded[Acked(c)..])
  }

  /** A message names a fact its owner recorded, at or before the head. */
  ghost predicate MessageOk(bus: Bus, m: Message) {
    && m.fence.run == bus.run && m.fence.generation in bus.couriers
    && m.entry.id == IdAt(m.fence, m.entry.id.index)
    && var c := bus.couriers[m.fence.generation];
    && 1 <= m.entry.id.index <= |c.recorded| && m.entry.id.index <= Acked(c) + 1
    && m.entry.fact == c.recorded[m.entry.id.index - 1]
  }

  /** What landed from one owner is a prefix of what it recorded, past the acknowledged part by at most one. */
  ghost predicate PrefixOk(c: Courier, landed: seq<Fact>) {
    landed <= c.recorded && Acked(c) <= |landed| <= Acked(c) + 1
  }

  ghost predicate SeenOk(seen: map<EntryId, Fact>, bus: Bus) {
    forall id: EntryId ::
      (id in seen <==> id.run == bus.run && 1 <= id.index <= |LogOf(bus.log, id.generation)|)
      && (id in seen && 1 <= id.index <= |LogOf(bus.log, id.generation)| ==> seen[id] == LogOf(bus.log, id.generation)[id.index - 1])
  }

  ghost predicate RepliesOk(replies: set<Reply>, seen: map<EntryId, Fact>) {
    forall r | r in replies :: r.answer != ConflictingReplay && (r.answer == Accepted ==> r.message.entry.id in seen)
  }

  ghost predicate Ascending(log: seq<LogRow>) {
    forall i, j | 0 <= i < j < |log| :: log[i].generation <= log[j].generation
  }

  /** The fence has served every generation the log has taken from. */
  ghost predicate FenceOk(high: HighWater, bus: Bus) {
    forall i | 0 <= i < |bus.log| :: HasServed(high, bus.run, bus.log[i].generation)
  }

  predicate HasServed(high: HighWater, run: RunId, g: Generation) {
    run in high && g <= high[run]
  }

  ghost predicate CategoriesOk(page: Page, log: seq<LogRow>) {
    && Plain(page.transitions) == TransitionsIn(log) && page.rejections == RejectionsIn(log)
    && page.acquisitions == AcquisitionsIn(log) && page.held == HeldBy(log)
  }

  ghost predicate CouriersOk(bus: Bus) {
    forall g | g in bus.couriers :: CourierOk(bus.run, g, bus.couriers[g]) && PrefixOk(bus.couriers[g], LogOf(bus.log, g))
  }

  ghost predicate LogKnown(bus: Bus) {
    forall g | LogOf(bus.log, g) != [] :: g in bus.couriers
  }

  ghost predicate Inv(w: World) {
    && CouriersOk(w.bus) && LogKnown(w.bus)
    && (forall m | m in w.bus.sent :: MessageOk(w.bus, m))
    && SeenOk(PageOf(w.journal, w.bus.run).seen, w.bus)
    && RepliesOk(w.bus.replies, PageOf(w.journal, w.bus.run).seen)
    && Ascending(w.bus.log) && FenceOk(w.journal.fence, w.bus)
    && CategoriesOk(PageOf(w.journal, w.bus.run), w.bus.log)
  }

  // ---------------------------------------------------------- outbox-side steps

  /** A courier changed: what it recorded only grew, and its acknowledged part still covers it. */
  lemma CourierStep(w: World, g: Generation, c: Courier)
    requires Inv(w) && CourierOk(w.bus.run, g, c) && PrefixOk(c, LogOf(w.bus.log, g))
    requires g in w.bus.couriers ==> w.bus.couriers[g].recorded <= c.recorded && Acked(w.bus.couriers[g]) <= Acked(c)
    ensures Inv(w.(bus := WithCourier(w.bus, g, c)))
  {
    hide Ascending, FenceOk, CategoriesOk, RepliesOk, LogOf, CourierOk, PrefixOk, SeenOk;
    var bus' := WithCourier(w.bus, g, c);
    forall m | m in bus'.sent
      ensures MessageOk(bus', m)
    {
      assert MessageOk(w.bus, m);
    }
    SameLogSeen(PageOf(w.journal, w.bus.run).seen, w.bus, bus');
    SameLogFence(w.journal.fence, w.bus, bus');
    if g !in w.bus.couriers {
      assert LogOf(w.bus.log, g) == [];
    }
  }

  lemma SameLogSeen(seen: map<EntryId, Fact>, bus: Bus, bus': Bus)
    requires SeenOk(seen, bus) && bus'.run == bus.run && bus'.log == bus.log
    ensures SeenOk(seen, bus')
  {
    hide LogOf;
  }

  lemma SameLogFence(high: HighWater, bus: Bus, bus': Bus)
    requires FenceOk(high, bus) && bus'.run == bus.run && bus'.log == bus.log
    ensures FenceOk(high, bus')
  {
  }

  lemma RecordedStep(w: World, g: Generation, facts: seq<Fact>)
    requires Inv(w)
    ensures Inv(w.(bus := FactsRecorded(w.bus, g, facts)))
  {
    if g in w.bus.couriers {
      var c := w.bus.couriers[g];
      var c' := c.(recorded := c.recorded + facts, outbox := RecordAll(c.outbox, facts));
      assert CourierOk(w.bus.run, g, c) && PrefixOk(c, LogOf(w.bus.log, g));
      assert c'.recorded[Acked(c)..] == c.recorded[Acked(c)..] + facts;
      hide Inv;
      RecordingIsQueueing(c.outbox.(pending := [], minted := Acked(c)), c.recorded[Acked(c)..], facts);
      CourierStep(w, g, c');
    }
  }

  lemma LandedCourier(run: RunId, g: Generation, c: Courier)
    requires CourierOk(run, g, c) && c.outbox.pending != []
    ensures CourierOk(run, g, c.(outbox := Landed(c.outbox)))
    ensures c.outbox.pending[0] == Entry(IdAt(c.outbox.scope, Acked(c) + 1), c.recorded[Acked(c)])
  {
    var a := Acked(c);
    assert c.recorded[a..][1..] == c.recorded[a + 1..];
    assert c.outbox.pending[1..] == Entries(c.outbox.scope, a + 1, c.recorded[a + 1..]);
  }

  lemma AcknowledgedStep(w: World, g: Generation)
    requires Inv(w)
    ensures Inv(w.(bus := HeadAcknowledged(w.bus, g)))
  {
    if IsWaiting(w.bus, g) && Reply(HeadMessage(w.bus.couriers[g]), Accepted) in w.bus.replies {
      var c := w.bus.couriers[g];
      var r := Reply(HeadMessage(c), Accepted);
      assert CourierOk(w.bus.run, g, c) && PrefixOk(c, LogOf(w.bus.log, g));
      LandedCourier(w.bus.run, g, c);
      assert r.message.entry.id in PageOf(w.journal, w.bus.run).seen;
      assert |LogOf(w.bus.log, g)| >= Acked(c) + 1;
      hide Inv, LogOf;
      CourierStep(w, g, c.(outbox := Landed(c.outbox)));
    }
  }

  lemma SentStep(w: World, g: Generation)
    requires Inv(w)
    ensures Inv(w.(bus := HeadSent(w.bus, g)))
  {
    if IsWaiting(w.bus, g) {
      var c := w.bus.couriers[g];
      assert CourierOk(w.bus.run, g, c);
      LandedCourier(w.bus.run, g, c);
      hide Ascending, FenceOk, CategoriesOk, RepliesOk, PrefixOk, SeenOk, LogOf;
      var bus' := HeadSent(w.bus, g);
      forall m | m in bus'.sent
        ensures MessageOk(bus', m)
      {
        assert m in w.bus.sent ==> MessageOk(w.bus, m);
      }
      hide CourierOk, MessageOk;
      SameLogSeen(PageOf(w.journal, w.bus.run).seen, w.bus, bus');
      SameLogFence(w.journal.fence, w.bus, bus');
    }
  }

  lemma LostStep(w: World, g: Generation)
    requires Inv(w)
    ensures Inv(w.(bus := FenceLost(w.bus, g)))
  {
    if g in w.bus.couriers {
      assert CourierOk(w.bus.run, g, w.bus.couriers[g]) && PrefixOk(w.bus.couriers[g], LogOf(w.bus.log, g));
      CourierStep(w, g, w.bus.couriers[g].(lost := true));
    }
  }

  lemma OwnerStep(w: World, g: Generation)
    requires Inv(w)
    ensures Inv(w.(bus := OwnerStarted(w.bus, g)))
  {
    if g !in w.bus.couriers {
      CourierStep(w, g, Courier([], Empty(RunFence(w.bus.run, g)), false));
    }
  }

  // ------------------------------------------------------------------ deliveries

  lemma {:induction false} PlainSplits(a: seq<StoredTransition>, b: seq<StoredTransition>)
    ensures Plain(a + b) == Plain(a) + Plain(b)
  {
    if a == [] {
      assert a + b == b;
    } else {
      var whole := a + b;
      assert whole[0] == a[0] && whole[1..] == a[1..] + b;
      PlainSplits(a[1..], b);
      Associates(if a[0].commit.None? then [a[0].entry] else [], Plain(a[1..]), Plain(b));
    }
  }

  lemma Associates<T>(x: seq<T>, y: seq<T>, z: seq<T>)
    ensures (x + y) + z == x + (y + z)
  {
  }

  lemma {:induction false} PlainTail(entries: seq<TransitionEntry>, commit: CommitId)
    ensures Plain(Tail(entries, commit)) == []
  {
    if entries != [] {
      PlainTail(entries[1..], commit);
      assert Tail(entries, commit)[1..] == Tail(entries[1..], commit);
    }
  }

  lemma {:induction false} PlainDropped(rows: seq<StoredTransition>, commit: CommitId)
    ensures Plain(Dropped(rows, commit)) == Plain(rows)
  {
    if rows != [] {
      PlainDropped(rows[1..], commit);
    }
  }

  /** A new fact lands in exactly its own category. */
  lemma WriteKeepsCategories(page: Page, log: seq<LogRow>, row: LogRow, seen: map<EntryId, Fact>)
    requires CategoriesOk(page, log)
    ensures CategoriesOk(Write(page.(seen := seen), row.fact), log + [row])
  {
    var log' := log + [row];
    assert log'[..|log|] == log;
    if row.fact.TransitionFact? {
      PlainSplits(page.transitions, [StoredTransition(row.fact.transition, None)]);
    }
  }

  lemma LogOfSnoc(log: seq<LogRow>, row: LogRow, g: Generation)
    ensures LogOf(log + [row], g) == LogOf(log, g) + if row.generation == g then [row.fact] else []
  {
    assert (log + [row])[..|log|] == log;
  }

  /** A message whose identity the journal has not seen carries exactly its owner's next fact. */
  lemma NewMessageIsNext(w: World, m: Message)
    requires Inv(w) && m in w.bus.sent && m.entry.id !in PageOf(w.journal, w.bus.run).seen
    ensures var c := w.bus.couriers[m.fence.generation];
      var landed := LogOf(w.bus.log, m.fence.generation);
      m.entry.id.index == |landed| + 1 && |landed| == Acked(c) < |c.recorded| && m.entry.fact == c.recorded[|landed|]
  {
    assert MessageOk(w.bus, m);
    assert PrefixOk(w.bus.couriers[m.fence.generation], LogOf(w.bus.log, m.fence.generation));
  }

  /** A message whose identity the journal has seen is the same fact again. */
  lemma SeenMessageIsReplay(w: World, m: Message)
    requires Inv(w) && m in w.bus.sent && m.entry.id in PageOf(w.journal, w.bus.run).seen
    ensures PageOf(w.journal, w.bus.run).seen[m.entry.id] == m.entry.fact
  {
    assert MessageOk(w.bus, m);
    assert PrefixOk(w.bus.couriers[m.fence.generation], LogOf(w.bus.log, m.fence.generation));
  }

  lemma NewRowKeepsLog(bus: Bus, high: HighWater, row: LogRow)
    requires Ascending(bus.log) && FenceOk(high, bus) && Admits(high, RunFence(bus.run, row.generation))
    ensures var bus' := bus.(log := bus.log + [row]);
      Ascending(bus'.log) && FenceOk(After(high, RunFence(bus.run, row.generation)), bus')
  {
  }

  lemma NewRowKeepsSeen(w: World, m: Message, bus': Bus)
    requires Inv(w) && m in w.bus.sent && m.entry.id !in PageOf(w.journal, w.bus.run).seen
    requires bus'.run == w.bus.run
    requires forall g :: LogOf(bus'.log, g) == LogOf(w.bus.log, g) + if g == m.fence.generation then [m.entry.fact] else []
    ensures SeenOk(PageOf(w.journal, w.bus.run).seen[m.entry.id := m.entry.fact], bus')
  {
    NewMessageIsNext(w, m);
    assert MessageOk(w.bus, m);
    hide LogOf, CouriersOk, CategoriesOk, RepliesOk, Ascending, FenceOk;
  }

  lemma NewRowKeepsPrefixes(w: World, m: Message, bus': Bus)
    requires Inv(w) && m in w.bus.sent && m.entry.id !in PageOf(w.journal, w.bus.run).seen
    requires bus'.run == w.bus.run && bus'.couriers == w.bus.couriers
    requires forall g :: LogOf(bus'.log, g) == LogOf(w.bus.log, g) + if g == m.fence.generation then [m.entry.fact] else []
    ensures CouriersOk(bus') && LogKnown(bus')
  {
    NewMessageIsNext(w, m);
    assert MessageOk(w.bus, m);
    hide LogOf, SeenOk, CategoriesOk, RepliesOk, Ascending, FenceOk, CourierOk;
  }

  lemma NewRowKeepsCouriers(w: World, m: Message, bus': Bus)
    requires Inv(w) && m in w.bus.sent && m.entry.id !in PageOf(w.journal, w.bus.run).seen
    requires bus' == w.bus.(log := w.bus.log + [LogRow(m.fence.generation, m.entry.fact)], replies := bus'.replies)
    ensures CouriersOk(bus') && LogKnown(bus')
    ensures forall x | x in bus'.sent :: MessageOk(bus', x)
    ensures SeenOk(PageOf(w.journal, w.bus.run).seen[m.entry.id := m.entry.fact], bus')
  {
    forall g
      ensures LogOf(bus'.log, g) == LogOf(w.bus.log, g) + if g == m.fence.generation then [m.entry.fact] else []
    {
      LogOfSnoc(w.bus.log, LogRow(m.fence.generation, m.entry.fact), g);
    }
    NewRowKeepsSeen(w, m, bus');
    NewRowKeepsPrefixes(w, m, bus');
    hide LogOf, CouriersOk, SeenOk, CategoriesOk, RepliesOk, Ascending, FenceOk, LogKnown;
    forall x | x in bus'.sent
      ensures MessageOk(bus', x)
    {
      assert MessageOk(w.bus, x);
    }
  }

  lemma NewDelivery(w: World, m: Message)
    requires m in w.bus.sent && m.entry.id !in PageOf(w.journal, w.bus.run).seen
    requires m.fence.run == w.bus.run && Admits(w.journal.fence, m.fence)
    ensures var w' := Deliver(w, m);
      var page := PageOf(w.journal, w.bus.run);
      var seen := page.seen[m.entry.id := m.entry.fact];
      && w'.bus == w.bus.(log := w.bus.log + [LogRow(m.fence.generation, m.entry.fact)],
                          replies := w.bus.replies + {Reply(m, Accepted)})
      && PageOf(w'.journal, w.bus.run) == Write(page.(seen := seen), m.entry.fact)
      && PageOf(w'.journal, w.bus.run).seen == seen
      && w'.journal.fence == After(w.journal.fence, m.fence)
  {
  }

  lemma MoreSeen(replies: set<Reply>, seen: map<EntryId, Fact>, m: Message)
    requires RepliesOk(replies, seen)
    ensures RepliesOk(replies + {Reply(m, Accepted)}, seen[m.entry.id := m.entry.fact])
  {
  }

  lemma NewFactStep(w: World, m: Message)
    requires Inv(w) && m in w.bus.sent && m.entry.id !in PageOf(w.journal, w.bus.run).seen
    requires m.fence.run == w.bus.run && Admits(w.journal.fence, m.fence)
    ensures Inv(Deliver(w, m))
  {
    hide CategoriesOk, SeenOk, CouriersOk, LogKnown, Ascending, MessageOk, LogOf, Write, RepliesOk, FenceOk, Append;
    var w' := Deliver(w, m);
    var page := PageOf(w.journal, w.bus.run);
    var row := LogRow(m.fence.generation, m.entry.fact);
    NewDelivery(w, m);
    hide Deliver;
    NewRowKeepsCouriers(w, m, w'.bus);
    NewRowKeepsLog(w.bus, w.journal.fence, row);
    assert RunFence(w.bus.run, row.generation) == m.fence;
    FenceIgnoresReplies(w'.journal.fence, w.bus.(log := w'.bus.log), w'.bus);
    WriteKeepsCategories(page, w.bus.log, row, page.seen[m.entry.id := m.entry.fact]);
    MoreSeen(w.bus.replies, page.seen, m);
  }

  lemma FenceIgnoresReplies(high: HighWater, bus: Bus, bus': Bus)
    requires FenceOk(high, bus) && bus'.log == bus.log && bus'.run == bus.run
    ensures FenceOk(high, bus')
  {
  }

  lemma DeliveredStep(w: World, m: Message)
    requires Inv(w)
    ensures Inv(Deliver(w, m))
  {
    if m in w.bus.sent {
      var w' := Deliver(w, m);
      var seen := PageOf(w.journal, w.bus.run).seen;
      assert MessageOk(w.bus, m);
      if m.entry.id in seen {
        SeenMessageIsReplay(w, m);
        assert RepliesOk(w'.bus.replies, seen);
        SameLogStep(w, w');
      } else if Admits(w.journal.fence, m.fence) {
        NewFactStep(w, m);
      } else {
        assert RepliesOk(w'.bus.replies, seen);
        SameLogStep(w, w');
      }
    }
  }

  /** Steps that leave the log, the couriers and the page of the run alone. */
  lemma SameLogStep(w: World, w': World)
    requires Inv(w)
    requires w'.bus == w.bus.(replies := w'.bus.replies)
    requires PageOf(w'.journal, w.bus.run) == PageOf(w.journal, w.bus.run)
    requires RepliesOk(w'.bus.replies, PageOf(w.journal, w.bus.run).seen)
    requires w.bus.run in w.journal.fence ==>
               w.bus.run in w'.journal.fence && w.journal.fence[w.bus.run] <= w'.journal.fence[w.bus.run]
    ensures Inv(w')
  {
    forall m | m in w'.bus.sent
      ensures MessageOk(w'.bus, m)
    {
      assert MessageOk(w.bus, m);
    }
    hide CategoriesOk, LogOf, RepliesOk, MessageOk, CourierOk, PrefixOk;
  }

  lemma ElsewherePlain(j: JournalState, run: RunId, u: Unrelated)
    ensures var (page, page') := (PageOf(j, run), PageOf(Happen(j, run, u), run));
      page' == page.(transitions := page'.transitions) && Plain(page'.transitions) == Plain(page.transitions)
  {
    var rows := PageOf(j, run).transitions;
    match u
    case TailStaged(fence, commit, entries) =>
      PlainSplits(rows, Tail(entries, commit));
      PlainTail(entries, commit);
    case TailAbandoned(r, commit) => PlainDropped(rows, commit);
    case OtherRun(_, _, _) =>
  }

  lemma ElsewhereFence(j: JournalState, run: RunId, u: Unrelated, bus: Bus)
    requires FenceOk(j.fence, bus)
    ensures FenceOk(Happen(j, run, u).fence, bus)
  {
  }

  lemma ElsewhereStep(w: World, u: Unrelated)
    requires Inv(w)
    ensures Inv(w.(journal := Happen(w.journal, w.bus.run, u)))
  {
    ElsewherePlain(w.journal, w.bus.run, u);
    ElsewhereFence(w.journal, w.bus.run, u, w.bus);
    hide LogOf, FenceOk, Happen, MessageOk, SeenOk, RepliesOk, CouriersOk, LogKnown, Ascending, Plain, TransitionsIn, RejectionsIn,
      AcquisitionsIn, HeldBy;
  }

  lemma StepKeepsInv(w: World, action: Action)
    requires Inv(w)
    ensures Inv(Step(w, action))
  {
    hide Inv;
    match action
    case NewOwner(g) => OwnerStep(w, g);
    case Recorded(g, facts) => RecordedStep(w, g, facts);
    case Sent(g) => SentStep(w, g);
    case Delivered(m) => DeliveredStep(w, m);
    case Acknowledged(g) => AcknowledgedStep(w, g);
    case Refused(g) => LostStep(w, g);
    case Dispossessed(g) => LostStep(w, g);
    case Elsewhere(u) => ElsewhereStep(w, u);
  }

  lemma InitiallyInv(run: RunId)
    ensures Inv(Initial(run))
  {
  }

  lemma {:induction false} PlayKeepsInv(w: World, actions: seq<Action>)
    requires Inv(w)
    ensures Inv(Play(w, actions))
    decreases actions
  {
    if actions != [] {
      StepKeepsInv(w, actions[0]);
      PlayKeepsInv(Step(w, actions[0]), actions[1..]);
    }
  }

  // ------------------------------------------------------------------- theorems

  /** One generation's part of the log against its outbox. */
  ghost predicate InOrder(bus: Bus, g: Generation) {
    var landed := LogOf(bus.log, g);
    && (landed != [] ==> g in bus.couriers)
    && (g in bus.couriers ==>
          var c := bus.couriers[g];
          && landed <= c.recorded && |c.outbox.pending| <= |c.recorded|
          && |c.recorded| <= |landed| + |c.outbox.pending| <= |c.recorded| + 1
          && (forall i | 0 <= i < |c.outbox.pending| :: c.outbox.pending[i].fact == c.recorded[Acked(c) + i])
          && (c.outbox.pending == [] ==> landed == c.recorded))
  }

  lemma InvMeansInOrder(w: World, g: Generation)
    requires Inv(w)
    ensures Ascending(w.bus.log) && InOrder(w.bus, g)
    ensures forall r | r in w.bus.replies :: r.answer != ConflictingReplay
  {
    hide CategoriesOk, SeenOk, FenceOk, MessageOk, LogOf;
    if g in w.bus.couriers {
      assert CourierOk(w.bus.run, g, w.bus.couriers[g]) && PrefixOk(w.bus.couriers[g], LogOf(w.bus.log, g));
    }
  }

  /**
   * Exactly once, in order: whatever is lost, late or repeated, the journal of a run is, in
   * increasing generation order, one prefix of what each generation recorded; an outbox's pending
   * list is the matching suffix and overlaps what landed by at most its head, so an empty outbox
   * means that everything recorded landed. No delivery is ever answered as a conflict.
   */
  lemma ExactlyOnceInOrder(run: RunId, actions: seq<Action>, g: Generation)
    ensures var w := Play(Initial(run), actions);
      && Ascending(w.bus.log) && InOrder(w.bus, g)
      && (forall r | r in w.bus.replies :: r.answer != ConflictingReplay)
  {
    hide Inv, Play, InOrder, Ascending;
    InitiallyInv(run);
    PlayKeepsInv(Initial(run), actions);
    InvMeansInOrder(Play(Initial(run), actions), g);
  }

  /** What readers find in each category is that category of the log, and nothing else. */
  lemma PageIsTheLog(run: RunId, actions: seq<Action>)
    ensures var w := Play(Initial(run), actions); CategoriesOk(PageOf(w.journal, w.bus.run), w.bus.log)
  {
    hide Play, CategoriesOk, Step;
    InitiallyInv(run);
    PlayKeepsInv(Initial(run), actions);
  }
}
