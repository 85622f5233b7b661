/**
 * The run journal: four categories of fact under one replay ledger, and a
 * terminal tail that stays invisible until its commit publishes.
 */
module Journal {
  import opened Options
  import opened Visibility
  import opened Fence
  import opened Lifecycle

  /** `${run}#g${generation}#j${index}`, minted by the outbox of one ownership. */
  datatype EntryId = EntryId(run: RunId, generation: Generation, index: nat)

  datatype HoldFact = HoldFact(state: LifecycleState, transition: TransitionKind, detail: string, at: string)

  datatype Fact =
    | TransitionFact(transition: TransitionEntry)
    | RejectionFact(rejection: RejectionEntry)
    | AcquisitionFact(acquisition: string)
    | Held(hold: HoldFact)

  datatype StoredTransition = StoredTransition(entry: TransitionEntry, commit: Option<CommitId>)

  datatype Page = Page(
    transitions: seq<StoredTransition>,
    rejections: seq<RejectionEntry>,
    acquisitions: seq<string>,
    held: Option<HoldFact>,
    seen: map<EntryId, Fact>)

  datatype JournalState = JournalState(pages: map<RunId, Page>, fence: HighWater)

  const EMPTY: JournalState := JournalState(map[], map[])
  const BLANK: Page := Page([], [], [], None, map[])

  function PageOf(j: JournalState, run: RunId): Page {
    if run in j.pages then j.pages[run] else BLANK
  }

  /** One new fact on the page: a transition also ends any hold. */
  function Write(page: Page, fact: Fact): Page {
    match fact
    case TransitionFact(entry) =>
      page.(transitions := page.transitions + [StoredTransition(entry, None)], held := None)
    case RejectionFact(rejection) => page.(rejections := page.rejections + [rejection])
    case AcquisitionFact(acquisition) => page.(acquisitions := page.acquisitions + [acquisition])
    case Held(hold) => page.(held := Some(hold))
  }

  function Append(j: JournalState, fence: RunFence, id: EntryId, fact: Fact): (r: (Answer, JournalState)) {
    var high := After(j.fence, fence);
    var page := PageOf(j, fence.run);
    if !Admits(j.fence, fence) then (StaleFence, j)
    else if id in page.seen then
      (if page.seen[id] == fact then Accepted else ConflictingReplay, j.(fence := high))
    else
      (Accepted, JournalState(j.pages[fence.run := Write(page.(seen := page.seen[id := fact]), fact)], high))
  }

  function Tail(entries: seq<TransitionEntry>, commit: CommitId): seq<StoredTransition> {
    seq(|entries|, i requires 0 <= i < |entries| => StoredTransition(entries[i], Some(commit)))
  }

  function StageTransitions(j: JournalState, fence: RunFence, commit: CommitId, entries: seq<TransitionEntry>)
    : (r: (bool, JournalState))
  {
    var page := PageOf(j, fence.run);
    if !Admits(j.fence, fence) then (false, j)
    else
      (true, JournalState(j.pages[fence.run := page.(transitions := page.transitions + Tail(entries, commit))],
                          After(j.fence, fence)))
  }

  function Dropped(rows: seq<StoredTransition>, commit: CommitId): seq<StoredTransition> {
    if rows == [] then []
    else if rows[0].commit == Some(commit) then Dropped(rows[1..], commit)
    else [rows[0]] + Dropped(rows[1..], commit)
  }

  /** Abandon filters by commit identity alone: it never consults visibility. */
  function AbandonTail(j: JournalState, run: RunId, commit: CommitId): JournalState {
    var page := PageOf(j, run);
    j.(pages := j.pages[run := page.(transitions := Dropped(page.transitions, commit))])
  }

  /** The entries stored under one commit, in stored order. */
  function Under(rows: seq<StoredTransition>, commit: CommitId): seq<TransitionEntry> {
    if rows == [] then []
    else (if rows[0].commit == Some(commit) then [rows[0].entry] else []) + Under(rows[1..], commit)
  }

  /** What a reader sees. */
  function Readable(rows: seq<StoredTransition>, published: set<CommitId>): seq<TransitionEntry> {
    if rows == [] then []
    else (if IsVisible(published, rows[0].commit) then [rows[0].entry] else []) + Readable(rows[1..], published)
  }

  datatype CurrentState = CurrentState(
    run: RunId, state: LifecycleState, transitions: seq<TransitionEntry>,
    rejections: seq<RejectionEntry>, acquisitions: seq<string>, held: Option<HoldFact>)

  /** A page with nothing readable on it is no journal at all. */
  function Read(j: JournalState, published: set<CommitId>, run: RunId): Option<CurrentState> {
    var page := PageOf(j, run);
    var seen := Readable(page.transitions, published);
    if seen == [] && page.rejections == [] && page.acquisitions == [] && page.held.None? then None
    else Some(CurrentState(run, if seen == [] then Requested else seen[|seen| - 1].to,
                           seen, page.rejections, page.acquisitions, page.held))
  }

  // ------------------------------------------------------------------- lemmas

  lemma {:induction false} UnderSplits(a: seq<StoredTransition>, b: seq<StoredTransition>, commit: CommitId)
    ensures Under(a + b, commit) == Under(a, commit) + Under(b, commit)
  {
    if a == [] {
      assert a + b == b;
    } else {
      UnderSplits(a[1..], b, commit);
      assert (a + b)[1..] == a[1..] + b;
    }
  }

  lemma {:induction false} ReadableSplits(a: seq<StoredTransition>, b: seq<StoredTransition>, published: set<CommitId>)
    ensures Readable(a + b, published) == Readable(a, published) + Readable(b, published)
  {
    if a == [] {
      assert a + b == b;
    } else {
      ReadableSplits(a[1..], b, published);
      assert (a + b)[1..] == a[1..] + b;
    }
  }

  lemma {:induction false} UnderTail(entries: seq<TransitionEntry>, commit: CommitId, other: CommitId)
    ensures Under(Tail(entries, commit), other) == if other == commit then entries else []
  {
    if entries != [] {
      UnderTail(entries[1..], commit, other);
      assert Tail(entries, commit)[1..] == Tail(entries[1..], commit);
    }
  }

  lemma {:induction false} UnderDropped(rows: seq<StoredTransition>, commit: CommitId, other: CommitId)
    ensures Under(Dropped(rows, commit), other) == if other == commit then [] else Under(rows, other)
  {
    if rows != [] {
      UnderDropped(rows[1..], commit, other);
    }
  }

  /** Rows nobody could read leave no trace when they are dropped. */
  lemma {:induction false} DroppingUnreadable(rows: seq<StoredTransition>, published: set<CommitId>, commit: CommitId)
    requires commit !in published
    ensures Readable(Dropped(rows, commit), published) == Readable(rows, published)
  {
    if rows != [] {
      DroppingUnreadable(rows[1..], published, commit);
    }
  }

  lemma {:induction false} TailUnreadable(entries: seq<TransitionEntry>, published: set<CommitId>, commit: CommitId)
    requires commit !in published
    ensures Readable(Tail(entries, commit), published) == []
  {
    if entries != [] {
      TailUnreadable(entries[1..], published, commit);
      assert Tail(entries, commit)[1..] == Tail(entries[1..], commit);
    }
  }

  /** Two pages a reader cannot tell apart. */
  lemma SameAnswer(j: JournalState, j': JournalState, published: set<CommitId>, run: RunId)
    requires PageOf(j', run) == PageOf(j, run).(transitions := PageOf(j', run).transitions)
    requires Readable(PageOf(j', run).transitions, published) == Readable(PageOf(j, run).transitions, published)
    ensures Read(j', published, run) == Read(j, published, run)
  {
  }

  /** Staging a tail changes no reader's answer. */
  lemma StagingIsInvisible(j: JournalState, published: set<CommitId>, fence: RunFence, commit: CommitId,
                           entries: seq<TransitionEntry>, run: RunId)
    requires commit !in published
    ensures Read(StageTransitions(j, fence, commit, entries).1, published, run) == Read(j, published, run)
  {
    var rows := PageOf(j, fence.run).transitions;
    ReadableSplits(rows, Tail(entries, commit), published);
    TailUnreadable(entries, published, commit);
    SameAnswer(j, StageTransitions(j, fence, commit, entries).1, published, run);
  }

  /** Abandoning an unpublished tail changes no reader's answer. */
  lemma AbandoningIsInvisible(j: JournalState, published: set<CommitId>, owner: RunId, commit: CommitId, run: RunId)
    requires commit !in published
    ensures Read(AbandonTail(j, owner, commit), published, run) == Read(j, published, run)
  {
    DroppingUnreadable(PageOf(j, owner).transitions, published, commit);
    SameAnswer(j, AbandonTail(j, owner, commit), published, run);
  }

  /**
   * Staging is not deduplicated: a tail staged twice under one commit is stored twice, so the
   * coordinator must know of every tail it staged, and a participant that rejects must have staged nothing.
   */
  lemma StagingTwiceStoresTwice(j: JournalState, fence: RunFence, commit: CommitId, entries: seq<TransitionEntry>)
    requires Admits(j.fence, fence) && Under(PageOf(j, fence.run).transitions, commit) == []
    ensures var j2 := StageTransitions(StageTransitions(j, fence, commit, entries).1, fence, commit, entries).1;
      Under(PageOf(j2, fence.run).transitions, commit) == entries + entries
  {
    var rows := PageOf(j, fence.run).transitions;
    var tail := Tail(entries, commit);
    UnderSplits(rows, tail, commit);
    UnderSplits(rows + tail, tail, commit);
    UnderTail(entries, commit, commit);
  }

  class InMemoryRunJournal {
    var pages: map<RunId, Page>
    const fence: FenceLedger
    const visibility: CommitLedger

    function State(): JournalState
      reads this, fence
    {
      JournalState(pages, fence.high)
    }

    constructor (visibility: CommitLedger)
      ensures State() == EMPTY && this.visibility == visibility && fresh(fence)
    {
      pages := map[];
      this.visibility := visibility;
      fence := new FenceLedger();
    }

    method AppendFact(request: RunFence, id: EntryId, fact: Fact) returns (answer: Answer)
      modifies this, fence
      ensures (answer, State()) == Append(old(State()), request, id, fact)
    {
      var refused := fence.Refuse(request);
      if refused {
        return StaleFence;
      }
      var page := PageOf(State(), request.run);
      if id in page.seen {
        return if page.seen[id] == fact then Accepted else ConflictingReplay;
      }
      page := page.(seen := page.seen[id := fact]);
      match fact {
        case TransitionFact(entry) =>
          page := page.(transitions := page.transitions + [StoredTransition(entry, None)], held := None);
        case RejectionFact(rejection) => page := page.(rejections := page.rejections + [rejection]);
        case AcquisitionFact(acquisition) => page := page.(acquisitions := page.acquisitions + [acquisition]);
        case Held(hold) => page := page.(held := Some(hold));
      }
      pages := pages[request.run := page];
      answer := Accepted;
    }

    method Stage(request: RunFence, commit: CommitId, entries: seq<TransitionEntry>) returns (staged: bool)
      modifies this, fence
      ensures (staged, State()) == StageTransitions(old(State()), request, commit, entries)
    {
      var refused := fence.Refuse(request);
      if refused {
        return false;
      }
      var page := PageOf(State(), request.run);
      var rows := [];
      for i := 0 to |entries|
        invariant |rows| == i && forall k | 0 <= k < i :: rows[k] == StoredTransition(entries[k], Some(commit))
      {
        rows := rows + [StoredTransition(entries[i], Some(commit))];
      }
      assert rows == Tail(entries, commit);
      pages := pages[request.run := page.(transitions := page.transitions + rows)];
      staged := true;
    }

    method AbandonStage(run: RunId, commit: CommitId)
      modifies this
      ensures State() == AbandonTail(old(State()), run, commit)
    {
      var page := PageOf(State(), run);
      var rows := page.transitions;
      var kept := [];
      for i := 0 to |rows|
        invariant kept + Dropped(rows[i..], commit) == Dropped(rows, commit)
      {
        if rows[i].commit != Some(commit) {
          kept := kept + [rows[i]];
        }
      }
      assert kept == Dropped(rows, commit);
      pages := pages[run := page.(transitions := kept)];
    }

    method ReadCurrentState(run: RunId) returns (current: Option<CurrentState>)
      ensures current == Read(State(), visibility.published, run)
    {
      if run !in pages {
        return None;
      }
      var page := pages[run];
      var rows := page.transitions;
      var seen := [];
      for i := 0 to |rows|
        invariant seen + Readable(rows[i..], visibility.published) == Readable(rows, visibility.published)
      {
        if IsVisible(visibility.published, rows[i].commit) {
          seen := seen + [rows[i].entry];
        }
      }
      assert seen == Readable(rows, visibility.published);
      if seen == [] && page.rejections == [] && page.acquisitions == [] && page.held.None? {
        return None;
      }
      current := Some(CurrentState(run, if seen == [] then Requested else seen[|seen| - 1].to,
                                   seen, page.rejections, page.acquisitions, page.held));
    }
  }
}
