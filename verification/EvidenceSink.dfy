/** The evidence sink: governed records by identity, and the seal staged invisibly. */
module EvidenceSink {
  import opened Options
  import opened Visibility
  import opened Fence

  datatype Kind = EvidenceBundle | EarlyTerminationRecord

  datatype Record = Record(kind: Kind, payload: string)

  datatype StoredWrite = StoredWrite(run: RunId, record: Record, commit: Option<CommitId>)

  datatype EvidenceState = EvidenceState(writes: seq<StoredWrite>, landed: map<string, Record>, fence: HighWater)

  const EMPTY: EvidenceState := EvidenceState([], map[], map[])

  function WriteRecord(e: EvidenceState, fence: RunFence, id: string, record: Record): (r: (Answer, EvidenceState)) {
    var high := After(e.fence, fence);
    if !Admits(e.fence, fence) then (StaleFence, e)
    else if id in e.landed then
      (if e.landed[id] == record then Accepted else ConflictingReplay, e.(fence := high))
    else
      (Accepted, EvidenceState(e.writes + [StoredWrite(fence.run, record, None)], e.landed[id := record], high))
  }

  function StageWrite(e: EvidenceState, fence: RunFence, commit: CommitId, bundle: string): (r: (bool, EvidenceState)) {
    if !Admits(e.fence, fence) then (false, e)
    else
      (true, e.(writes := e.writes + [StoredWrite(fence.run, Record(EvidenceBundle, bundle), Some(commit))],
                fence := After(e.fence, fence)))
  }

  function Dropped(writes: seq<StoredWrite>, commit: CommitId): seq<StoredWrite> {
    if writes == [] then []
    else if writes[0].commit == Some(commit) then Dropped(writes[1..], commit)
    else [writes[0]] + Dropped(writes[1..], commit)
  }

  /** Abandon filters every run's writes by commit identity, whatever is published. */
  function AbandonWrite(e: EvidenceState, commit: CommitId): EvidenceState {
    e.(writes := Dropped(e.writes, commit))
  }

  function Under(writes: seq<StoredWrite>, commit: CommitId): seq<StoredWrite> {
    if writes == [] then []
    else (if writes[0].commit == Some(commit) then [writes[0]] else []) + Under(writes[1..], commit)
  }

  function Readable(writes: seq<StoredWrite>, published: set<CommitId>, run: RunId): seq<StoredWrite> {
    if writes == [] then []
    else (if IsVisible(published, writes[0].commit) && writes[0].run == run then [writes[0]] else [])
         + Readable(writes[1..], published, run)
  }

  lemma {:induction false} UnderSplits(a: seq<StoredWrite>, b: seq<StoredWrite>, commit: CommitId)
    ensures Under(a + b, commit) == Under(a, commit) + Under(b, commit)
  {
    if a == [] {
      assert a + b == b;
    } else {
      var whole := a + b;
      assert whole[0] == a[0] && whole[1..] == a[1..] + b;
      UnderSplits(a[1..], b, commit);
      Associates(if a[0].commit == Some(commit) then [a[0]] else [], Under(a[1..], commit), Under(b, commit));
    }
  }

  lemma Associates(x: seq<StoredWrite>, y: seq<StoredWrite>, z: seq<StoredWrite>)
    ensures (x + y) + z == x + (y + z)
  {
  }

  lemma {:induction false} UnderDropped(writes: seq<StoredWrite>, commit: CommitId, other: CommitId)
    ensures Under(Dropped(writes, commit), other) == if other == commit then [] else Under(writes, other)
  {
    if writes != [] {
      UnderDropped(writes[1..], commit, other);
    }
  }

  /** Rows nobody could read leave no trace when they are dropped. */
  lemma {:induction false} DroppingUnreadable(writes: seq<StoredWrite>, published: set<CommitId>, commit: CommitId, run: RunId)
    requires commit !in published
    ensures Readable(Dropped(writes, commit), published, run) == Readable(writes, published, run)
  {
    if writes != [] {
      DroppingUnreadable(writes[1..], published, commit, run);
    }
  }

  class RecordingEvidenceSink {
    var writes: seq<StoredWrite>
    var landed: map<string, Record>
    const fence: FenceLedger
    const visibility: CommitLedger

    function State(): EvidenceState
      reads this, fence
    {
      EvidenceState(writes, landed, fence.high)
    }

    constructor (visibility: CommitLedger)
      ensures State() == EMPTY && this.visibility == visibility && fresh(fence)
    {
      writes, landed := [], map[];
      this.visibility := visibility;
      fence := new FenceLedger();
    }

    method Write(request: RunFence, id: string, record: Record) returns (answer: Answer)
      modifies this, fence
      ensures (answer, State()) == WriteRecord(old(State()), request, id, record)
    {
      var refused := fence.Refuse(request);
      if refused {
        return StaleFence;
      }
      if id in landed {
        return if landed[id] == record then Accepted else ConflictingReplay;
      }
      landed := landed[id := record];
      writes := writes + [StoredWrite(request.run, record, None)];
      answer := Accepted;
    }

    method Stage(request: RunFence, commit: CommitId, bundle: string) returns (staged: bool)
      modifies this, fence
      ensures (staged, State()) == StageWrite(old(State()), request, commit, bundle)
    {
      var refused := fence.Refuse(request);
      if refused {
        return false;
      }
      writes := writes + [StoredWrite(request.run, Record(EvidenceBundle, bundle), Some(commit))];
      staged := true;
    }

    method AbandonStage(commit: CommitId)
      modifies this
      ensures State() == AbandonWrite(old(State()), commit)
    {
      var kept := [];
      for i := 0 to |writes|
        invariant writes == old(writes) && landed == old(landed)
        invariant kept + Dropped(writes[i..], commit) == Dropped(writes, commit)
      {
        if writes[i].commit != Some(commit) {
          kept := kept + [writes[i]];
        }
      }
      writes := kept;
    }

    method WritesOf(run: RunId) returns (seen: seq<StoredWrite>)
      ensures seen == Readable(writes, visibility.published, run)
    {
      seen := [];
      for i := 0 to |writes|
        invariant seen + Readable(writes[i..], visibility.published, run) == Readable(writes, visibility.published, run)
      {
        if IsVisible(visibility.published, writes[i].commit) && writes[i].run == run {
          seen := seen + [writes[i]];
        }
      }
    }
  }
}
